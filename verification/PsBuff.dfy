/**
 Packet buffers in pieces (include/kernel/psbuff.h), and the codec running over a
 chain of them: the same bytes as on a flat string, however the pieces are cut.
 */
module PsBuff {
  import opened Common
  import opened Marshal
  import opened ChainStream

  /** struct ps_buff: `buf` from head on, and the place and length of the data in it. */
  datatype Segment = Segment(buf: seq<Byte>, data: nat, len: nat)

  const PACKET: nat := 4096      // DFLT_MAX_PSB_PKT

  predicate SegOk(s: Segment) {
    s.data + s.len <= |s.buf|
  }

  function Bytes(s: Segment): seq<Byte>
    requires SegOk(s)
  {
    s.buf[s.data..s.data + s.len]
  }

  /** psb_tailroom */
  function Room(s: Segment): nat
    requires SegOk(s)
  {
    |s.buf| - s.len - s.data
  }

  /** psb_put, and the copy into the room it gives. */
  function Put(s: Segment, x: seq<Byte>): (r: Segment)
    requires SegOk(s) && |x| <= Room(s)
    ensures SegOk(r) && Bytes(r) == Bytes(s) + x && Room(r) == Room(s) - |x|
  {
    var from := s.data + s.len;
    Segment(s.buf[..from] + x + s.buf[from + |x|..], s.data, s.len + |x|)
  }

  /** psb_get and psb_pull */
  function Pull(s: Segment, n: nat): (r: Segment)
    requires SegOk(s) && n <= s.len
    ensures SegOk(r) && Bytes(r) == Bytes(s)[n..]
  {
    s.(data := s.data + n, len := s.len - n)
  }

  predicate AllOk(segs: seq<Segment>) {
    forall i :: 0 <= i < |segs| ==> SegOk(segs[i])
  }

  function Flat(segs: seq<Segment>): seq<Byte>
    requires AllOk(segs)
  {
    if segs == [] then [] else Bytes(segs[0]) + Flat(segs[1..])
  }

  lemma {:induction false} FlatAppend(a: seq<Segment>, b: seq<Segment>)
    requires AllOk(a) && AllOk(b)
    ensures AllOk(a + b) && Flat(a + b) == Flat(a) + Flat(b)
  {
    if a == [] {
      assert a + b == b;
    } else {
      assert (a + b)[1..] == a[1..] + b;
      FlatAppend(a[1..], b);
    }
  }

  lemma {:induction false} FlatEmpty(segs: seq<Segment>)
    requires AllOk(segs) && forall i :: 0 <= i < |segs| ==> segs[i].len == 0
    ensures Flat(segs) == []
  {
    if segs != [] {
      FlatEmpty(segs[1..]);
    }
  }

  /** Flat bytes before, in and after one piece. */
  lemma FlatAt(segs: seq<Segment>, at: nat)
    requires AllOk(segs) && at < |segs|
    ensures Flat(segs) == Flat(segs[..at]) + Bytes(segs[at]) + Flat(segs[at + 1..])
    ensures Flat(segs[at..]) == Bytes(segs[at]) + Flat(segs[at + 1..])
  {
    assert segs == segs[..at] + segs[at..];
    FlatAppend(segs[..at], segs[at..]);
    assert segs[at..][1..] == segs[at + 1..];
  }

  ghost predicate EmptyAfter(segs: seq<Segment>, at: nat) {
    forall i :: at < i < |segs| ==> segs[i].len == 0
  }

  ghost predicate FullAfter(segs: seq<Segment>, at: nat) {
    forall i :: at < i < |segs| ==> segs[i].len > 0
  }

  /** Every piece to come takes at least one byte. */
  ghost predicate RoomyAfter(segs: seq<Segment>, at: nat) {
    forall i :: at < i < |segs| ==> SegOk(segs[i]) && Room(segs[i]) > 0
  }

  /** No piece between two others is empty. */
  ghost predicate FilledBetween(segs: seq<Segment>, from: nat, at: nat) {
    forall i :: from < i < at && i < |segs| ==> segs[i].len > 0
  }

  /** After `at`, no empty piece comes before one that is not. */
  ghost predicate NoHole(segs: seq<Segment>, at: nat) {
    forall i, j :: at < i < j < |segs| && segs[j].len > 0 ==> segs[i].len > 0
  }

  /** Pieces do not move or change their size. */
  ghost predicate SameShape(segs: seq<Segment>, segs': seq<Segment>) {
    && |segs| <= |segs'|
    && forall i :: 0 <= i < |segs| ==> |segs'[i].buf| == |segs[i].buf| && segs'[i].data == segs[i].data
  }

  /** The pieces from `from` up to `to` take no byte more. */
  ghost predicate FullUp(segs: seq<Segment>, from: nat, to: nat) {
    to <= |segs| && forall i :: from <= i < to ==> SegOk(segs[i]) && Room(segs[i]) == 0
  }

  /** Writing at the end of the written part. */
  lemma FlatPut(segs: seq<Segment>, at: nat, x: seq<Byte>)
    requires AllOk(segs) && at < |segs| && EmptyAfter(segs, at) && |x| <= Room(segs[at])
    ensures var segs' := segs[at := Put(segs[at], x)]; AllOk(segs') && EmptyAfter(segs', at) && Flat(segs') == Flat(segs) + x
  {
    var segs' := segs[at := Put(segs[at], x)];
    FlatAt(segs, at);
    FlatAt(segs', at);
    FlatEmpty(segs[at + 1..]);
    assert segs'[..at] == segs[..at] && segs'[at + 1..] == segs[at + 1..];
    hide Flat, Bytes;
  }

  /** The same, for the pieces from `from` on. */
  lemma FlatPutFrom(segs: seq<Segment>, from: nat, at: nat, x: seq<Byte>)
    requires AllOk(segs) && from <= at < |segs| && EmptyAfter(segs, at) && |x| <= Room(segs[at])
    ensures var segs' := segs[at := Put(segs[at], x)];
      AllOk(segs') && EmptyAfter(segs', at) && AllOk(segs'[from..]) && Flat(segs'[from..]) == Flat(segs[from..]) + x
  {
    var segs' := segs[at := Put(segs[at], x)];
    assert segs'[from..] == segs[from..][at - from := Put(segs[at], x)];
    FlatPut(segs[from..], at - from, x);
    hide Flat;
  }

  ghost predicate WritingAt(segs: seq<Segment>, from: nat, at: nat, solid: bool, more: bool) {
    && at < |segs| && AllOk(segs) && from <= at && EmptyAfter(segs, at)
    && (solid ==>
         && RoomyAfter(segs, at) && FilledBetween(segs, from, at)
         && (at == from || segs[at].len > 0 || (more && Room(segs[at]) > 0)))
  }

  /** The bytes from a piece on. */
  ghost function FlatFrom(segs: seq<Segment>, from: nat): seq<Byte> {
    if from <= |segs| && AllOk(segs[from..]) then Flat(segs[from..]) else []
  }

  function Fresh(): Segment {
    Segment(seq(PACKET, i => 0), 0, 0)
  }

  lemma AppendFresh(segs: seq<Segment>, from: nat, at: nat, solid: bool)
    requires WritingAt(segs, from, at, solid, false) && at + 1 == |segs|
    ensures WritingAt(segs + [Fresh()], from, at, solid, false) && FlatFrom(segs + [Fresh()], from) == FlatFrom(segs, from)
    ensures SameShape(segs, segs + [Fresh()])
  {
    FlatAppend(segs[from..], [Fresh()]);
    assert Flat([Fresh()]) == [];
    assert (segs + [Fresh()])[from..] == segs[from..] + [Fresh()];
    hide Flat;
  }

  lemma WritingIn(segs: seq<Segment>, from: nat, at: nat, solid: bool, more: bool)
    requires WritingAt(segs, from, at, solid, more)
    ensures at < |segs| && SegOk(segs[at]) && from <= at && AllOk(segs)
  {
  }

  lemma WritingMore(segs: seq<Segment>, from: nat, at: nat, solid: bool)
    requires WritingAt(segs, from, at, solid, false)
    ensures WritingAt(segs, from, at, solid, true)
  {
  }

  lemma MoveOn(segs: seq<Segment>, from: nat, at: nat, solid: bool)
    requires WritingAt(segs, from, at, solid, false) && at + 1 < |segs|
    ensures WritingAt(segs, from, at + 1, solid, true)
  {
  }

  /** A piece that was written to. */
  lemma PutShape(segs: seq<Segment>, from: nat, at: nat, solid: bool, s: Segment)
    requires WritingAt(segs, from, at, solid, true) && SegOk(s) && s.data == segs[at].data && |s.buf| == |segs[at].buf|
    requires s.len >= segs[at].len && (s.len > 0 || Room(segs[at]) == 0)
    ensures WritingAt(segs[at := s], from, at, solid, false) && SameShape(segs, segs[at := s])
  {
  }

  lemma PutStep(segs: seq<Segment>, from: nat, at: nat, solid: bool, x: seq<Byte>)
    requires WritingAt(segs, from, at, solid, true) && |x| <= Room(segs[at]) && (x == [] ==> Room(segs[at]) == 0)
    ensures var segs' := segs[at := Put(segs[at], x)];
      && WritingAt(segs', from, at, solid, false) && FlatFrom(segs', from) == FlatFrom(segs, from) + x && SameShape(segs, segs')
  {
    FlatPutFrom(segs, from, at, x);
    hide Flat, WritingAt, SameShape;
    PutShape(segs, from, at, solid, Put(segs[at], x));
  }

  class Chain {
    var segs: seq<Segment>
    var at: nat              // psb, the piece in work
    var memory: nat          // how many more pieces alloc_psb can give
    const beyond: Byte       // what is read past the end of a piece's memory
    ghost var from: nat      // the piece where the message in work begins
    ghost var solid: bool    // when writing: no piece is without room

    ghost predicate Valid()
      reads this
    {
      at < |segs| && AllOk(segs)
    }

    /** Between writes; `more`: or having just moved on, with something to write. */
    ghost predicate Writing(more: bool)
      reads this
    {
      WritingAt(segs, from, at, solid, more)
    }

    /** The bytes of the message in work. */
    ghost function Written(): seq<Byte>
      reads this
    {
      FlatFrom(segs, from)
    }

    /** What a reader meets from here on. */
    ghost function Stream(): ChainStream.Stream
      reads this
    {
      StreamOf(segs, at, beyond)
    }

    constructor (segs: seq<Segment>, memory: nat, beyond: Byte)
      requires segs != [] && AllOk(segs)
      ensures Valid() && this.segs == segs && at == 0 && this.memory == memory && this.beyond == beyond
      ensures from == 0 && !solid
    {
      this.segs, this.at, this.memory, this.beyond := segs, 0, memory, beyond;
      this.from, this.solid := 0, false;
    }

    /** psb->next, allocated when there is none. */
    method NextToWrite(ghost segs0: seq<Segment>, ghost at0: nat) returns (ok: bool)
      requires Writing(false) && Filled(segs0, at0, segs, at + 1)
      modifies this`segs, this`at, this`memory
      ensures Writing(ok) && Written() == old(Written()) && Filled(segs0, at0, segs, if ok then at else |segs|)
      ensures !ok ==> memory == 0
      ensures ok ==> (memory == old(memory) && |segs| - at < old(|segs| - at)) || memory < old(memory)
    {
      hide WritingAt, FlatFrom, SameShape, Filled;
      WritingIn(segs, from, at, solid, false);
      if at + 1 == |segs| {
        if memory == 0 {
          return false;
        }
        memory := memory - 1;
        AppendFresh(segs, from, at, solid);
        FilledGrown(segs0, at0, segs, segs + [Fresh()], at + 1);
        segs := segs + [Fresh()];
      }
      MoveOn(segs, from, at, solid);
      at := at + 1;
      ok := true;
    }

    /** One psb_put of as much of `x` as the current piece takes. */
    method PutHere(x: seq<Byte>, ghost segs0: seq<Segment>, ghost at0: nat) returns (n: nat)
      requires Writing(true) && x != [] && Filled(segs0, at0, segs, at)
      modifies this`segs
      ensures Writing(false) && n <= |x| && Written() == old(Written()) + x[..n] && Filled(segs0, at0, segs, if n < |x| then at + 1 else at)
      ensures |segs| == old(|segs|)
    {
      WritingIn(segs, from, at, solid, true);
      n := Room(segs[at]);
      if n > |x| {
        n := |x|;
      }
      PutStep(segs, from, at, solid, x[..n]);
      hide WritingAt, FlatFrom, SameShape, Filled, Bytes;
      FilledPut(segs0, at0, segs, segs[at := Put(segs[at], x[..n])], at, n < |x|);
      segs := segs[at := Put(segs[at], x[..n])];
    }

    /** CHECK_AND_ENCODE_BYTES, and the loop of CHECK_AND_ENCODE_BASETYPE. */
    method PutBytes(src: seq<Byte>) returns (ok: bool, ghost k: nat)
      requires Writing(false)
      modifies this`segs, this`at, this`memory
      ensures Writing(false) && SameShape(old(segs), segs)
      ensures k <= |src| && Written() == old(Written()) + src[..k]
      ensures if ok then k == |src| else k < |src| && memory == 0 && FullUp(segs, old(at), |segs|)
    {
      var rest := src;
      ghost var was := Written();
      WritingMore(segs, from, at, solid);
      WritingIn(segs, from, at, solid, false);
      FilledStart(segs, at);
      CopiedStart(src, was);
      hide *;
      ok := true;
      while ok && rest != []
        invariant Copied(src, rest, was, Written()) && Writing(ok && rest != [])
        invariant Filled(old(segs), old(at), segs, if ok then at else |segs|)
        invariant !ok ==> rest != [] && memory == 0
        decreases ok, |rest|, memory, |segs| - at
      {
        ok, rest := PutTurn(rest, src, was, old(segs), old(at));
      }
      k := |src| - |rest|;
      CopiedEnd(src, rest, was, Written());
      FilledFacts(old(segs), old(at), segs, if ok then at else |segs|);
    }

    /** One turn of the loop: the current piece is filled, and the next one is gone to. */
    method PutTurn(rest: seq<Byte>, ghost src: seq<Byte>, ghost was: seq<Byte>, ghost segs0: seq<Segment>, ghost at0: nat) returns (ok: bool, rest': seq<Byte>)
      requires Writing(true) && rest != [] && Copied(src, rest, was, Written()) && Filled(segs0, at0, segs, at)
      modifies this`segs, this`at, this`memory
      ensures Copied(src, rest', was, Written()) && Writing(ok && rest' != []) && Filled(segs0, at0, segs, if ok then at else |segs|)
      ensures !ok ==> rest' != [] && memory == 0
      ensures |rest'| < |rest| || (rest' == rest && (!ok || memory < old(memory) || (memory == old(memory) && |segs| - at < old(|segs| - at))))
    {
      ghost var had := Written();
      hide *;
      var n := PutHere(rest, segs0, at0);
      CopiedMore(src, rest, was, had, n);
      ok, rest' := true, rest[n..];
      if rest' != [] {
        ok := NextToWrite(segs0, at0);
      }
    }

    /** One psb_get of at most `most` bytes from the current piece. */
    method PullHere(most: nat) returns (x: seq<Byte>)
      requires Valid()
      modifies this`segs
      ensures Valid() && |segs| == |old(segs)| && |x| <= most && Taken(old(Stream()), x, Stream())
      ensures |x| < most ==> segs[at].len == 0
    {
      var copy := segs[at].len;
      if copy > most {
        copy := most;
      }
      StreamPull(segs, at, copy, beyond);
      x := Bytes(segs[at])[..copy];
      hide StreamOf, Taken, Bytes;
      segs := segs[at := Pull(segs[at], copy)];
    }

    /** psb->next, if there is one. */
    method NextToRead() returns (ok: bool)
      requires Valid() && segs[at].len == 0
      modifies this`at
      ensures Valid() && at >= old(at)
      ensures if ok then at == old(at) + 1 && StepsOver(old(Stream()), Stream()) else at == old(at) && Stream() == []
    {
      StreamNext(segs, at, beyond);
      hide StreamOf, StepsOver;
      if at + 1 == |segs| {
        return false;
      }
      at := at + 1;
      return true;
    }

    /** CHECK_AND_DECODE_BYTES, and the loop of CHECK_AND_DECODE_BASETYPE. */
    method GetBytes(n: nat) returns (ok: bool, dst: seq<Byte>)
      requires Valid()
      modifies this`segs, this`at
      ensures Valid() && |Real(Stream())| <= |Real(old(Stream()))|
      ensures ok <==> n <= |Real(old(Stream()))|
      ensures ok ==> dst == Real(old(Stream()))[..n] && Stream() == Drop(old(Stream()), n)
    {
      ghost var st := Stream();
      hide StreamOf, Taken, StepsOver, Getting, AllOk, Real, Drop;
      dst := PullHere(n);
      GettingStart(st, n, dst, Stream());
      ok := true;
      while ok && |dst| < n
        invariant Valid() && |dst| <= n && Getting(st, n, dst, Stream())
        invariant ok && |dst| < n ==> segs[at].len == 0
        invariant !ok ==> |dst| < n && Stream() == []
        decreases |segs| - at, ok
      {
        ghost var before := Stream();
        ok := NextToRead();
        if ok {
          ghost var mid := Stream();
          GettingStep(st, n, dst, before, mid);
          var x := PullHere(n - |dst|);
          GettingMore(st, n, dst, mid, x, Stream());
          dst := dst + x;
        }
      }
      GettingEnd(st, n, dst, Stream());
    }

    method StringSize() returns (l: nat)
      requires Valid()
      ensures l == StrSize(Seen(Stream()))
    {
      SeenPadded(segs, at, beyond);
      hide StreamOf, StrSize;
      l := SafeStrSize(segs, at, beyond);
    }
  }

  // ---- Chains as streams ------------------------------------------------------------------------------

  function CellsOf(segs: seq<Segment>, beyond: Byte): Stream
    requires AllOk(segs)
  {
    if segs == [] then []
    else (if segs[0].len == 0 then [Gap(Peek(segs[0], 0, beyond))] else Smooth(Bytes(segs[0]))) + CellsOf(segs[1..], beyond)
  }

  /** The rest of the current piece, and the pieces behind it. */
  ghost function StreamOf(segs: seq<Segment>, at: nat, beyond: Byte): Stream {
    if at < |segs| && AllOk(segs) then Smooth(Bytes(segs[at])) + CellsOf(segs[at + 1..], beyond) else []
  }

  /** `x` was taken off the front. */
  ghost predicate Taken(st: Stream, x: seq<Byte>, st': Stream) {
    Real(st) == x + Real(st') && st' == Drop(st, |x|)
  }

  /** Nothing but an empty piece was left behind. */
  ghost predicate StepsOver(st: Stream, st': Stream) {
    Real(st') == Real(st) && forall n: nat :: n > 0 ==> Drop(st', n) == Drop(st, n)
  }

  /** Part of `n` bytes was taken. */
  ghost predicate Getting(st: Stream, n: nat, dst: seq<Byte>, st': Stream) {
    |dst| <= n && Real(st) == dst + Real(st') && Drop(st, n) == Drop(st', n - |dst|)
  }

  lemma {:induction false} SmoothTake(b: seq<Byte>, n: nat, more: Stream)
    requires n <= |b|
    ensures Taken(Smooth(b) + more, b[..n], Smooth(b[n..]) + more)
  {
    DropSmooth(b, n, more);
    RealAppend(Smooth(b), more);
    RealAppend(Smooth(b[n..]), more);
    SmoothFacts(b);
    SmoothFacts(b[n..]);
    hide Real, Smooth, Drop, Seen;
    CutAt(b, n, Real(more));
  }

  lemma CutAt(b: seq<Byte>, n: nat, more: seq<Byte>)
    requires n <= |b|
    ensures b + more == b[..n] + (b[n..] + more)
  {
  }

  lemma {:induction false} StreamPull(segs: seq<Segment>, at: nat, n: nat, beyond: Byte)
    requires AllOk(segs) && at < |segs| && n <= segs[at].len
    ensures var segs' := segs[at := Pull(segs[at], n)];
      AllOk(segs') && Taken(StreamOf(segs, at, beyond), Bytes(segs[at])[..n], StreamOf(segs', at, beyond))
  {
    var segs' := segs[at := Pull(segs[at], n)];
    assert segs'[at + 1..] == segs[at + 1..];
    assert AllOk(segs');
    SmoothTake(Bytes(segs[at]), n, CellsOf(segs[at + 1..], beyond));
    hide CellsOf, Smooth, Taken;
  }

  lemma {:induction false} StreamNext(segs: seq<Segment>, at: nat, beyond: Byte)
    requires AllOk(segs) && at < |segs| && segs[at].len == 0
    ensures if at + 1 < |segs| then StepsOver(StreamOf(segs, at, beyond), StreamOf(segs, at + 1, beyond)) else StreamOf(segs, at, beyond) == []
  {
    var tail := segs[at + 1..];
    assert Smooth(Bytes(segs[at])) == [];
    var st := StreamOf(segs, at, beyond);
    assert st == CellsOf(tail, beyond);
    if tail != [] {
      assert tail[1..] == segs[at + 2..] && tail[0] == segs[at + 1];
      var rest, st' := CellsOf(tail[1..], beyond), StreamOf(segs, at + 1, beyond);
      assert st' == Smooth(Bytes(tail[0])) + rest;
      if tail[0].len == 0 {
        var c := Gap(Peek(tail[0], 0, beyond));
        assert st == [c] + rest && Smooth(Bytes(tail[0])) == [] && st' == rest;
        OverGap(c, rest);
      } else {
        assert st == st';
        hide Real, Drop, CellsOf, StreamOf, Smooth;
      }
    }
  }

  lemma {:induction false} OverGap(c: Cell, st: Stream)
    requires c.Gap?
    ensures StepsOver([c] + st, st)
  {
    assert ([c] + st)[1..] == st;
  }

  lemma {:induction false} GettingStart(st: Stream, n: nat, x: seq<Byte>, st': Stream)
    requires Taken(st, x, st') && |x| <= n
    ensures Getting(st, n, x, st')
  {
    DropDrop(st, |x|, n - |x|);
  }

  lemma {:induction false} GettingStep(st: Stream, n: nat, dst: seq<Byte>, before: Stream, after: Stream)
    requires Getting(st, n, dst, before) && |dst| < n && StepsOver(before, after)
    ensures Getting(st, n, dst, after)
  {
    hide Real, Drop;
  }

  lemma {:induction false} GettingMore(st: Stream, n: nat, dst: seq<Byte>, before: Stream, x: seq<Byte>, after: Stream)
    requires Getting(st, n, dst, before) && Taken(before, x, after) && |dst| + |x| <= n
    ensures Getting(st, n, dst + x, after)
  {
    DropDrop(before, |x|, n - |dst| - |x|);
    hide Real, Drop;
    Assoc(dst, x, Real(after));
  }

  lemma {:induction false} GettingEnd(st: Stream, n: nat, dst: seq<Byte>, st': Stream)
    requires Getting(st, n, dst, st')
    ensures |Real(st')| <= |Real(st)|
    ensures |dst| == n ==> n <= |Real(st)| && dst == Real(st)[..n] && st' == Drop(st, n)
    ensures |dst| < n && st' == [] ==> |Real(st)| < n
  {
    assert st' == [] ==> Real(st') == [];
    assert Drop(st', 0) == st';
    hide Real, Drop;
    SplitAt(Real(st), dst, Real(st'));
  }

  lemma {:induction false} SeenCells(segs: seq<Segment>, beyond: Byte)
    requires AllOk(segs)
    ensures Seen(CellsOf(segs, beyond)) == Padded(segs, beyond) && Real(CellsOf(segs, beyond)) == Flat(segs)
  {
    if segs != [] {
      SeenCells(segs[1..], beyond);
      var first: Stream := if segs[0].len == 0 then [Gap(Peek(segs[0], 0, beyond))] else Smooth(Bytes(segs[0]));
      RealAppend(first, CellsOf(segs[1..], beyond));
      SmoothFacts(Bytes(segs[0]));
      OneGap(Peek(segs[0], 0, beyond));
      hide Real, Seen, Smooth;
      assert segs[0].len == 0 ==> Bytes(segs[0]) == [];
    }
  }

  lemma OneGap(b: Byte)
    ensures Seen([Gap(b)]) == [b] && Real([Gap(b)]) == []
  {
  }

  lemma {:induction false} SeenPadded(segs: seq<Segment>, at: nat, beyond: Byte)
    requires AllOk(segs) && at < |segs|
    ensures Seen(StreamOf(segs, at, beyond)) == Bytes(segs[at]) + Padded(segs[at + 1..], beyond)
    ensures Real(StreamOf(segs, at, beyond)) == FlatFrom(segs, at)
  {
    SeenCells(segs[at + 1..], beyond);
    RealAppend(Smooth(Bytes(segs[at])), CellsOf(segs[at + 1..], beyond));
    SmoothFacts(Bytes(segs[at]));
    FlatAt(segs, at);
    hide Real, Seen, Smooth, CellsOf, Padded, Flat;
  }

  /** SAFE_STRSIZE; 0 stands for its error. */
  method SafeStrSize(pieces: seq<Segment>, at: nat, beyond: Byte) returns (l: nat)
    requires AllOk(pieces) && at < |pieces|
    ensures l == StrSize(Bytes(pieces[at]) + Padded(pieces[at + 1..], beyond))
  {
    ghost var all := Bytes(pieces[at]) + Padded(pieces[at + 1..], beyond);
    ScanStart(pieces, at, beyond);
    hide StrSize, ScanAt, AllOk, Padded, Bytes, ToScan;
    var b: nat, i: nat, stop := at, 0, false;
    ghost var inside := false;
    l := 0;
    while !stop
      invariant if stop then l == StrSize(all) else ScanAt(pieces, b, i, l, all, beyond, inside) && (inside ==> i > 0)
      decreases !stop, |pieces| - b, ToScan(pieces, b, i)
    {
      b, i, l, stop, inside := ScanOne(pieces, b, i, l, beyond, all, inside);
    }
  }

  /** One turn of its loop.  On moving to a piece it does not look whether that one is empty. */
  method ScanOne(pieces: seq<Segment>, b: nat, i: nat, l: nat, beyond: Byte, ghost all: seq<Byte>, ghost inside: bool)
    returns (b': nat, i': nat, l': nat, stop: bool, ghost inside': bool)
    requires ScanAt(pieces, b, i, l, all, beyond, inside) && (inside ==> i > 0)
    ensures b <= b' < |pieces|
    ensures stop ==> l' == StrSize(all)
    ensures !stop ==> ScanAt(pieces, b', i', l', all, beyond, inside') && (inside' ==> i' > 0) && (b' == b ==> ToScan(pieces, b, i') < ToScan(pieces, b, i))
  {
    hide *;
    ScanIn(pieces, b, i, l, all, beyond, inside);
    b', i', l', stop, inside' := b, i, l, false, inside;
    if i' >= pieces[b'].len {
      if b' + 1 == |pieces| {
        Miss(pieces, b', i', l', all, beyond, inside');
        l', stop := 0, true;
        return;
      }
      Hop(pieces, b', i', l', all, beyond, inside');
      b', i', inside' := b' + 1, 0, true;
    } else {
      ScansOn(pieces, b', i');
    }
    stop := Peek(pieces[b'], i', beyond) == 0;
    if stop {
      Hit(pieces, b', i', l', all, beyond, inside');
    } else {
      Tick(pieces, b', i', l', all, beyond, inside');
    }
    l', i' := l' + 1, i' + 1;
  }

  lemma ScansOn(segs: seq<Segment>, b: nat, i: nat)
    requires b < |segs| && i < segs[b].len
    ensures ToScan(segs, b, i + 1) < ToScan(segs, b, i)
  {
  }

  /** The byte at place `i` of a piece, past its end as well. */
  function Peek(s: Segment, i: nat, beyond: Byte): Byte {
    if s.data + i < |s.buf| then s.buf[s.data + i] else beyond
  }

  /** The bytes of a piece as the scan enters it: at least one. */
  function PadOne(s: Segment, beyond: Byte): seq<Byte>
    requires SegOk(s)
  {
    if s.len == 0 then [Peek(s, 0, beyond)] else Bytes(s)
  }

  function Padded(segs: seq<Segment>, beyond: Byte): seq<Byte>
    requires AllOk(segs)
  {
    if segs == [] then [] else PadOne(segs[0], beyond) + Padded(segs[1..], beyond)
  }

  /** What the scan has ahead at place `i` of piece `b`; `inside`: that piece was entered from the one before. */
  ghost function Ahead(segs: seq<Segment>, b: nat, i: nat, beyond: Byte, inside: bool): seq<Byte>
    requires b < |segs| && AllOk(segs)
  {
    var here := if inside then PadOne(segs[b], beyond) else Bytes(segs[b]);
    (if i <= |here| then here[i..] else []) + Padded(segs[b + 1..], beyond)
  }

  /** `l` bytes of `all` are behind, none of them NUL. */
  ghost predicate ScanAt(segs: seq<Segment>, b: nat, i: nat, l: nat, all: seq<Byte>, beyond: Byte, inside: bool) {
    && b < |segs| && AllOk(segs) && i <= (if inside && segs[b].len == 0 then 1 else segs[b].len)
    && StrSize(all) == Sum(l, StrSize(Ahead(segs, b, i, beyond, inside)))
  }

  ghost function Sum(l: nat, n: nat): nat {
    if n == 0 then 0 else l + n
  }

  /** How much of the piece is not scanned. */
  ghost function ToScan(segs: seq<Segment>, b: nat, i: nat): nat {
    if b < |segs| && i <= segs[b].len then segs[b].len - i else 0
  }

  lemma ScanStart(segs: seq<Segment>, at: nat, beyond: Byte)
    requires AllOk(segs) && at < |segs|
    ensures ScanAt(segs, at, 0, 0, Bytes(segs[at]) + Padded(segs[at + 1..], beyond), beyond, false)
  {
    assert Bytes(segs[at])[0..] == Bytes(segs[at]);
    hide StrSize, Padded;
  }

  lemma ScanIn(segs: seq<Segment>, b: nat, i: nat, l: nat, all: seq<Byte>, beyond: Byte, inside: bool)
    requires ScanAt(segs, b, i, l, all, beyond, inside)
    ensures b < |segs|
  {
  }

  lemma Hop(segs: seq<Segment>, b: nat, i: nat, l: nat, all: seq<Byte>, beyond: Byte, inside: bool)
    requires ScanAt(segs, b, i, l, all, beyond, inside) && i >= segs[b].len && b + 1 < |segs| && (inside ==> i > 0)
    ensures ScanAt(segs, b + 1, 0, l, all, beyond, true)
  {
    var more := segs[b + 1..];
    assert more[1..] == segs[b + 2..];
    assert Padded(more, beyond) == PadOne(segs[b + 1], beyond) + Padded(segs[b + 2..], beyond);
    hide StrSize, Padded;
    assert Ahead(segs, b, i, beyond, inside) == Ahead(segs, b + 1, 0, beyond, true);
  }

  /** The byte looked at is the next one ahead. */
  lemma Next(segs: seq<Segment>, b: nat, i: nat, beyond: Byte, inside: bool)
    requires b < |segs| && AllOk(segs) && (i < segs[b].len || (inside && i == 0))
    ensures Ahead(segs, b, i, beyond, inside) == [Peek(segs[b], i, beyond)] + Ahead(segs, b, i + 1, beyond, inside)
  {
    var here, more := if inside then PadOne(segs[b], beyond) else Bytes(segs[b]), Padded(segs[b + 1..], beyond);
    assert i < |here| && here[i] == Peek(segs[b], i, beyond);
    hide Padded, Bytes, PadOne, Peek, AllOk;
    FirstOff(here, i, more);
  }

  lemma FirstOff(here: seq<Byte>, i: nat, more: seq<Byte>)
    requires i < |here|
    ensures here[i..] + more == [here[i]] + (here[i + 1..] + more)
  {
  }

  lemma Assoc(a: seq<Byte>, b: seq<Byte>, c: seq<Byte>)
    ensures a + (b + c) == (a + b) + c
  {
  }

  lemma Tick(segs: seq<Segment>, b: nat, i: nat, l: nat, all: seq<Byte>, beyond: Byte, inside: bool)
    requires ScanAt(segs, b, i, l, all, beyond, inside) && Peek(segs[b], i, beyond) != 0
    requires i < segs[b].len || (inside && i == 0)
    ensures ScanAt(segs, b, i + 1, l + 1, all, beyond, inside)
  {
    Next(segs, b, i, beyond, inside);
    hide Ahead, Peek;
    assert Ahead(segs, b, i, beyond, inside)[1..] == Ahead(segs, b, i + 1, beyond, inside);
  }

  lemma Hit(segs: seq<Segment>, b: nat, i: nat, l: nat, all: seq<Byte>, beyond: Byte, inside: bool)
    requires ScanAt(segs, b, i, l, all, beyond, inside) && Peek(segs[b], i, beyond) == 0
    requires i < segs[b].len || (inside && i == 0)
    ensures StrSize(all) == l + 1
  {
    Next(segs, b, i, beyond, inside);
    hide Ahead, Peek;
  }

  lemma Miss(segs: seq<Segment>, b: nat, i: nat, l: nat, all: seq<Byte>, beyond: Byte, inside: bool)
    requires ScanAt(segs, b, i, l, all, beyond, inside) && i >= segs[b].len && b + 1 == |segs| && (inside ==> i > 0)
    ensures StrSize(all) == 0
  {
    assert segs[b + 1..] == [];
    assert Ahead(segs, b, i, beyond, inside) == [];
  }

  lemma SplitAt(b: seq<Byte>, x: seq<Byte>, y: seq<Byte>)
    requires b == x + y
    ensures b[..|x|] == x && b[|x|..] == y
  {
  }

  /** All of `src` but `rest` was put behind `was`. */
  ghost predicate Copied(src: seq<Byte>, rest: seq<Byte>, was: seq<Byte>, now: seq<Byte>) {
    |rest| <= |src| && rest == src[|src| - |rest|..] && now == was + src[..|src| - |rest|]
  }

  lemma CopiedStart(src: seq<Byte>, was: seq<Byte>)
    ensures Copied(src, src, was, was)
  {
  }

  lemma CopiedMore(src: seq<Byte>, rest: seq<Byte>, was: seq<Byte>, now: seq<Byte>, n: nat)
    requires Copied(src, rest, was, now) && n <= |rest|
    ensures Copied(src, rest[n..], was, now + rest[..n])
  {
    var i := |src| - |rest|;
    assert src[..i] + rest[..n] == src[..i + n];
    assert was + src[..i] + rest[..n] == was + src[..i + n];
  }

  lemma CopiedEnd(src: seq<Byte>, rest: seq<Byte>, was: seq<Byte>, now: seq<Byte>)
    requires Copied(src, rest, was, now)
    ensures |rest| <= |src| && now == was + src[..|src| - |rest|]
  {
  }

  lemma SameShapeMore(a: seq<Segment>, b: seq<Segment>, c: seq<Segment>)
    requires SameShape(a, b) && SameShape(b, c)
    ensures SameShape(a, c)
  {
  }

  /** The pieces are those of before, and from `from` up to `to` they take no byte more. */
  ghost predicate Filled(segs: seq<Segment>, from: nat, segs': seq<Segment>, to: nat) {
    from <= to && SameShape(segs, segs') && FullUp(segs', from, to)
  }

  lemma FilledStart(segs: seq<Segment>, at: nat)
    requires at <= |segs|
    ensures Filled(segs, at, segs, at)
  {
  }

  lemma FilledPut(segs: seq<Segment>, from: nat, mid: seq<Segment>, segs': seq<Segment>, at: nat, full: bool)
    requires Filled(segs, from, mid, at) && at < |mid| == |segs'| && segs' == mid[at := segs'[at]] && SameShape(mid, segs')
    requires full ==> FullUp(segs', at, at + 1)
    ensures Filled(segs, from, segs', if full then at + 1 else at)
  {
    SameShapeMore(segs, mid, segs');
    hide SameShape;
  }

  lemma FilledGrown(segs: seq<Segment>, from: nat, mid: seq<Segment>, segs': seq<Segment>, to: nat)
    requires Filled(segs, from, mid, to) && mid <= segs' && SameShape(mid, segs')
    ensures Filled(segs, from, segs', to)
  {
    SameShapeMore(segs, mid, segs');
    hide SameShape;
  }

  lemma FilledFacts(segs: seq<Segment>, from: nat, segs': seq<Segment>, to: nat)
    requires Filled(segs, from, segs', to)
    ensures SameShape(segs, segs') && FullUp(segs', from, to)
  {
  }

  /** Three pieces, the second reserved in full. */
  function Holey(): seq<Segment> {
    [Segment([7], 0, 0), Segment([7], 1, 0), Segment([7, 7, 7, 7], 0, 0)]
  }

  lemma HoleyTakesThree(segs: seq<Segment>)
    requires SameShape(Holey(), segs) && AllOk(segs) && FullUp(segs, 0, |segs|)
    ensures |FlatFrom(segs, 0)| >= 4
  {
    assert segs[0..] == segs;
    FlatAt(segs, 2);
    assert |Bytes(segs[2])| == 4;
    hide Flat;
  }

  lemma HoleyMisread(segs: seq<Segment>)
    requires SameShape(Holey(), segs) && AllOk(segs)
    ensures StrSize(Bytes(segs[0]) + Padded(segs[1..], 0)) <= 2
  {
    var rest := segs[1..];
    assert |Bytes(segs[0])| <= 1 && PadOne(segs[1], 0) == [0] && rest[0] == segs[1];
    var b, more := Bytes(segs[0]), Padded(rest[1..], 0);
    assert Padded(rest, 0) == [0] + more;
    hide Padded, Bytes;
    var all := b + ([0] + more);
    assert b != [] ==> all[1..] == [0] + more;
  }

  lemma Behind(text: seq<Byte>, k: nat)
    requires k <= |text|
    ensures |[] + text[..k]| == k && (k == |text| ==> [] + text[..k] == text)
  {
  }

  lemma HoleyBlank()
    ensures WritingAt(Holey(), 0, 0, false, false) && FlatFrom(Holey(), 0) == []
  {
    FlatEmpty(Holey());
    assert Holey()[0..] == Holey();
  }

  /** `"ab"` and its NUL go into the pieces around. */
  method WriteAcross() returns (chain: Chain, ok: bool)
    ensures fresh(chain) && ok && chain.Written() == [97, 98, 0] && chain.from == 0 && chain.beyond == 0
    ensures SameShape(Holey(), chain.segs) && AllOk(chain.segs)
  {
    var text: seq<Byte> := [97, 98, 0];
    HoleyBlank();
    chain := new Chain(Holey(), 0, 0);
    hide SameShape, FullUp, FlatFrom, Holey, AllOk, WritingAt, SegOk, Flat;
    ghost var k;
    ok, k := chain.PutBytes(text);
    WritingIn(chain.segs, 0, chain.at, false, false);
    if !ok {
      HoleyTakesThree(chain.segs);
    }
    Behind(text, k);
  }

  lemma TextSize()
    ensures StrSize([97, 98, 0]) == 3
  {
    var text: seq<Byte> := [97, 98, 0];
    assert text[1..] == [98, 0] && text[1..][1..] == [0];
  }

  /** A piece without room stays empty when the pieces around it are written, and a string across it is misread. */
  method StringAcrossHole() returns (chain: Chain, ok: bool, l: nat)
    ensures ok && chain.Written() == [97, 98, 0] && l != StrSize([97, 98, 0])
  {
    chain, ok := WriteAcross();
    chain.at := 0;
    TextSize();
    assert |Holey()| == 3;
    hide StreamOf, Seen, Real, StrSize, FlatFrom, Flat, Padded, Bytes, Holey;
    HoleyMisread(chain.segs);
    SeenPadded(chain.segs, 0, 0);
    l := chain.StringSize();
  }
}

/**
 When chains of packet buffers are read right: pieces, their bytes and their spare memory
 as streams, and the exact conditions on where empty pieces may lie.
 */
module ChainPlaces {
  import opened Common
  import opened Marshal
  import opened ChainStream
  import opened StreamCodec
  import opened PsBuff

  // ---- Any memory behind empty pieces ------------------------------------------------------------

  /** The same bytes piece by piece, with anything in the memory around them. */
  ghost predicate SameData(segs: seq<Segment>, other: seq<Segment>) {
    && |segs| == |other| && AllOk(segs) && AllOk(other)
    && forall i :: 0 <= i < |segs| ==> Bytes(other[i]) == Bytes(segs[i])
  }

  lemma {:induction false} CellsRespared(segs: seq<Segment>, other: seq<Segment>, beyond: Byte, beyond': Byte)
    requires SameData(segs, other)
    ensures Respared(CellsOf(segs, beyond), CellsOf(other, beyond'))
  {
    if segs != [] {
      assert Bytes(other[0]) == Bytes(segs[0]) && |Bytes(segs[0])| == segs[0].len && |Bytes(other[0])| == other[0].len;
      assert SameData(segs[1..], other[1..]) by {
        forall i | 0 <= i < |segs[1..]| ensures Bytes(other[1..][i]) == Bytes(segs[1..][i]) {
          assert segs[1..][i] == segs[i + 1] && other[1..][i] == other[i + 1];
        }
      }
      CellsRespared(segs[1..], other[1..], beyond, beyond');
    }
  }

  lemma {:induction false} StreamsRespared(segs: seq<Segment>, other: seq<Segment>, from: nat, beyond: Byte, beyond': Byte)
    requires SameData(segs, other) && from < |segs|
    ensures Respared(StreamOf(segs, from, beyond), StreamOf(other, from, beyond'))
  {
    var a, b := segs[from + 1..], other[from + 1..];
    assert SameData(a, b) by {
      forall i | 0 <= i < |a| ensures Bytes(b[i]) == Bytes(a[i]) {
        assert a[i] == segs[from + 1 + i] && b[i] == other[from + 1 + i];
      }
    }
    CellsRespared(a, b, beyond, beyond');
    hide CellsOf, Smooth;
  }

  /** Spare memory can hold anything. */
  lemma {:induction false} CellsMade(segs: seq<Segment>, beyond: Byte, st: Stream) returns (other: seq<Segment>)
    requires AllOk(segs) && Respared(CellsOf(segs, beyond), st)
    ensures SameData(segs, other) && CellsOf(other, beyond) == st
  {
    if segs == [] {
      other := [];
    } else {
      var rest := CellsOf(segs[1..], beyond);
      var first: Stream := if segs[0].len == 0 then [Gap(Peek(segs[0], 0, beyond))] else Smooth(Bytes(segs[0]));
      assert CellsOf(segs, beyond) == first + rest;
      SmoothHere(Bytes(segs[0]));
      SplitRespared(first, rest, st);
      var more := CellsMade(segs[1..], beyond, st[|first|..]);
      var here := if segs[0].len == 0 then Segment([st[0].b], 0, 0) else segs[0];
      other := [here] + more;
      OneMade(segs, other, here, more);
      CellsJoined(segs[0], here, first, more, beyond, st);
    }
  }

  lemma {:induction false} SmoothHere(b: seq<Byte>)
    ensures |Smooth(b)| == |b| && forall i :: 0 <= i < |b| ==> Smooth(b)[i].Here?
  {
    if b != [] {
      SmoothHere(b[1..]);
    }
  }

  lemma SplitRespared(a: Stream, b: Stream, st: Stream)
    requires Respared(a + b, st)
    ensures |a| <= |st| && Respared(a, st[..|a|]) && Respared(b, st[|a|..])
    ensures (forall i :: 0 <= i < |a| ==> a[i].Here?) ==> st[..|a|] == a
  {
    forall i | 0 <= i < |a| ensures if a[i].Gap? then st[i].Gap? else st[i] == a[i] {
      assert (a + b)[i] == a[i];
    }
    forall i | 0 <= i < |b| ensures if b[i].Gap? then st[|a| + i].Gap? else st[|a| + i] == b[i] {
      assert (a + b)[|a| + i] == b[i];
    }
  }

  lemma OneMade(segs: seq<Segment>, other: seq<Segment>, here: Segment, more: seq<Segment>)
    requires segs != [] && SegOk(segs[0]) && SegOk(here) && Bytes(here) == Bytes(segs[0]) && SameData(segs[1..], more) && other == [here] + more
    ensures SameData(segs, other)
  {
    forall i | 0 <= i < |segs| ensures SegOk(segs[i]) && SegOk(other[i]) && Bytes(other[i]) == Bytes(segs[i]) {
      if i > 0 {
        assert segs[i] == segs[1..][i - 1] && other[i] == more[i - 1];
      }
    }
  }

  lemma CellsJoined(was: Segment, here: Segment, first: Stream, more: seq<Segment>, beyond: Byte, st: Stream)
    requires SegOk(was) && SegOk(here) && AllOk(more) && |first| <= |st| && CellsOf(more, beyond) == st[|first|..]
    requires if was.len == 0 then |first| == 1 && st[0].Gap? && here == Segment([st[0].b], 0, 0) else here == was && first == Smooth(Bytes(was)) == st[..|first|]
    ensures AllOk([here] + more) && CellsOf([here] + more, beyond) == st
  {
    assert ([here] + more)[1..] == more;
    assert st == st[..|first|] + st[|first|..];
  }

  lemma {:induction false} StreamMade(segs: seq<Segment>, from: nat, beyond: Byte, st: Stream) returns (other: seq<Segment>)
    requires AllOk(segs) && from < |segs| && Respared(StreamOf(segs, from, beyond), st)
    ensures SameData(segs, other) && StreamOf(other, from, beyond) == st
  {
    var first, tail := Smooth(Bytes(segs[from])), segs[from + 1..];
    hide Smooth, CellsOf, Respared, Bytes, SameData;
    SmoothHere(Bytes(segs[from]));
    SplitRespared(first, CellsOf(tail, beyond), st);
    var more := CellsMade(tail, beyond, st[|first|..]);
    other := segs[..from + 1] + more;
    TailMade(segs, from, more);
    assert other[from + 1..] == more && other[from] == segs[from];
    assert st == st[..|first|] + st[|first|..];
  }

  lemma TailMade(segs: seq<Segment>, from: nat, more: seq<Segment>)
    requires AllOk(segs) && from < |segs| && SameData(segs[from + 1..], more)
    ensures SameData(segs, segs[..from + 1] + more) && AllOk(segs[..from + 1] + more)
  {
    var tail, other := segs[from + 1..], segs[..from + 1] + more;
    forall i | 0 <= i < |segs| ensures SegOk(other[i]) && Bytes(other[i]) == Bytes(segs[i]) {
      if i > from {
        assert segs[i] == tail[i - from - 1] && other[i] == more[i - from - 1];
      }
    }
  }

  // ---- Where empty pieces lie -------------------------------------------------------------------------

  /** The piece at `i`, empty, with `p` bytes between `from` and it. */
  ghost predicate HoleAt(segs: seq<Segment>, from: nat, i: nat, p: nat)
    requires AllOk(segs)
  {
    from < i < |segs| && segs[i].len == 0 && p == |Flat(segs[from..i])|
  }

  /** One of the pieces is empty, with `p` bytes before it, counting from `at`. */
  ghost predicate Lies(segs: seq<Segment>, at: nat, p: nat)
    requires AllOk(segs)
  {
    exists i :: 0 <= i < |segs| && segs[i].len == 0 && p == at + |Flat(segs[..i])|
  }

  lemma {:induction false} PlacesSmooth(b: seq<Byte>, st: Stream, at: nat)
    ensures Places(Smooth(b) + st, at) == Places(st, at + |b|)
  {
    if b == [] {
      assert Smooth(b) + st == st;
    } else {
      assert (Smooth(b) + st)[1..] == Smooth(b[1..]) + st;
      PlacesSmooth(b[1..], st, at + 1);
    }
  }

  lemma {:induction false} PlacesOfCells(segs: seq<Segment>, beyond: Byte, at: nat, p: nat)
    requires AllOk(segs)
    ensures p in Places(CellsOf(segs, beyond), at) <==> Lies(segs, at, p)
  {
    if segs != [] {
      TailOk(segs);
      hide *;
      PlacesOfCells(segs[1..], beyond, at + segs[0].len, p);
      FirstPlaces(segs, beyond, at);
      HolesShift(segs, at, p);
    }
  }

  lemma TailOk(segs: seq<Segment>)
    requires AllOk(segs) && segs != []
    ensures AllOk(segs[1..])
  {
  }

  /** The first piece and the others. */
  lemma {:induction false} FirstPlaces(segs: seq<Segment>, beyond: Byte, at: nat)
    requires AllOk(segs) && segs != []
    ensures var rest := Places(CellsOf(segs[1..], beyond), at + segs[0].len);
      Places(CellsOf(segs, beyond), at) == if segs[0].len == 0 then {at} + rest else rest
  {
    var cells := CellsOf(segs[1..], beyond);
    if segs[0].len == 0 {
      assert CellsOf(segs, beyond)[1..] == cells;
    } else {
      PlacesSmooth(Bytes(segs[0]), cells, at);
    }
  }

  lemma {:induction false} HolesShift(segs: seq<Segment>, at: nat, p: nat)
    requires AllOk(segs) && segs != [] && AllOk(segs[1..])
    ensures Lies(segs, at, p) <==> (segs[0].len == 0 && p == at) || Lies(segs[1..], at + segs[0].len, p)
  {
    assert Flat(segs[..0]) == [];
    var rest := segs[1..];
    hide Flat, AllOk;
    if Lies(segs, at, p) {
      var i :| 0 <= i < |segs| && segs[i].len == 0 && p == at + |Flat(segs[..i])|;
      if i > 0 {
        FlatShift(segs, i);
        assert rest[i - 1] == segs[i] && p == at + segs[0].len + |Flat(rest[..i - 1])|;
      }
    }
    if Lies(rest, at + segs[0].len, p) {
      var i :| 0 <= i < |rest| && rest[i].len == 0 && p == at + segs[0].len + |Flat(rest[..i])|;
      FlatShift(segs, i + 1);
      assert segs[i + 1] == rest[i] && p == at + |Flat(segs[..i + 1])|;
    }
  }

  lemma {:induction false} FlatShift(segs: seq<Segment>, i: nat)
    requires AllOk(segs) && 0 < i <= |segs|
    ensures |Flat(segs[..i])| == segs[0].len + |Flat(segs[1..][..i - 1])|
  {
    assert segs[..i][1..] == segs[1..][..i - 1] && segs[..i][0] == segs[0];
    assert |Bytes(segs[0])| == segs[0].len;
  }

  lemma {:induction false} TailHoles(segs: seq<Segment>, from: nat, p: nat)
    requires AllOk(segs) && from < |segs| && AllOk(segs[from + 1..])
    ensures Lies(segs[from + 1..], segs[from].len, p) <==> exists i :: HoleAt(segs, from, i, p)
  {
    var tail, n := segs[from + 1..], segs[from].len;
    if Lies(tail, n, p) {
      var i :| 0 <= i < |tail| && tail[i].len == 0 && p == n + |Flat(tail[..i])|;
      FlatLonger(segs, from, from + 1 + i);
      assert tail[..i] == segs[from + 1..from + 1 + i] && tail[i] == segs[from + 1 + i];
      assert HoleAt(segs, from, from + 1 + i, p);
    }
    if i: nat :| HoleAt(segs, from, i, p) {
      FlatLonger(segs, from, i);
      assert tail[..i - from - 1] == segs[from + 1..i] && tail[i - from - 1] == segs[i];
    }
  }

  lemma {:induction false} FlatLonger(segs: seq<Segment>, from: nat, i: nat)
    requires AllOk(segs) && from < i <= |segs|
    ensures |Flat(segs[from..i])| == segs[from].len + |Flat(segs[from + 1..i])|
  {
    assert segs[from..i][1..] == segs[from + 1..i] && segs[from..i][0] == segs[from];
    assert |Bytes(segs[from])| == segs[from].len;
  }

  lemma {:induction false} ChainParts(segs: seq<Segment>, from: nat, beyond: Byte)
    requires AllOk(segs) && from < |segs|
    ensures AllOk(segs[from + 1..]) && |Bytes(segs[from])| == segs[from].len
    ensures StreamOf(segs, from, beyond) == Smooth(Bytes(segs[from])) + CellsOf(segs[from + 1..], beyond)
  {
    hide Smooth, CellsOf;
  }

  /** The places of empty pieces in the stream are those in the chain. */
  lemma {:induction false} PlacesOfChain(segs: seq<Segment>, from: nat, beyond: Byte, p: nat)
    requires AllOk(segs) && from < |segs|
    ensures p in Places(StreamOf(segs, from, beyond), 0) <==> exists i :: HoleAt(segs, from, i, p)
  {
    var tail := segs[from + 1..];
    hide *;
    ChainParts(segs, from, beyond);
    PlacesSmooth(Bytes(segs[from]), CellsOf(tail, beyond), 0);
    PlacesOfCells(tail, beyond, segs[from].len, p);
    TailHoles(segs, from, p);
  }

  // ---- The exact conditions -----------------------------------------------------------------------------

  /** SAFE_STRSIZE is right, whatever lies in spare memory. */
  ghost predicate SizeRight(segs: seq<Segment>, at: nat, n: nat) {
    forall other, beyond :: SameData(segs, other) ==> StrSize(Seen(StreamOf(other, at, beyond))) == n
  }

  /** For every chain with a string at the cursor: its size is found right exactly if no empty piece comes before its NUL. */
  lemma {:induction false} LookedExact(segs: seq<Segment>, at: nat)
    requires AllOk(segs) && at < |segs| && StrSize(FlatFrom(segs, at)) > 0
    ensures var n := StrSize(FlatFrom(segs, at)); SizeRight(segs, at, n) <==> forall i: nat, p: nat :: HoleAt(segs, at, i, p) ==> p >= n
  {
    var st, n := StreamOf(segs, at, 0), StrSize(FlatFrom(segs, at));
    SeenPadded(segs, at, 0);
    hide *;
    ScanExact(st, 0);
    PlacesBound(segs, at, 0, n);
    if forall p :: p in Places(st, 0) ==> p >= 0 + n {
      forall other, beyond | SameData(segs, other) ensures StrSize(Seen(StreamOf(other, at, beyond))) == n {
        StreamsRespared(segs, other, at, 0, beyond);
      }
      AllSizes(segs, at, n);
    } else {
      var st' :| Respared(st, st') && StrSize(Seen(st')) != n;
      var other := StreamMade(segs, at, 0, st');
      OneSize(segs, at, n, other, 0);
    }
  }

  lemma AllSizes(segs: seq<Segment>, at: nat, n: nat)
    requires forall other, beyond :: SameData(segs, other) ==> StrSize(Seen(StreamOf(other, at, beyond))) == n
    ensures SizeRight(segs, at, n)
  {
  }

  lemma OneSize(segs: seq<Segment>, at: nat, n: nat, other: seq<Segment>, beyond: Byte)
    requires SameData(segs, other) && StrSize(Seen(StreamOf(other, at, beyond))) != n
    ensures !SizeRight(segs, at, n)
  {
    hide SameData, StrSize, Seen, StreamOf;
  }

  lemma {:induction false} PlacesBound(segs: seq<Segment>, at: nat, beyond: Byte, n: nat)
    requires AllOk(segs) && at < |segs|
    ensures (forall p :: p in Places(StreamOf(segs, at, beyond), 0) ==> p >= 0 + n) <==> (forall i: nat, p: nat :: HoleAt(segs, at, i, p) ==> p >= n)
  {
    hide Places, StreamOf, HoleAt, AllOk;
    var st := StreamOf(segs, at, beyond);
    if forall i: nat, p: nat :: HoleAt(segs, at, i, p) ==> p >= n {
      forall p | p in Places(st, 0) ensures p >= n {
        var i := HoleOf(segs, at, beyond, p);
      }
    }
    if forall p :: p in Places(st, 0) ==> p >= n {
      forall i: nat, p: nat | HoleAt(segs, at, i, p) ensures p >= n {
        PlaceOf(segs, at, beyond, i, p);
      }
    }
  }

  /** No empty piece lies between the byte before a string of the encoding and its NUL. */
  ghost predicate Whole(env: Env, o: Order, t: Type, v: Value, segs: seq<Segment>, from: nat)
    requires HasType(env, t, v) && AllOk(segs)
  {
    forall i: nat, p: nat :: HoleAt(segs, from, i, p) ==> !InText(env, o, t, v, 0, p)
  }

  lemma {:induction false} WholeUntorn(env: Env, o: Order, t: Type, v: Value, segs: seq<Segment>, from: nat, beyond: Byte)
    requires HasType(env, t, v) && AllOk(segs) && from < |segs|
    ensures Whole(env, o, t, v, segs, from) <==> Untorn(env, o, t, v, StreamOf(segs, from, beyond), 0)
  {
    hide *;
    if Whole(env, o, t, v, segs, from) {
      WholeThen(env, o, t, v, segs, from, beyond);
    }
    if Untorn(env, o, t, v, StreamOf(segs, from, beyond), 0) {
      UntornThen(env, o, t, v, segs, from, beyond);
    }
  }

  lemma {:induction false} WholeThen(env: Env, o: Order, t: Type, v: Value, segs: seq<Segment>, from: nat, beyond: Byte)
    requires HasType(env, t, v) && AllOk(segs) && from < |segs| && Whole(env, o, t, v, segs, from)
    ensures Untorn(env, o, t, v, StreamOf(segs, from, beyond), 0)
  {
    hide Places, StreamOf, HoleAt, AllOk, InText, HasType;
    var st := StreamOf(segs, from, beyond);
    forall p | p in Places(st, 0) ensures !InText(env, o, t, v, 0, p) {
      var i := HoleOf(segs, from, beyond, p);
    }
  }

  lemma {:induction false} UntornThen(env: Env, o: Order, t: Type, v: Value, segs: seq<Segment>, from: nat, beyond: Byte)
    requires HasType(env, t, v) && AllOk(segs) && from < |segs| && Untorn(env, o, t, v, StreamOf(segs, from, beyond), 0)
    ensures Whole(env, o, t, v, segs, from)
  {
    hide Places, StreamOf, HoleAt, AllOk, InText, HasType;
    forall i: nat, p: nat | HoleAt(segs, from, i, p) ensures !InText(env, o, t, v, 0, p) {
      PlaceOf(segs, from, beyond, i, p);
    }
  }

  lemma {:induction false} HoleOf(segs: seq<Segment>, from: nat, beyond: Byte, p: nat) returns (i: nat)
    requires AllOk(segs) && from < |segs| && p in Places(StreamOf(segs, from, beyond), 0)
    ensures HoleAt(segs, from, i, p)
  {
    hide Places, StreamOf, HoleAt, AllOk;
    PlacesOfChain(segs, from, beyond, p);
    i :| HoleAt(segs, from, i, p);
  }

  lemma {:induction false} PlaceOf(segs: seq<Segment>, from: nat, beyond: Byte, i: nat, p: nat)
    requires AllOk(segs) && from < |segs| && HoleAt(segs, from, i, p)
    ensures p in Places(StreamOf(segs, from, beyond), 0)
  {
    hide Places, StreamOf, HoleAt, AllOk;
    PlacesOfChain(segs, from, beyond, p);
  }

  /** The value is read from the chain, whatever lies in spare memory. */
  ghost predicate AlwaysReturns(env: Env, o: Order, t: Type, v: Value, segs: seq<Segment>, from: nat) {
    forall other, beyond :: SameData(segs, other) ==> Returns(Parse(env, o, t, StreamOf(other, from, beyond)), v)
  }

  lemma OneLost(env: Env, o: Order, t: Type, v: Value, segs: seq<Segment>, from: nat, other: seq<Segment>, beyond: Byte)
    requires SameData(segs, other) && !Returns(Parse(env, o, t, StreamOf(other, from, beyond)), v)
    ensures !AlwaysReturns(env, o, t, v, segs, from)
  {
    hide SameData, Parse, StreamOf;
  }

  /**
   A value marshalled into a chain comes back from it whatever lies in spare memory exactly if its
   strings fit and no empty piece lies between the byte before a string of the encoding and its NUL.
   */
  lemma {:induction false} ComesBackExactly(env: Env, o: Order, t: Type, v: Value, segs: seq<Segment>, from: nat)
    requires HasType(env, t, v) && AllOk(segs) && from < |segs| && Encode(env, o, t, v) <= FlatFrom(segs, from)
    ensures AlwaysReturns(env, o, t, v, segs, from) <==> Fits(v) && Whole(env, o, t, v, segs, from)
  {
    var st := StreamOf(segs, from, 0);
    SeenPadded(segs, from, 0);
    hide SameData, Parse, StreamOf, HasType, Encode, Fits, Whole, Untorn, FlatFrom, Real, Seen, Returns, AllOk;
    WholeUntorn(env, o, t, v, segs, from, 0);
    ReturnsExactly(env, o, t, v, st);
    if Fits(v) && Whole(env, o, t, v, segs, from) {
      forall other, beyond | SameData(segs, other) ensures Returns(Parse(env, o, t, StreamOf(other, from, beyond)), v) {
        StreamsRespared(segs, other, from, 0, beyond);
      }
    } else {
      var st' := ReturnsOnlyIf(env, o, t, v, st);
      var other := StreamMade(segs, from, 0, st');
      OneLost(env, o, t, v, segs, from, other, 0);
    }
  }

  // ---- Empty pieces at the end only -----------------------------------------------------------------------

  lemma {:induction false} SmoothAppend(a: seq<Byte>, b: seq<Byte>)
    ensures Smooth(a + b) == Smooth(a) + Smooth(b)
  {
    if a == [] {
      assert a + b == b;
    } else {
      assert (a + b)[1..] == a[1..] + b;
      SmoothAppend(a[1..], b);
    }
  }

  lemma {:induction false} CellsHollow(segs: seq<Segment>, beyond: Byte)
    requires AllOk(segs) && forall i :: 0 <= i < |segs| ==> segs[i].len == 0
    ensures Hollow(CellsOf(segs, beyond))
  {
    if segs != [] {
      CellsHollow(segs[1..], beyond);
    }
  }

  lemma {:induction false} CellsSplit(segs: seq<Segment>, beyond: Byte) returns (junk: Stream)
    requires AllOk(segs) && forall i, j :: 0 <= i < j < |segs| && segs[j].len > 0 ==> segs[i].len > 0
    ensures Hollow(junk) && CellsOf(segs, beyond) == Smooth(Flat(segs)) + junk
    ensures (forall i :: 0 <= i < |segs| ==> segs[i].len > 0) ==> junk == []
  {
    if segs == [] {
      junk := [];
    } else if segs[0].len == 0 {
      assert forall i :: 0 <= i < |segs| ==> segs[i].len == 0;
      FlatEmpty(segs);
      CellsHollow(segs, beyond);
      junk := CellsOf(segs, beyond);
    } else {
      junk := CellsSplit(segs[1..], beyond);
      SmoothAppend(Bytes(segs[0]), Flat(segs[1..]));
      assert forall i :: 0 <= i < |segs[1..]| ==> segs[1..][i] == segs[i + 1];
      CellsFirst(segs, beyond, junk);
    }
  }

  lemma {:induction false} CellsFirst(segs: seq<Segment>, beyond: Byte, junk: Stream)
    requires AllOk(segs) && segs != [] && segs[0].len > 0 && CellsOf(segs[1..], beyond) == Smooth(Flat(segs[1..])) + junk
    requires Smooth(Bytes(segs[0]) + Flat(segs[1..])) == Smooth(Bytes(segs[0])) + Smooth(Flat(segs[1..]))
    ensures CellsOf(segs, beyond) == Smooth(Flat(segs)) + junk
  {
    hide Smooth, Bytes;
    Grouped(Smooth(Bytes(segs[0])), Smooth(Flat(segs[1..])), junk);
  }

  lemma Grouped(a: Stream, b: Stream, c: Stream)
    ensures a + (b + c) == (a + b) + c
  {
  }

  /**
   A chain with its empty pieces at the end, if anywhere, is read as the flat decoder reads its bytes;
   where that fails, if no piece after the current one is empty.
   */
  lemma {:induction false} ReadsAsFlat(env: Env, o: Order, t: Type, segs: seq<Segment>, at: nat, beyond: Byte)
    requires AllOk(segs) && at < |segs| && NoHole(segs, at)
    ensures var d, r := Decode(env, o, t, FlatFrom(segs, at)), Parse(env, o, t, StreamOf(segs, at, beyond));
      (d.Got? ==> r.Good? && r.value == d.value && Real(r.rest) == d.rest) && (d.Fail? && FullAfter(segs, at) ==> r.Bad?)
  {
    var tail := segs[at + 1..];
    assert forall i :: 0 <= i < |tail| ==> tail[i] == segs[at + 1 + i];
    var junk := CellsSplit(tail, beyond);
    var here, b := Bytes(segs[at]), FlatFrom(segs, at);
    FlatAt(segs, at);
    SmoothAppend(here, Flat(tail));
    hide Smooth, Bytes, Flat, CellsOf, Decode, Parse, AllOk, NoHole, Real;
    Grouped(Smooth(here), Smooth(Flat(tail)), junk);
    assert StreamOf(segs, at, beyond) == Smooth(b) + junk;
    AsFlat(env, o, t, b, junk);
    if Decode(env, o, t, b).Got? {
      HollowReal(Decode(env, o, t, b).rest, junk);
    }
  }
}

/** Framed reads and the write queue of an I/O descriptor (kernel/iofd.c, include/kernel/iofd.h). */
module Iofd {
  import opened Common

  // ---- Reading ---------------------------------------------------------------------------------

  const MIN_PACKET: nat := 1024        // FD_MAX_PACKET_SIZE_MIN
  const MIN_SYSCALL: nat := 1024       // MIN_SYSCALL_SIZE
  const LIGHT_COPY: nat := 96          // MAX_LW_COPY_SIZE

  function Concat(packets: seq<seq<Byte>>): seq<Byte> {
    if packets == [] then [] else Concat(packets[..|packets| - 1]) + packets[|packets| - 1]
  }

  lemma ConcatPush(packets: seq<seq<Byte>>, p: seq<Byte>)
    ensures Concat(packets + [p]) == Concat(packets) + p
  {
    assert (packets + [p])[..|packets|] == packets;
  }

  /** What read_f answers: some bytes, none, try again, or an error. */
  datatype Answer = Read(bytes: seq<Byte>) | ReadNone | Again | Error

  /** read_f gives some bytes, and no more than there is room for. */
  ghost predicate Obeys(os: (nat, nat) -> Answer) {
    forall k, room :: os(k, room).Read? ==> 1 <= |os(k, room).bytes| <= room
  }

  /** The k-th read finds nothing more to read for now. */
  ghost predicate EndsAt(os: (nat, nat) -> Answer, k: nat) {
    forall room :: os(k, room) == Again
  }

  /** How a call of __iofd_read_data ends. */
  datatype End = Starved | Finished | Failed

  /** The checker takes its decision by the time it sees `max` bytes. */
  ghost predicate Decides(chk: seq<Byte> -> int, max: nat) {
    forall d :: |d| >= max ==> chk(d) != 0
  }

  // ---- Cutting a byte string into packets, all at once ---------------------------------------------

  /** The packets of a byte string, what is left, and whether the checker found fault. */
  datatype Cut = Cut(packets: seq<seq<Byte>>, rest: seq<Byte>, ok: bool)

  /** As the checker says, from the front on; without one everything there is makes a packet. */
  function CutUp(chk: Option<seq<Byte> -> int>, b: seq<Byte>): Cut
    decreases |b|
  {
    if b == [] then Cut([], b, true)
    else if chk.None? then Cut([b], [], true)
    else
      var e := chk.value(b);
      if e < 0 || e > |b| then Cut([], b, false)
      else if e == 0 then Cut([], b, true)
      else var more := CutUp(chk, b[e..]); Cut([b[..e]] + more.packets, more.rest, more.ok)
  }

  /** A packet, once seen, is the same whatever follows. */
  ghost predicate Stable(chk: seq<Byte> -> int) {
    forall d, more :: 1 <= chk(d) <= |d| ==> chk(d + more) == chk(d)
  }

  lemma Join3(a: seq<Byte>, b: seq<Byte>, c: seq<Byte>)
    ensures (a + b) + c == a + (b + c)
  {
  }

  lemma CutStep(chk: Option<seq<Byte> -> int>, b: seq<Byte>)
    requires b != [] && chk.Some? && 1 <= chk.value(b) <= |b|
    ensures var e := chk.value(b);
      var more := CutUp(chk, b[e..]);
      CutUp(chk, b) == Cut([b[..e]] + more.packets, more.rest, more.ok)
  {
  }

  lemma CutNone(chk: Option<seq<Byte> -> int>, b: seq<Byte>)
    requires chk.Some? && CutUp(chk, b).ok && (b == [] || !(1 <= chk.value(b) <= |b|))
    ensures CutUp(chk, b) == Cut([], b, true)
  {
  }

  /** Cutting what has arrived, and then what was left with what arrived later, is cutting all at once. */
  lemma {:induction false} CutMore(chk: Option<seq<Byte> -> int>, b: seq<Byte>, more: seq<Byte>)
    requires chk.Some? && Stable(chk.value) && CutUp(chk, b).ok
    ensures var first := CutUp(chk, b);
      var then_ := CutUp(chk, first.rest + more);
      CutUp(chk, b + more) == Cut(first.packets + then_.packets, then_.rest, then_.ok)
    decreases |b|
  {
    hide CutUp;
    if b != [] && 1 <= chk.value(b) <= |b| {
      var e := chk.value(b);
      assert chk.value(b + more) == e;
      hide Stable;
      CutStep(chk, b);
      CutStep(chk, b + more);
      assert (b + more)[..e] == b[..e] && (b + more)[e..] == b[e..] + more;
      CutMore(chk, b[e..], more);
      Regroup([b[..e]], CutUp(chk, b[e..]).packets, CutUp(chk, CutUp(chk, b[e..]).rest + more).packets);
    } else {
      CutNone(chk, b);
      Regroup([], [], CutUp(chk, b + more).packets);
    }
  }

  lemma Regroup(a: seq<seq<Byte>>, b: seq<seq<Byte>>, c: seq<seq<Byte>>)
    ensures (a + b) + c == a + (b + c) && [] + c == c && a + [] == a
  {
  }

  /** `packets` of `total` are cut off, and the others will come from `left`. */
  ghost predicate Partway(chk: Option<seq<Byte> -> int>, total: seq<Byte>, packets: seq<seq<Byte>>, left: seq<Byte>) {
    var cut := CutUp(chk, left);
    CutUp(chk, total) == Cut(packets + cut.packets, cut.rest, cut.ok)
  }

  lemma PartwayStart(chk: Option<seq<Byte> -> int>, b: seq<Byte>)
    ensures Partway(chk, b, [], b)
  {
    assert [] + CutUp(chk, b).packets == CutUp(chk, b).packets;
  }

  /** One more packet of `left` is cut off. */
  lemma PartwayStep(chk: Option<seq<Byte> -> int>, total: seq<Byte>, packets: seq<seq<Byte>>, left: seq<Byte>, e: nat)
    requires Partway(chk, total, packets, left) && left != [] && 1 <= e <= |left| && e == (if chk.Some? then chk.value(left) else |left|)
    ensures Partway(chk, total, packets + [left[..e]], left[e..])
  {
    if chk.Some? {
      CutStep(chk, left);
      hide CutUp;
      Regroup(packets, [left[..e]], CutUp(chk, left[e..]).packets);
    } else {
      assert left[..e] == left && left[e..] == [];
      assert CutUp(chk, left) == Cut([left], [], true) && CutUp(chk, []) == Cut([], [], true);
      Regroup(packets + [left], [], []);
    }
  }

  lemma PartwayEnd(chk: Option<seq<Byte> -> int>, total: seq<Byte>, packets: seq<seq<Byte>>, left: seq<Byte>)
    requires Partway(chk, total, packets, left)
    requires left == [] || (chk.Some? && !(1 <= chk.value(left) <= |left|))
    ensures CutUp(chk, total) == Cut(packets, left, left == [] || chk.value(left) == 0)
  {
    Regroup(packets, [], []);
  }

  /** What is left after cutting has no packet in it. */
  lemma {:induction false} CutTwice(chk: Option<seq<Byte> -> int>, b: seq<Byte>)
    requires CutUp(chk, b).ok
    ensures CutUp(chk, CutUp(chk, b).rest) == Cut([], CutUp(chk, b).rest, true)
    decreases |b|
  {
    if b != [] && chk.Some? && 1 <= chk.value(b) <= |b| {
      CutTwice(chk, b[chk.value(b)..]);
    }
  }

  lemma PartwayCut(chk: Option<seq<Byte> -> int>, total: seq<Byte>, packets: seq<seq<Byte>>, left: seq<Byte>)
    requires Partway(chk, total, packets, left)
    ensures var cut := CutUp(chk, left); CutUp(chk, total) == Cut(packets + cut.packets, cut.rest, cut.ok)
  {
  }

  /** All of `left` is cut, and more arrives. */
  lemma PartwayMore(chk: Option<seq<Byte> -> int>, total: seq<Byte>, packets: seq<seq<Byte>>, left: seq<Byte>, more: seq<Byte>)
    requires chk.Some? && Stable(chk.value) && Partway(chk, total, packets, left) && CutUp(chk, left).ok
    ensures var cut := CutUp(chk, left); Partway(chk, total + more, packets + cut.packets, cut.rest + more)
  {
    CutMore(chk, total, more);
  }

  /** All of `left` is cut: the packets of everything so far, and how it goes on when more arrives. */
  lemma Arrived(chk: Option<seq<Byte> -> int>, total: seq<Byte>, packets: seq<seq<Byte>>, left: seq<Byte>, more: seq<Byte>)
    requires chk.Some? && Stable(chk.value) && Partway(chk, total, packets, left)
    ensures var cut := CutUp(chk, left);
      && CutUp(chk, total) == Cut(packets + cut.packets, cut.rest, cut.ok)
      && (cut.ok ==> Partway(chk, total + more, packets + cut.packets, cut.rest + more))
  {
    PartwayCut(chk, total, packets, left);
    if CutUp(chk, left).ok {
      PartwayMore(chk, total, packets, left, more);
    }
  }

  /** The loop goes on, having cut `cuts` from `start` and what was read since. */
  ghost predicate Underway(chk: Option<seq<Byte> -> int>, start: seq<Byte>, read: seq<Byte>, cuts: seq<seq<Byte>>,
                           left: seq<Byte>, before: seq<seq<Byte>>, packets: seq<seq<Byte>>) {
    chk.Some? && Stable(chk.value) ==> Partway(chk, start + read, cuts, left) && packets == before + cuts
  }

  /** The loop is over, and the packets are those of all bytes at once. */
  ghost predicate AllCut(chk: Option<seq<Byte> -> int>, start: seq<Byte>, read: seq<Byte>, end: End,
                         left: seq<Byte>, before: seq<seq<Byte>>, packets: seq<seq<Byte>>) {
    chk.Some? && Stable(chk.value) ==>
      var cut := CutUp(chk, start + read);
      && packets == before + cut.packets + (if end.Finished? then [[]] else []) && left == cut.rest && (!cut.ok ==> end.Failed?)
  }

  /** What one turn does: all of `left` is cut, an end of the stream is reported, `bytes` arrive. */
  ghost predicate Turned(chk: Option<seq<Byte> -> int>, left: seq<Byte>, packets: seq<seq<Byte>>, end: Option<End>, bytes: seq<Byte>,
                         left': seq<Byte>, packets': seq<seq<Byte>>) {
    var cut := CutUp(chk, left);
    && left' == cut.rest + bytes && (end.None? ==> cut.ok) && (!cut.ok ==> end == Some(Failed)) && (end.Some? ==> bytes == [])
    && (chk.Some? ==> packets' == packets + cut.packets + if end == Some(Finished) then [[]] else [])
  }

  lemma TurnedOn(chk: Option<seq<Byte> -> int>, start: seq<Byte>, read: seq<Byte>, cuts: seq<seq<Byte>>, before: seq<seq<Byte>>,
                 left: seq<Byte>, packets: seq<seq<Byte>>, end: Option<End>, bytes: seq<Byte>, left': seq<Byte>, packets': seq<seq<Byte>>)
    requires Underway(chk, start, read, cuts, left, before, packets) && Turned(chk, left, packets, end, bytes, left', packets')
    ensures end.None? ==> Underway(chk, start, read + bytes, cuts + CutUp(chk, left).packets, left', before, packets')
    ensures end.Some? ==> AllCut(chk, start, read + bytes, end.value, left', before, packets')
  {
    hide CutUp, Partway, Stable;
    if chk.Some? && Stable(chk.value) {
      var cut := CutUp(chk, left);
      Arrived(chk, start + read, cuts, left, bytes);
      Regroup(before, cuts, cut.packets);
      if end.Some? {
        assert read + [] == read && cut.rest + [] == cut.rest;
      } else {
        Regroup(packets + cut.packets, [], []);
        Join3(start, read, bytes);
      }
    }
  }

  /** What a call has read and cut so far, and the rooms it offered. */
  datatype Tally = Tally(start: seq<Byte>, before: seq<seq<Byte>>, input: seq<Byte>, read: seq<Byte>, cuts: seq<seq<Byte>>, offered: seq<nat>)

  ghost predicate Tallied(chk: Option<seq<Byte> -> int>, max: nat, s: Tally, stop: Option<End>,
                          left: seq<Byte>, packets: seq<seq<Byte>>, input: seq<Byte>) {
    && input == s.input + s.read && Fair(chk, max, s.offered)
    && (stop.None? ==> Underway(chk, s.start, s.read, s.cuts, left, s.before, packets))
    && (stop.Some? ==> AllCut(chk, s.start, s.read, stop.value, left, s.before, packets))
  }

  lemma TallyStart(chk: Option<seq<Byte> -> int>, max: nat, left: seq<Byte>, packets: seq<seq<Byte>>, input: seq<Byte>)
    ensures Tallied(chk, max, Tally(left, packets, input, [], [], []), None, left, packets, input)
  {
    PartwayStart(chk, left);
    assert left + [] == left && packets + [] == packets && input + [] == input;
  }

  lemma TallyNext(chk: Option<seq<Byte> -> int>, max: nat, s: Tally, left: seq<Byte>, packets: seq<seq<Byte>>, input: seq<Byte>,
                  stop: Option<End>, bytes: seq<Byte>, rooms: seq<nat>, left': seq<Byte>, packets': seq<seq<Byte>>) returns (s': Tally)
    requires Tallied(chk, max, s, None, left, packets, input) && Turned(chk, left, packets, stop, bytes, left', packets') && Fair(chk, max, rooms)
    ensures s'.start == s.start && s'.before == s.before && s'.input == s.input
    ensures Tallied(chk, max, s', stop, left', packets', input + bytes)
  {
    s' := s.(read := s.read + bytes, cuts := s.cuts + CutUp(chk, left).packets, offered := s.offered + rooms);
    TurnedOn(chk, s.start, s.read, s.cuts, s.before, left, packets, stop, bytes, left', packets');
    hide Underway, AllCut, Turned;
    Join3(s.input, s.read, bytes);
  }

  /** What data_f is given: each packet as the post-processing callback leaves it, or not at all. */
  function Given(post: seq<Byte> -> Option<seq<Byte>>, packets: seq<seq<Byte>>): seq<seq<Byte>> {
    if packets == [] then []
    else
      var p := post(packets[|packets| - 1]);
      Given(post, packets[..|packets| - 1]) + if p.Some? then [p.value] else []
  }

  lemma GivenPush(post: seq<Byte> -> Option<seq<Byte>>, packets: seq<seq<Byte>>, p: seq<Byte>)
    ensures Given(post, packets + [p]) == Given(post, packets) + if post(p).Some? then [post(p).value] else []
  {
    assert (packets + [p])[..|packets|] == packets;
  }

  lemma Slices(b: seq<Byte>, d: nat, t: nat, n: nat)
    requires d + n <= t <= |b|
    ensures b[d..t][..n] == b[d..d + n] && b[d..t][n..] == b[d + n..t]
  {
  }

  /** Taking a packet off what is left changes neither the bytes nor what they give. */
  lemma Consumed(post: seq<Byte> -> Option<seq<Byte>>, packets: seq<seq<Byte>>, left: seq<Byte>, n: nat)
    requires n <= |left|
    ensures Concat(packets + [left[..n]]) + left[n..] == Concat(packets) + left
    ensures Given(post, packets + [left[..n]]) == Given(post, packets) + if post(left[..n]).Some? then [post(left[..n]).value] else []
  {
    ConcatPush(packets, left[..n]);
    GivenPush(post, packets, left[..n]);
    hide Concat, Given;
    Join3(Concat(packets), left[..n], left[n..]);
    assert left[..n] + left[n..] == left;
  }

  class Stream {
    const max: nat
    const chk: Option<seq<Byte> -> int>                 // chk_pkt_f
    const post: seq<Byte> -> Option<seq<Byte>>          // post_f, the identity when it is NULL
    const buf: array<Byte>               // r_head
    var data: nat                        // r_data - r_head
    var tail: nat                        // r_tail - r_head
    var over: bool                       // IOFD_READ_RETURN_0
    var given: seq<seq<Byte>>            // what data_f was given
    ghost var packets: seq<seq<Byte>>    // the packets consumed
    ghost var input: seq<Byte>           // what read_f gave

    /** The bytes that were read and not yet consumed. */
    function Left(): seq<Byte>
      reads this, buf
    {
      if data <= tail <= buf.Length then buf[data..tail] else []
    }

    ghost predicate Valid()
      reads this, buf
    {
      && max >= MIN_PACKET && buf.Length == (if chk.Some? then 2 * max else max)
      && data <= tail <= buf.Length
      && Concat(packets) + Left() == input && given == Given(post, packets)
    }

    /** Nothing is left that could be consumed. */
    ghost predicate Drained()
      reads this, buf
    {
      Left() == [] || (chk.Some? && chk.value(Left()) == 0)
    }

    /** Between calls: the end of a stream stays noted, and is behind all packets. */
    ghost predicate Settled()
      reads this, buf
    {
      over ==> chk.Some? && Drained()
    }

    constructor (max: nat, chk: Option<seq<Byte> -> int>, post: seq<Byte> -> Option<seq<Byte>>)
      requires max >= MIN_PACKET
      ensures Valid() && this.max == max && this.chk == chk && this.post == post && packets == [] && input == [] && Left() == [] && !over
    {
      this.max, this.chk, this.post := max, chk, post;
      this.buf := new Byte[if chk.Some? then 2 * max else max];
      this.data, this.tail, this.over, this.given, this.packets, this.input := 0, 0, false, [], [], [];
    }

    /** post_f and data_f, and r_data past the packet. */
    method Deliver(n: nat)
      requires Valid() && n <= tail - data
      modifies this`data, this`given, this`packets
      ensures Valid() && packets == old(packets) + [old(Left())[..n]] && Left() == old(Left())[n..] && data == old(data) + n
    {
      ghost var left, from, to := Left(), data, tail;
      hide Concat, Given;
      Slices(buf[..], from, to, n);
      Consumed(post, packets, left, n);
      var p := buf[data..data + n];
      assert p == left[..n];
      var out := post(p);
      if out.Some? {
        given := given + [out.value];
      }
      packets := packets + [p];
      data := data + n;
      assert buf[from + n..to] == left[n..];
    }

    /** The inner loop, when the last read gave something: the packets are exactly those the checker cuts. */
    method Drain() returns (ok: bool)
      requires Valid()
      modifies this`data, this`given, this`packets
      ensures Valid() && tail == old(tail)
      ensures var cut := CutUp(chk, old(Left())); packets == old(packets) + cut.packets && Left() == cut.rest && ok == cut.ok
      ensures ok ==> Drained()
    {
      ghost var before, left := packets, Left();
      ghost var done: seq<seq<Byte>> := [];
      PartwayStart(chk, left);
      Regroup(before, [], []);
      hide Partway, CutUp, Concat, Given;
      var err := Checked();
      while 0 < err <= tail - data
        invariant Valid() && tail == old(tail) && packets == before + done && Partway(chk, left, done, Left()) && err == Verdict()
        decreases tail - data
      {
        ghost var b := Left();
        PartwayStep(chk, left, done, b, err);
        Deliver(err);
        Regroup(before, done, [b[..err]]);
        done := done + [b[..err]];
        err := Checked();
      }
      PartwayEnd(chk, left, done, Left());
      ok := err == 0;
    }

    /** The length of the next packet: all of it, or what the checker says; 0 for none. */
    ghost function Verdict(): int
      reads this, buf
    {
      if Left() == [] then 0 else if chk.Some? then chk.value(Left()) else |Left()|
    }

    method Checked() returns (err: int)
      requires Valid()
      ensures err == Verdict()
    {
      err := tail - data;
      if chk.Some? && err > 0 {
        err := chk.value(buf[data..tail]);
      }
    }

    /** __iofd_better_move_buffer */
    function BetterMove(): bool
      reads this
      requires chk.Some? ==> tail <= 2 * max && data <= tail
    {
      || chk.None?
      || 2 * max - tail < MIN_SYSCALL
      || (data > max && tail - data < MIN_SYSCALL)
      || (tail - data <= LIGHT_COPY && data >= max / 2)
    }

    /** The memmove to the start of the buffer. */
    method MoveDown()
      requires Valid()
      modifies this`data, this`tail, buf
      ensures Valid() && data == 0 && Left() == old(Left())
    {
      ghost var left := Left();
      var len := tail - data;
      var i := 0;
      while i < len
        invariant 0 <= i <= len && data + len == tail <= buf.Length
        invariant buf[..i] == left[..i]
        invariant buf[data + i..tail] == left[i..]
      {
        assert buf[data + i] == buf[data + i..tail][0] == left[i];
        ghost var rest := buf[data + i + 1..tail];
        assert rest == left[i + 1..];
        buf[i] := buf[data + i];
        assert buf[..i + 1] == left[..i] + [left[i]];
        assert buf[data + i + 1..tail] == rest;
        i := i + 1;
      }
      assert buf[..len] == left[..len] == left;
      data, tail := 0, len;
    }

    /** Before each read: the buffer is moved if that is better; then there is room for a fair read. */
    method MakeRoom() returns (room: nat)
      requires Valid() && Drained()
      modifies this`data, this`tail, buf
      ensures Valid() && Left() == old(Left()) && room == buf.Length - tail
      ensures chk.None? || Decides(chk.value, max) ==> room >= MIN_SYSCALL
    {
      if BetterMove() {
        MoveDown();
      }
      room := buf.Length - tail;
      assert chk.Some? && Decides(chk.value, max) ==> |Left()| < max;
    }

    /** All packets there are, and then room for the next read. */
    method Prepare() returns (ok: bool, room: nat)
      requires Valid()
      modifies this`data, this`tail, this`given, this`packets, buf
      ensures Valid() && (ok ==> Drained() && room == buf.Length - tail)
      ensures var cut := CutUp(chk, old(Left())); packets == old(packets) + cut.packets && Left() == cut.rest && ok == cut.ok
      ensures ok && (chk.None? || Decides(chk.value, max)) ==> room >= MIN_SYSCALL
    {
      hide CutUp, Concat, Given;
      ok := Drain();
      room := 0;
      if ok {
        room := MakeRoom();
      }
    }

    /** read_f wrote `bytes` behind r_tail. */
    method Take(bytes: seq<Byte>)
      requires Valid() && |bytes| <= buf.Length - tail
      modifies this`tail, this`input, buf
      ensures Valid() && Left() == old(Left()) + bytes && input == old(input) + bytes
    {
      ghost var left := Left();
      hide Concat, Given;
      Join3(Concat(packets), left, bytes);
      var i := 0;
      while i < |bytes|
        invariant 0 <= i <= |bytes| && data <= tail && tail + |bytes| <= buf.Length && tail == old(tail) && input == old(input)
        invariant buf[data..tail] == left && buf[tail..tail + i] == bytes[..i]
      {
        buf[tail + i] := bytes[i];
        i := i + 1;
      }
      assert buf[data..tail + |bytes|] == buf[data..tail] + buf[tail..tail + |bytes|];
      assert bytes[..|bytes|] == bytes;
      tail := tail + |bytes|;
      input := input + bytes;
    }

    /** One turn of the outer loop: all packets there are, then one read. */
    method Round(os: (nat, nat) -> Answer, k: nat) returns (end: Option<End>, ghost bytes: seq<Byte>, ghost rooms: seq<nat>)
      requires Valid() && !over
      requires Obeys(os)
      modifies this`data, this`tail, this`over, this`given, this`packets, this`input, buf
      ensures Valid() && input == old(input) + bytes
      ensures Turned(chk, old(Left()), old(packets), end, bytes, Left(), packets)
      ensures Fair(chk, max, rooms) && (end.None? ==> !EndsAt(os, k)) && over == (end == Some(Finished))
      ensures end.Some? ==> (end.value != Failed ==> Drained()) && (end.value == Finished ==> chk.Some?)
    {
      hide CutUp, Concat, Given;
      var ok, room := Prepare();
      rooms := [];
      Regroup(packets, [], []);
      assert Left() + [] == Left();
      if !ok {
        return Some(Failed), [], rooms;
      }
      rooms := [room];
      match os(k, room) {
        case Read(x) =>
          Take(x);
          return None, x, rooms;
        case ReadNone =>
          over := true;
          Deliver(0);
          if chk.None? {
            over := false;
            return None, [], rooms;
          }
          return Some(Finished), [], rooms;
        case Again => return Some(Starved), [], rooms;
        case Error => return Some(Failed), [], rooms;
      }
    }

    /**
     __iofd_read_data, for callbacks that leave the descriptor open.  `os(k, room)` is
     what the k-th read_f answers when it is offered `room` bytes.  For a stable
     checker the packets are those of all bytes at once, so they do not depend on how
     the reads split them; the end of the stream is one empty packet more, and so is
     every later call, which does not read.
     */
    method ReadData(os: (nat, nat) -> Answer, most: nat) returns (end: End, ghost s: Tally)
      requires Valid() && Settled() && Obeys(os) && EndsAt(os, most)
      modifies this`data, this`tail, this`over, this`given, this`packets, this`input, buf
      ensures Valid() && Settled() && (!end.Failed? ==> Drained()) && (end.Finished? ==> chk.Some?)
      ensures over == end.Finished? && (old(over) ==> end.Finished? && s.read == [] && s.offered == [])
      ensures s.start == old(Left()) && s.before == old(packets) && s.input == old(input)
      ensures input == old(input) + s.read && Fair(chk, max, s.offered)
      ensures AllCut(chk, old(Left()), s.read, end, Left(), old(packets), packets)
    {
      if over {
        end, s := Repeat();
      } else {
        end, s := ReadOn(os, most);
      }
    }

    /** The first turn of the inner loop with the flag still set. */
    method Repeat() returns (end: End, ghost s: Tally)
      requires Valid() && Settled() && over
      modifies this`data, this`given, this`packets
      ensures Valid() && Drained() && end == Finished && s == Tally(old(Left()), old(packets), input, [], [], [])
      ensures input == input + s.read && Fair(chk, max, s.offered)
      ensures AllCut(chk, old(Left()), [], end, Left(), old(packets), packets)
    {
      end, s := Finished, Tally(Left(), packets, input, [], [], []);
      OnceMore(chk, Left(), packets);
      assert input + [] == input;
      hide CutUp, Concat, Given, AllCut;
      var err := Checked();
      Deliver(err);
    }

    method ReadOn(os: (nat, nat) -> Answer, most: nat) returns (end: End, ghost s: Tally)
      requires Valid() && !over && Obeys(os) && EndsAt(os, most)
      modifies this`data, this`tail, this`over, this`given, this`packets, this`input, buf
      ensures Valid() && (!end.Failed? ==> Drained()) && (end.Finished? ==> chk.Some?) && over == end.Finished?
      ensures s.start == old(Left()) && s.before == old(packets) && s.input == old(input)
      ensures input == old(input) + s.read && Fair(chk, max, s.offered)
      ensures AllCut(chk, old(Left()), s.read, end, Left(), old(packets), packets)
    {
      s := Tally(Left(), packets, input, [], [], []);
      TallyStart(chk, max, Left(), packets, input);
      hide Tallied, AllCut, Turned, Fair, Valid, Left, Drained, Obeys, EndsAt;
      var k: nat, stop: Option<End> := 0, None;
      while stop.None?
        invariant Valid() && Tallied(chk, max, s, stop, Left(), packets, input) && (stop.None? ==> k <= most) && over == (stop == Some(Finished))
        invariant s.start == old(Left()) && s.before == old(packets) && s.input == old(input)
        invariant stop.Some? ==> (stop.value != Failed ==> Drained()) && (stop.value == Finished ==> chk.Some?)
        decreases if stop.None? then most - k + 1 else 0
      {
        ghost var left, seen, was, bytes, rooms := Left(), packets, input, [], [];
        stop, bytes, rooms := Round(os, k);
        s := TallyNext(chk, max, s, left, seen, was, stop, bytes, rooms, Left(), packets);
        k := k + 1;
      }
      end := stop.value;
      TallyEnd(chk, max, s, end, Left(), packets, input);
    }
  }

  /** With nothing to consume there is nothing to cut, and the end is reported again. */
  lemma OnceMore(chk: Option<seq<Byte> -> int>, b: seq<Byte>, packets: seq<seq<Byte>>)
    requires b == [] || (chk.Some? && chk.value(b) == 0)
    ensures AllCut(chk, b, [], Finished, b[0..], packets, packets + [b[..0]])
  {
    assert b + [] == b && b[0..] == b && b[..0] == [];
    assert CutUp(chk, b) == Cut([], b, true);
    Regroup(packets, [], [[]]);
  }

  lemma TallyEnd(chk: Option<seq<Byte> -> int>, max: nat, s: Tally, end: End, left: seq<Byte>, packets: seq<seq<Byte>>, input: seq<Byte>)
    requires Tallied(chk, max, s, Some(end), left, packets, input)
    ensures input == s.input + s.read && Fair(chk, max, s.offered) && AllCut(chk, s.start, s.read, end, left, s.before, packets)
  {
  }

  /** Under a checker that decides in time every read is offered at least MIN_SYSCALL_SIZE bytes. */
  ghost predicate Fair(chk: Option<seq<Byte> -> int>, max: nat, offered: seq<nat>) {
    chk.None? || Decides(chk.value, max) ==> forall i :: 0 <= i < |offered| ==> offered[i] >= MIN_SYSCALL
  }

  // ---- Writing ----------------------------------------------------------------------------------

  const MAX_WBUF: nat := 131072        // FD_MAX_WBUF_SIZE

  /** w_buffer_t: the bytes after it, and how many of them are written (w_data). */
  datatype Node = Node(bytes: seq<Byte>, done: nat)

  predicate NodeOk(n: Node) {
    n.done <= |n.bytes|
  }

  predicate QueueOk(q: seq<Node>) {
    forall n :: n in q ==> NodeOk(n)
  }

  function Remainders(q: seq<Node>): seq<Byte>
    requires QueueOk(q)
  {
    if q == [] then [] else assert q[0] in q; q[0].bytes[q[0].done..] + Remainders(q[1..])
  }

  function Sizes(q: seq<Node>): nat {
    if q == [] then 0 else |q[0].bytes| + Sizes(q[1..])
  }

  lemma {:induction false} QueuePush(q: seq<Node>, n: Node)
    requires QueueOk(q) && NodeOk(n)
    ensures QueueOk(q + [n]) && Remainders(q + [n]) == Remainders(q) + n.bytes[n.done..] && Sizes(q + [n]) == Sizes(q) + |n.bytes|
  {
    if q == [] {
      assert q + [n] == [n];
      assert Remainders([n]) == n.bytes[n.done..] + Remainders([n][1..]);
    } else {
      assert (q + [n])[1..] == q[1..] + [n];
      QueuePush(q[1..], n);
    }
  }

  datatype Status = Accepted | TooBig | Later | NoMemory | OsError

  class Writer {
    var queue: seq<Node>                 // w_q
    var total: nat                       // w_q.total_len
    var notReady: bool                   // IOFD_NOT_READY
    ghost var accepted: seq<Byte>        // the bytes of all writes that were accepted
    ghost var taken: seq<Byte>           // the bytes the OS took

    /** total_len is the sum of the node sizes and within bounds. */
    ghost predicate Sized()
      reads this
    {
      QueueOk(queue) && total == Sizes(queue) && total <= MAX_WBUF
    }

    /** Nothing is lost, doubled or reordered. */
    ghost predicate Intact()
      reads this
      requires Sized()
    {
      accepted == taken + Remainders(queue)
    }

    constructor ()
      ensures Sized() && Intact() && queue == [] && total == 0 && !notReady && accepted == [] && taken == []
    {
      queue, total, notReady, accepted, taken := [], 0, false, [], [];
    }

    /** w_queue_space */
    function Space(): nat
      reads this
    {
      if total < MAX_WBUF then MAX_WBUF - total else 0
    }

    /** w_queue_add */
    method Add(bytes: seq<Byte>)
      requires Sized() && |bytes| <= Space()
      modifies this`queue, this`total
      ensures Sized() && Remainders(queue) == old(Remainders(queue)) + bytes
    {
      var n := Node(bytes, 0);
      QueuePush(queue, n);
      assert bytes[0..] == bytes;
      queue := queue + [n];
      total := total + |bytes|;
    }

    /**
     ____write; `os` is how many bytes aosl_hal_sk_write takes, or an error, and
     `memory` whether a node can be had.  Only a write that is refused for want of
     memory after the OS took a part of it breaks the stream.
     */
    method Write(buf: seq<Byte>, os: int, memory: bool) returns (r: Status)
      requires Sized() && Intact() && os <= |buf|
      modifies this
      ensures Sized() && accepted == old(accepted) + (if r.Accepted? then buf else [])
      ensures r.Accepted? <==> (
        && |buf| <= MAX_WBUF && |buf| <= old(Space())
        && if old(queue) != [] || old(notReady) then memory else os > 0 && (os == |buf| || memory))
      ensures r.NoMemory? <==> |buf| <= old(Space()) && !memory && (old(queue) != [] || old(notReady) || 0 < os < |buf|)
      ensures taken == old(taken) + if |buf| <= old(Space()) && old(queue) == [] && !old(notReady) && os > 0 then buf[..os] else []
      ensures Intact() <==> !(|buf| <= old(Space()) && old(queue) == [] && !old(notReady) && 0 < os < |buf| && !memory)
    {
      assert taken + [] == taken;
      if |buf| > MAX_WBUF {
        return TooBig;
      }
      if Space() < |buf| {
        return Later;
      }
      if queue != [] || notReady {
        r := Enqueue(buf, 0, memory);
        return;
      }
      if os <= 0 {
        return OsError;
      }
      taken := taken + buf[..os];
      if os < |buf| {
        r := Enqueue(buf, os, memory);
        return;
      }
      assert buf[..os] == buf;
      accepted := accepted + buf;
      return Accepted;
    }

    /** From __queue_it on: the OS has taken the first `n` bytes. */
    method Enqueue(buf: seq<Byte>, n: nat, memory: bool) returns (r: Status)
      requires Sized() && n <= |buf| && |buf| <= Space() && accepted + buf[..n] == taken + Remainders(queue)
      requires n > 0 ==> queue == []
      modifies this`queue, this`total, this`accepted
      ensures Sized() && r == (if memory then Accepted else NoMemory) && accepted == old(accepted) + (if memory then buf else [])
      ensures Intact() <==> memory || n == 0
    {
      if !memory {
        assert accepted + buf[..n] == taken + Remainders(queue);
        assert n > 0 ==> |accepted| < |taken + Remainders(queue)|;
        return NoMemory;
      }
      ghost var rest := Remainders(queue);
      Add(buf[n..]);
      assert buf[..n] + buf[n..] == buf;
      assert taken + (rest + buf[n..]) == (taken + rest) + buf[n..] == accepted + buf[..n] + buf[n..];
      accepted := accepted + buf;
      return Accepted;
    }

    /** w_queue_remove_head */
    method RemoveHead()
      requires Sized() && queue != [] && queue[0].done == |queue[0].bytes|
      modifies this`queue, this`total
      ensures Sized() && Remainders(queue) == old(Remainders(queue)) && queue == old(queue)[1..]
    {
      assert queue[0].bytes[queue[0].done..] == [];
      total := total - |queue[0].bytes|;
      queue := queue[1..];
    }

    /** One write_f for the head of the queue took `n` bytes. */
    method Advance(n: nat)
      requires Sized() && Intact() && queue != [] && n <= |queue[0].bytes| - queue[0].done
      modifies this`queue, this`taken
      ensures Sized() && Intact() && |queue| == |old(queue)| && taken == old(taken) + old(queue[0].bytes[queue[0].done..])[..n]
      ensures queue[0] == old(queue[0]).(done := old(queue[0].done) + n)
    {
      var head := queue[0];
      ghost var left := head.bytes[head.done..];
      var next := head.(done := head.done + n);
      taken := taken + left[..n];
      queue := queue[0 := next];
      assert queue[1..] == old(queue)[1..];
      assert left == left[..n] + next.bytes[next.done..];
    }

    /** __iofd_write_data; `os(k, len)` is what the k-th write_f takes of `len` bytes, or an error. */
    method WriteData(os: (nat, nat) -> int)
      requires Sized() && Intact() && forall k, len :: os(k, len) <= len
      modifies this
      ensures Sized() && Intact() && accepted == old(accepted) && !notReady && old(taken) <= taken && |queue| <= |old(queue)|
    {
      notReady := false;
      var k: nat := 0;
      while queue != []
        invariant Sized() && Intact() && accepted == old(accepted) && !notReady && old(taken) <= taken && |queue| <= |old(queue)|
        decreases |queue|
      {
        assert queue[0] in queue;
        var len := |queue[0].bytes| - queue[0].done;
        var err := os(k, len);
        if err < 0 {
          return;
        }
        Advance(err);
        if queue[0].done < |queue[0].bytes| {
          return;
        }
        RemoveHead();
        k := k + 1;
      }
    }
  }

  /** A write that fails although its first byte is on its way. */
  method BrokenStream() returns (w: Writer, r: Status)
    ensures fresh(w) && w.Sized() && !w.Intact() && r == NoMemory && w.accepted == [] && w.taken == [1]
  {
    w := new Writer();
    r := w.Write([1, 2], 1, false);
  }
}

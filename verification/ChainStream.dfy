/**
 What a reader meets in a chain of packet buffers: bytes, and pieces that turn out to
 be empty.  Copying steps over an empty piece; the scan for the end of a string takes
 the byte behind its start for one of the string.
 */
module ChainStream {
  import opened Common
  import opened Marshal

  /** A byte of the chain, or an empty piece with what its memory happens to hold. */
  datatype Cell = Here(b: Byte) | Gap(b: Byte)

  type Stream = seq<Cell>

  /** The bytes of the chain. */
  function Real(st: Stream): seq<Byte> {
    if st == [] then [] else if st[0].Gap? then Real(st[1..]) else [st[0].b] + Real(st[1..])
  }

  /** What the scan for a NUL sees. */
  function Seen(st: Stream): seq<Byte> {
    if st == [] then [] else [st[0].b] + Seen(st[1..])
  }

  /** Behind `n` more bytes: empty pieces are left behind only for a byte beyond them. */
  function Drop(st: Stream, n: nat): (r: Stream)
    ensures n <= |Real(st)| ==> Real(r) == Real(st)[n..]
    ensures |Real(r)| <= |Real(st)|
  {
    if n == 0 || st == [] then st else if st[0].Gap? then Drop(st[1..], n) else Drop(st[1..], n - 1)
  }

  function Smooth(b: seq<Byte>): Stream {
    if b == [] then [] else [Here(b[0])] + Smooth(b[1..])
  }

  lemma {:induction false} RealAppend(a: Stream, b: Stream)
    ensures Real(a + b) == Real(a) + Real(b) && Seen(a + b) == Seen(a) + Seen(b)
  {
    if a == [] {
      assert a + b == b;
    } else {
      assert (a + b)[1..] == a[1..] + b;
      RealAppend(a[1..], b);
    }
  }

  lemma {:induction false} SmoothFacts(b: seq<Byte>)
    ensures Real(Smooth(b)) == b && Seen(Smooth(b)) == b
  {
    if b != [] {
      SmoothFacts(b[1..]);
      assert Smooth(b)[1..] == Smooth(b[1..]);
    }
  }

  lemma {:induction false} DropDrop(st: Stream, a: nat, b: nat)
    ensures Drop(Drop(st, a), b) == Drop(st, a + b)
  {
    if a != 0 && st != [] {
      if st[0].Gap? {
        DropDrop(st[1..], a, b);
      } else {
        DropDrop(st[1..], a - 1, b);
      }
    }
  }

  lemma {:induction false} DropSmooth(b: seq<Byte>, n: nat, more: Stream)
    requires n <= |b|
    ensures Drop(Smooth(b) + more, n) == Smooth(b[n..]) + more
  {
    if n > 0 {
      assert (Smooth(b) + more)[1..] == Smooth(b[1..]) + more;
      DropSmooth(b[1..], n - 1, more);
      assert b[1..][n - 1..] == b[n..];
    }
  }

  // ---- Reading a stream -------------------------------------------------------------------------

  datatype Parsed = Bad | Good(value: Value, rest: Stream)
  datatype ParsedMany = BadMany | GoodMany(values: seq<Value>, rest: Stream)

  /** What copying `n` bytes gives. */
  function Copy(st: Stream, n: nat): Parsed {
    if |Real(st)| < n then Bad else Good(Data(Real(st)[..n]), Drop(st, n))
  }

  /** What a scanned string gives. */
  function CopyText(st: Stream, size: nat): Parsed {
    if size == 0 || |Real(st)| < Short(size) then Bad else Good(Text(Real(st)[..Short(size)]), Drop(st, Short(size)))
  }

  function AsOne(r: ParsedMany): Parsed {
    match r
    case BadMany => Bad
    case GoodMany(vs, rest) => Good(Many(vs), rest)
  }

  /** _____unmarshal, on what it meets. */
  function Parse(env: Env, o: Order, t: Type, st: Stream): (r: Parsed)
    ensures r.Good? ==> |Real(r.rest)| <= |Real(st)|
    decreases |Real(st)|, TypeSize(t), 0
  {
    var b := Real(st);
    match t
    case Void => Good(Empty, st)
    case Number(w) => if |b| < w then Bad else Good(Num(GetNum(o, b[..w])), Drop(st, w))
    case Address(w) => Copy(st, w)
    case Pointer(c) =>
      if b == [] then Bad
      else if b[0] == 0 then Good(Null, Drop(st, 1))
      else if c !in env then Bad
      else
        var r := Parse(env, o, env[c], Drop(st, 1));
        if r.Bad? then Bad else Good(To(r.value), r.rest)
    case Reference(c) => Parse(env, o, c, st)
    case Str =>
      if b == [] then Bad
      else if b[0] == 0 then Good(Null, Drop(st, 1))
      else CopyText(Drop(st, 1), StrSize(Seen(Drop(st, 1))))
    case Struct(fs) => AsOne(ParseFields(env, o, fs, st))
    case FixedBytes(n) => Copy(st, n)
    case VarBytes(max) =>
      if |b| < 2 || GetNum(o, b[..2]) > max then Bad else Copy(Drop(st, 2), GetNum(o, b[..2]))
    case NilBytes(max) => if Short(StrSize(Seen(st))) > max then Bad else CopyText(st, StrSize(Seen(st)))
    case DynBytes => if |b| < 2 then Bad else Copy(Drop(st, 2), GetNum(o, b[..2]))
    case FixedArray(n, c) => AsOne(ParseMany(env, o, c, n, st))
    case VarArray(max, c) =>
      if |b| < 2 || GetNum(o, b[..2]) > max then Bad else AsOne(ParseMany(env, o, c, GetNum(o, b[..2]), Drop(st, 2)))
    case DynArray(c) =>
      if |b| < 2 then Bad
      else if GetNum(o, b[..2]) == 0 then Good(Many([]), Drop(st, 2))
      else if c !in env then Bad
      else AsOne(ParseMany(env, o, env[c], GetNum(o, b[..2]), Drop(st, 2)))
  }

  function ParseMany(env: Env, o: Order, t: Type, n: nat, st: Stream): (r: ParsedMany)
    ensures r.GoodMany? ==> |Real(r.rest)| <= |Real(st)| && |r.values| == n
    decreases |Real(st)|, TypeSize(t), n + 1
  {
    if n == 0 then GoodMany([], st)
    else
      var first := Parse(env, o, t, st);
      if first.Bad? then BadMany
      else
        var more := ParseMany(env, o, t, n - 1, first.rest);
        if more.BadMany? then BadMany else GoodMany([first.value] + more.values, more.rest)
  }

  function ParseFields(env: Env, o: Order, ts: seq<Type>, st: Stream): (r: ParsedMany)
    ensures r.GoodMany? ==> |Real(r.rest)| <= |Real(st)|
    decreases |Real(st)|, TypesSize(ts), 0
  {
    if EndOf(ts) then GoodMany([], st)
    else
      var first := Parse(env, o, ts[0], st);
      if first.Bad? then BadMany
      else
        var more := ParseFields(env, o, ts[1..], first.rest);
        if more.BadMany? then BadMany else GoodMany([first.value] + more.values, more.rest)
  }

  // ---- Where empty pieces lie, and where strings do -----------------------------------------------

  /** How many bytes lie before each empty piece, counting from `at`. */
  function Places(st: Stream, at: nat): set<nat> {
    if st == [] then {} else if st[0].Gap? then {at} + Places(st[1..], at) else Places(st[1..], at + 1)
  }

  /** For the encoding of `v` at offset `at`: an empty piece with `p` bytes before it lies between the byte before a string and its NUL. */
  predicate InText(env: Env, o: Order, t: Type, v: Value, at: nat, p: nat)
    requires HasType(env, t, v)
    decreases ValueSize(v), TypeSize(t)
  {
    match t
    case Pointer(c) => v.To? && InText(env, o, env[c], v.target, at + 1, p)
    case Reference(c) => InText(env, o, c, v, at, p)
    case Str => v.Text? && at + 1 <= p < at + 1 + |v.buf|
    case NilBytes(_) => at <= p < at + |v.buf|
    case Struct(fs) => InFields(env, o, fs, v.items, at, p)
    case FixedArray(_, c) => InAll(env, o, c, v.items, at, p)
    case VarArray(_, c) => InAll(env, o, c, v.items, at + 2, p)
    case DynArray(c) => InAll(env, o, env[c], v.items, at + 2, p)
    case _ => false
  }

  predicate InAll(env: Env, o: Order, t: Type, vs: seq<Value>, at: nat, p: nat)
    requires AllHaveType(env, t, vs)
    decreases ValuesSize(vs), TypeSize(t)
  {
    vs != [] && (InText(env, o, t, vs[0], at, p) || InAll(env, o, t, vs[1..], at + |Encode(env, o, t, vs[0])|, p))
  }

  predicate InFields(env: Env, o: Order, ts: seq<Type>, vs: seq<Value>, at: nat, p: nat)
    requires HaveTypes(env, ts, vs)
    decreases ValuesSize(vs), TypesSize(ts)
  {
    !EndOf(ts) && (InText(env, o, ts[0], vs[0], at, p) || InFields(env, o, ts[1..], vs[1..], at + |Encode(env, o, ts[0], vs[0])|, p))
  }

  ghost predicate Untorn(env: Env, o: Order, t: Type, v: Value, st: Stream, at: nat)
    requires HasType(env, t, v)
  {
    forall p :: p in Places(st, at) ==> !InText(env, o, t, v, at, p)
  }

  lemma {:induction false} PlacesDrop(st: Stream, n: nat, at: nat, p: nat)
    requires n <= |Real(st)|
    ensures p in Places(Drop(st, n), at + n) <==> p in Places(st, at) && p >= at + n
    ensures p in Places(st, at) ==> p >= at
  {
    if st != [] {
      if st[0].Gap? {
        PlacesDrop(st[1..], n, at, p);
      } else if n == 0 {
        PlacesDrop(st[1..], 0, at + 1, p);
      } else {
        PlacesDrop(st[1..], n - 1, at + 1, p);
      }
    }
  }

  /** The same bytes and the same empty pieces, with anything in the memory of those. */
  ghost predicate Respared(a: Stream, b: Stream) {
    |a| == |b| && forall i :: 0 <= i < |a| ==> (if a[i].Gap? then b[i].Gap? else b[i] == a[i])
  }

  lemma {:induction false} ResparedSame(a: Stream, b: Stream, at: nat)
    requires Respared(a, b)
    ensures Real(a) == Real(b) && Places(a, at) == Places(b, at)
  {
    if a != [] {
      ResparedSame(a[1..], b[1..], if a[0].Gap? then at else at + 1);
    }
  }

  /** What lies behind `n` bytes can be changed alone. */
  lemma {:induction false} Graft(st: Stream, n: nat, tail: Stream) returns (st': Stream)
    requires n <= |Real(st)| && Respared(Drop(st, n), tail)
    ensures Respared(st, st') && Drop(st', n) == tail
  {
    if n == 0 || st == [] {
      st' := tail;
    } else {
      var more := Graft(st[1..], if st[0].Gap? then n else n - 1, tail);
      st' := [st[0]] + more;
      assert st'[1..] == more;
      forall i | 0 <= i < |st| ensures if st[i].Gap? then st'[i].Gap? else st'[i] == st[i] {
        assert i > 0 ==> st[i] == st[1..][i - 1];
      }
    }
  }

  // ---- Strings without an empty piece in them --------------------------------------------------------

  /** With no empty piece among the first `n` bytes, the scan sees them as they are. */
  lemma {:induction false} SeenAsIs(st: Stream, n: nat, at: nat)
    requires n <= |Real(st)| && forall p :: p in Places(st, at) ==> p >= at + n
    ensures n <= |Seen(st)| && Seen(st)[..n] == Real(st)[..n]
  {
    if n > 0 {
      assert st[0].Here? by { assert st[0].Gap? ==> at in Places(st, at); }
      SeenAsIs(st[1..], n - 1, at + 1);
      assert Seen(st)[..n] == [st[0].b] + Seen(st[1..])[..n - 1];
      assert Real(st)[..n] == [st[0].b] + Real(st[1..])[..n - 1];
    }
  }

  lemma TextAsIs(st: Stream, buf: seq<Byte>, at: nat)
    requires IsCString(buf) && buf <= Real(st) && forall p :: p in Places(st, at) ==> p >= at + |buf|
    ensures StrSize(Seen(st)) == |buf|
  {
    SeenAsIs(st, |buf|, at);
    hide Seen, Real, Places;
    assert Seen(st) == buf + Seen(st)[|buf|..];
    StrSizeOf(buf, Seen(st)[|buf|..]);
  }

  /** All bytes before the first empty piece. */
  lemma {:induction false} FirstGap(st: Stream, at: nat, p: nat) returns (k: nat)
    requires p in Places(st, at)
    ensures k < |st| && st[k].Gap? && at + k <= p && k <= |Real(st)|
    ensures Seen(st[..k]) == Real(st)[..k] && Real(st[k + 1..]) == Real(st)[k..]
  {
    if st[0].Gap? {
      k := 0;
      PlacesDrop(st[1..], 0, at, p);
    } else {
      k := FirstGap(st[1..], at + 1, p);
      assert st[..k + 1][1..] == st[1..][..k];
      assert st[k + 2..] == st[1..][k + 1..];
      k := k + 1;
    }
  }

  /** Every empty piece holds a NUL. */
  function Nilled(st: Stream): Stream {
    if st == [] then [] else [if st[0].Gap? then Gap(0) else st[0]] + Nilled(st[1..])
  }

  lemma {:induction false} NilledFacts(st: Stream)
    ensures Respared(st, Nilled(st)) && Real(Nilled(st)) == Real(st)
    ensures Real(st) != [] && Real(st)[0] == 0 ==> Seen(Nilled(st)) != [] && Seen(Nilled(st))[0] == 0
  {
    if st != [] {
      NilledFacts(st[1..]);
      forall i | 0 <= i < |st| ensures if st[i].Gap? then Nilled(st)[i].Gap? else Nilled(st)[i] == st[i] {
        assert i > 0 ==> st[i] == st[1..][i - 1];
      }
    }
  }

  /** `b` in the empty piece at `k`, and NUL in those behind it. */
  function Painted(st: Stream, k: nat, b: Byte): Stream
    requires k < |st|
  {
    st[..k] + [Gap(b)] + Nilled(st[k + 1..])
  }

  lemma PaintedFacts(st: Stream, k: nat, b: Byte)
    requires k < |st| && st[k].Gap?
    ensures Respared(st, Painted(st, k, b))
    ensures Seen(Painted(st, k, b)) == Seen(st[..k]) + [b] + Seen(Nilled(st[k + 1..]))
  {
    NilledFacts(st[k + 1..]);
    RealAppend(st[..k] + [Gap(b)], Nilled(st[k + 1..]));
    RealAppend(st[..k], [Gap(b)]);
    assert Seen([Gap(b)]) == [b];
    hide Seen, Nilled, Real;
  }

  predicate NoNil(s: seq<Byte>) {
    forall i :: 0 <= i < |s| ==> s[i] != 0
  }

  lemma NilFound(scanned: seq<Byte>, after: seq<Byte>)
    requires NoNil(scanned) && after != [] && after[0] == 0
    ensures StrSize(scanned + after) == |scanned| + 1
  {
    hide StrSize;
    var s := scanned + [0];
    assert IsCString(s);
    assert after == [0] + after[1..];
    Regrouped(scanned, [0], after[1..]);
    StrSizeOf(s, after[1..]);
  }

  lemma NilAfter(a: seq<Byte>, b: Byte, c: seq<Byte>)
    requires NoNil(a) && (b == 0 || (c != [] && c[0] == 0))
    ensures StrSize(a + [b] + c) == if b == 0 then |a| + 1 else |a| + 2
  {
    hide StrSize;
    if b == 0 {
      Regrouped(a, [b], c);
      NilFound(a, [b] + c);
    } else {
      NilFound(a + [b], c);
    }
  }

  lemma Regrouped(a: seq<Byte>, b: seq<Byte>, c: seq<Byte>)
    ensures a + b + c == a + (b + c)
  {
  }

  /** With an empty piece before the NUL, some content of its memory makes the scan wrong. */
  lemma TextMisled(st: Stream, buf: seq<Byte>, at: nat, p: nat) returns (st': Stream)
    requires IsCString(buf) && buf <= Real(st) && p in Places(st, at) && p < at + |buf|
    ensures Respared(st, st') && StrSize(Seen(st')) != |buf|
    ensures |buf| < 65536 ==> Short(StrSize(Seen(st'))) != |buf|
  {
    var k := FirstGap(st, at, p);
    var b: Byte := if k + 1 < |buf| then 0 else 1;
    st' := Painted(st, k, b);
    PaintedFacts(st, k, b);
    NilledFacts(st[k + 1..]);
    hide Seen, Real, Places, Nilled, Painted, StrSize;
    var seen := Seen(st[..k]);
    assert seen == buf[..k];
    assert NoNil(seen);
    if b == 1 {
      assert Real(st[k + 1..])[0] == Real(st)[k] == buf[k] == 0;
    }
    NilAfter(seen, b, Seen(Nilled(st[k + 1..])));
  }

  /** The scan finds the end of a string whatever spare memory holds exactly if no empty piece comes before the NUL. */
  lemma ScanExact(st: Stream, at: nat)
    requires StrSize(Real(st)) > 0
    ensures (forall other :: Respared(st, other) ==> StrSize(Seen(other)) == StrSize(Real(st)))
            <==> (forall p :: p in Places(st, at) ==> p >= at + StrSize(Real(st)))
  {
    var n := StrSize(Real(st));
    FirstString(Real(st));
    var buf := Real(st)[..n];
    if forall p :: p in Places(st, at) ==> p >= at + n {
      forall other | Respared(st, other) ensures StrSize(Seen(other)) == n {
        ResparedSame(st, other, at);
        TextAsIs(other, buf, at);
      }
    } else {
      var p :| p in Places(st, at) && p < at + n;
      var other := TextMisled(st, buf, at, p);
      assert Respared(st, other);
    }
  }

  lemma {:induction false} FirstString(b: seq<Byte>)
    requires StrSize(b) > 0
    ensures IsCString(b[..StrSize(b)])
  {
    if b[0] != 0 {
      FirstString(b[1..]);
      assert forall i :: 0 < i < StrSize(b) ==> b[..StrSize(b)][i] == b[1..][..StrSize(b) - 1][i - 1];
    }
  }
}

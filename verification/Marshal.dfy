/**
 The type-directed codec of lib/marshalling.c on flat byte strings.  A descriptor
 tells how a value is laid out; pointers and dynamic arrays name their child
 descriptor, so that descriptors may refer to themselves.
 */
module Marshal {
  import opened Common

  type Name = string

  datatype Type =
    | Void
    | Number(width: nat)                 // INT8 to INT64, FLOAT, DOUBLE: byte order as `Order` says
    | Address(width: nat)                // V4_IPADDR, V6_IPADDR: stored as they are
    | Pointer(child: Name)
    | Reference(target: Type)
    | Str
    | Struct(fields: seq<Type>)
    | FixedBytes(size: nat)
    | VarBytes(max: nat)
    | NilBytes(max: nat)                 // BYTES_WITH_NIL
    | DynBytes                           // and DYNAMIC_STRING
    | FixedArray(size: nat, elem: Type)
    | VarArray(max: nat, elem: Type)
    | DynArray(child: Name)

  /** `Text` is a C string with its NUL; variable arrays carry their count. */
  datatype Value =
    | Empty
    | Num(n: nat)
    | Data(bytes: seq<Byte>)
    | Null
    | To(target: Value)
    | Text(buf: seq<Byte>)
    | Many(items: seq<Value>)            // the members of a struct, or the elements of an array

  type Env = map<Name, Type>

  /** Byte order of the host, which is also that of the wire. */
  datatype Order = Little | Big

  // ---- Sizes, for termination ---------------------------------------------------------------

  function TypeSize(t: Type): nat {
    match t
    case Reference(c) => 1 + TypeSize(c)
    case Struct(fs) => 1 + TypesSize(fs)
    case FixedArray(_, c) => 1 + TypeSize(c)
    case VarArray(_, c) => 1 + TypeSize(c)
    case _ => 1
  }

  function TypesSize(ts: seq<Type>): nat {
    if ts == [] then 1 else 1 + TypeSize(ts[0]) + TypesSize(ts[1..])
  }

  function ValueSize(v: Value): nat {
    match v
    case To(w) => 1 + ValueSize(w)
    case Many(vs) => 1 + ValuesSize(vs)
    case _ => 1
  }

  function ValuesSize(vs: seq<Value>): nat {
    if vs == [] then 1 else 1 + ValueSize(vs[0]) + ValuesSize(vs[1..])
  }

  // ---- Numbers ----------------------------------------------------------------------------------

  function Pow256(w: nat): nat {
    if w == 0 then 1 else 256 * Pow256(w - 1)
  }

  function Small(n: nat, w: nat): seq<Byte> {
    if w == 0 then [] else [n % 256] + Small(n / 256, w - 1)
  }

  function FromSmall(b: seq<Byte>): nat {
    if b == [] then 0 else var low: nat := b[0]; low + 256 * FromSmall(b[1..])
  }

  function Reversed(b: seq<Byte>): seq<Byte> {
    if b == [] then [] else Reversed(b[1..]) + [b[0]]
  }

  function PutNum(o: Order, n: nat, w: nat): seq<Byte> {
    if o.Little? then Small(n, w) else Reversed(Small(n, w))
  }

  function GetNum(o: Order, b: seq<Byte>): nat {
    if o.Little? then FromSmall(b) else FromSmall(Reversed(b))
  }

  lemma {:induction false} SmallFacts(n: nat, w: nat)
    requires n < Pow256(w)
    ensures |Small(n, w)| == w && FromSmall(Small(n, w)) == n
  {
    if w > 0 {
      SmallFacts(n / 256, w - 1);
      assert Small(n, w)[1..] == Small(n / 256, w - 1);
    }
  }

  lemma {:induction false} ReversedMore(b: seq<Byte>, x: Byte)
    ensures Reversed(b + [x]) == [x] + Reversed(b) && |Reversed(b)| == |b|
  {
    if b != [] {
      assert (b + [x])[1..] == b[1..] + [x];
      ReversedMore(b[1..], x);
    }
  }

  lemma {:induction false} ReversedTwice(b: seq<Byte>)
    ensures Reversed(Reversed(b)) == b
  {
    if b != [] {
      ReversedMore(Reversed(b[1..]), b[0]);
      ReversedTwice(b[1..]);
    }
  }

  lemma NumFacts(o: Order, n: nat, w: nat)
    requires n < Pow256(w)
    ensures |PutNum(o, n, w)| == w && GetNum(o, PutNum(o, n, w)) == n
  {
    SmallFacts(n, w);
    ReversedTwice(Small(n, w));
    ReversedMore(Small(n, w), 0);
  }

  // ---- C strings -----------------------------------------------------------------------------------

  predicate IsCString(b: seq<Byte>) {
    |b| > 0 && b[|b| - 1] == 0 && forall i :: 0 <= i < |b| - 1 ==> b[i] != 0
  }

  /** SAFE_STRSIZE: bytes up to and with the first NUL, 0 when there is none. */
  function StrSize(b: seq<Byte>): nat
    ensures StrSize(b) <= |b|
  {
    if b == [] then 0 else if b[0] == 0 then 1 else if StrSize(b[1..]) == 0 then 0 else 1 + StrSize(b[1..])
  }

  lemma {:induction false} StrSizeOf(s: seq<Byte>, rest: seq<Byte>)
    requires IsCString(s)
    ensures StrSize(s + rest) == |s|
  {
    assert (s + rest)[1..] == s[1..] + rest;
    if |s| > 1 {
      assert IsCString(s[1..]);
      StrSizeOf(s[1..], rest);
    }
  }

  lemma {:induction false} StrSizeMore(b: seq<Byte>, more: seq<Byte>)
    requires StrSize(b) > 0
    ensures StrSize(b + more) == StrSize(b)
  {
    assert (b + more)[1..] == b[1..] + more;
    if b[0] != 0 {
      StrSizeMore(b[1..], more);
    }
  }

  /** Lengths of strings are kept in a uint16_t. */
  function Short(n: nat): nat {
    n % 65536
  }

  // ---- Well-formed descriptors and values --------------------------------------------------------------

  predicate HasType(env: Env, t: Type, v: Value)
    decreases ValueSize(v), TypeSize(t)
  {
    match t
    case Void => v == Empty
    case Number(w) => v.Num? && v.n < Pow256(w)
    case Address(w) => v.Data? && |v.bytes| == w
    case Pointer(c) => v.Null? || (v.To? && c in env && HasType(env, env[c], v.target))
    case Reference(c) => HasType(env, c, v)
    case Str => v.Null? || (v.Text? && IsCString(v.buf))
    case Struct(fs) => v.Many? && HaveTypes(env, fs, v.items)
    case FixedBytes(n) => v.Data? && |v.bytes| == n
    case VarBytes(max) => v.Data? && |v.bytes| <= max && |v.bytes| < 65536
    case NilBytes(max) => v.Text? && IsCString(v.buf) && |v.buf| <= max
    case DynBytes => v.Data? && |v.bytes| < 65536
    case FixedArray(n, c) => v.Many? && |v.items| == n < 65536 && AllHaveType(env, c, v.items)
    case VarArray(max, c) => v.Many? && |v.items| <= max && |v.items| < 65536 && AllHaveType(env, c, v.items)
    case DynArray(c) => v.Many? && |v.items| < 65536 && c in env && AllHaveType(env, env[c], v.items)
  }

  predicate AllHaveType(env: Env, t: Type, vs: seq<Value>)
    decreases ValuesSize(vs), TypeSize(t)
  {
    vs == [] || (HasType(env, t, vs[0]) && AllHaveType(env, t, vs[1..]))
  }

  /** The members of a struct end at a VOID descriptor. */
  predicate EndOf(ts: seq<Type>) {
    ts == [] || ts[0].Void?
  }

  predicate HaveTypes(env: Env, ts: seq<Type>, vs: seq<Value>)
    decreases ValuesSize(vs), TypesSize(ts)
  {
    if EndOf(ts) then vs == [] else vs != [] && HasType(env, ts[0], vs[0]) && HaveTypes(env, ts[1..], vs[1..])
  }

  /** Every string fits a uint16_t length. */
  predicate Fits(v: Value)
    decreases ValueSize(v)
  {
    match v
    case To(w) => Fits(w)
    case Text(buf) => |buf| < 65536
    case Many(vs) => AllFit(vs)
    case _ => true
  }

  predicate AllFit(vs: seq<Value>)
    decreases ValuesSize(vs)
  {
    vs == [] || (Fits(vs[0]) && AllFit(vs[1..]))
  }

  // ---- Encoding ------------------------------------------------------------------------------------------

  function Encode(env: Env, o: Order, t: Type, v: Value): seq<Byte>
    requires HasType(env, t, v)
    decreases ValueSize(v), TypeSize(t)
  {
    match t
    case Void => []
    case Number(w) => PutNum(o, v.n, w)
    case Address(w) => v.bytes
    case Pointer(c) => if v.Null? then [0] else [1] + Encode(env, o, env[c], v.target)
    case Reference(c) => Encode(env, o, c, v)
    case Str => if v.Null? then [0] else [1] + v.buf[..Short(|v.buf|)]
    case Struct(fs) => EncodeFields(env, o, fs, v.items)
    case FixedBytes(n) => v.bytes
    case VarBytes(_) => PutNum(o, |v.bytes|, 2) + v.bytes
    case NilBytes(_) => v.buf[..Short(|v.buf|)]
    case DynBytes => PutNum(o, |v.bytes|, 2) + v.bytes
    case FixedArray(_, c) => EncodeAll(env, o, c, v.items)
    case VarArray(_, c) => PutNum(o, |v.items|, 2) + EncodeAll(env, o, c, v.items)
    case DynArray(c) => PutNum(o, |v.items|, 2) + EncodeAll(env, o, env[c], v.items)
  }

  function EncodeAll(env: Env, o: Order, t: Type, vs: seq<Value>): seq<Byte>
    requires AllHaveType(env, t, vs)
    decreases ValuesSize(vs), TypeSize(t)
  {
    if vs == [] then [] else Encode(env, o, t, vs[0]) + EncodeAll(env, o, t, vs[1..])
  }

  function EncodeFields(env: Env, o: Order, ts: seq<Type>, vs: seq<Value>): seq<Byte>
    requires HaveTypes(env, ts, vs)
    decreases ValuesSize(vs), TypesSize(ts)
  {
    if EndOf(ts) then [] else Encode(env, o, ts[0], vs[0]) + EncodeFields(env, o, ts[1..], vs[1..])
  }

  // ---- Decoding --------------------------------------------------------------------------------------------

  datatype Result = Fail | Got(value: Value, rest: seq<Byte>)
  datatype Results = FailMany | GotMany(values: seq<Value>, rest: seq<Byte>)

  function Take(b: seq<Byte>, n: nat): Result {
    if |b| < n then Fail else Got(Data(b[..n]), b[n..])
  }

  function TakeNum(o: Order, b: seq<Byte>, w: nat): Result {
    if |b| < w then Fail else Got(Num(GetNum(o, b[..w])), b[w..])
  }

  function AsMany(r: Results): Result {
    match r
    case FailMany => Fail
    case GotMany(vs, rest) => Got(Many(vs), rest)
  }

  function Decode(env: Env, o: Order, t: Type, b: seq<Byte>): (r: Result)
    ensures r.Got? ==> |r.rest| <= |b|
    decreases |b|, TypeSize(t), 0
  {
    match t
    case Void => Got(Empty, b)
    case Number(w) => TakeNum(o, b, w)
    case Address(w) => Take(b, w)
    case Pointer(c) =>
      if b == [] then Fail
      else if b[0] == 0 then Got(Null, b[1..])
      else if c !in env then Fail
      else
        var r := Decode(env, o, env[c], b[1..]);
        if r.Fail? then Fail else Got(To(r.value), r.rest)
    case Reference(c) => Decode(env, o, c, b)
    case Str =>
      if b == [] then Fail
      else if b[0] == 0 then Got(Null, b[1..])
      else
        var size := StrSize(b[1..]);
        if size == 0 then Fail else Got(Text(b[1..][..Short(size)]), b[1..][Short(size)..])
    case Struct(fs) => AsMany(DecodeFields(env, o, fs, b))
    case FixedBytes(n) => Take(b, n)
    case VarBytes(max) =>
      if |b| < 2 then Fail
      else
        var n := GetNum(o, b[..2]);
        if n > max then Fail else Take(b[2..], n)
    case NilBytes(max) =>
      var size := StrSize(b);
      if size == 0 || Short(size) > max then Fail else Got(Text(b[..Short(size)]), b[Short(size)..])
    case DynBytes => if |b| < 2 then Fail else Take(b[2..], GetNum(o, b[..2]))
    case FixedArray(n, c) => AsMany(DecodeMany(env, o, c, n, b))
    case VarArray(max, c) =>
      if |b| < 2 then Fail
      else
        var n := GetNum(o, b[..2]);
        if n > max then Fail else AsMany(DecodeMany(env, o, c, n, b[2..]))
    case DynArray(c) =>
      if |b| < 2 then Fail
      else
        var n := GetNum(o, b[..2]);
        if n == 0 then Got(Many([]), b[2..])
        else if c !in env then Fail
        else AsMany(DecodeMany(env, o, env[c], n, b[2..]))
  }

  function DecodeMany(env: Env, o: Order, t: Type, n: nat, b: seq<Byte>): (r: Results)
    ensures r.GotMany? ==> |r.rest| <= |b| && |r.values| == n
    decreases |b|, TypeSize(t), n + 1
  {
    if n == 0 then GotMany([], b)
    else
      var first := Decode(env, o, t, b);
      if first.Fail? then FailMany
      else
        var more := DecodeMany(env, o, t, n - 1, first.rest);
        if more.FailMany? then FailMany else GotMany([first.value] + more.values, more.rest)
  }

  function DecodeFields(env: Env, o: Order, ts: seq<Type>, b: seq<Byte>): (r: Results)
    ensures r.GotMany? ==> |r.rest| <= |b|
    decreases |b|, TypesSize(ts), 0
  {
    if EndOf(ts) then GotMany([], b)
    else
      var first := Decode(env, o, ts[0], b);
      if first.Fail? then FailMany
      else
        var more := DecodeFields(env, o, ts[1..], first.rest);
        if more.FailMany? then FailMany else GotMany([first.value] + more.values, more.rest)
  }

  // ---- What was encoded is decoded ----------------------------------------------------------------------------

  lemma TakeBack(b: seq<Byte>, rest: seq<Byte>)
    ensures Take(b + rest, |b|) == Got(Data(b), rest)
  {
    assert (b + rest)[..|b|] == b && (b + rest)[|b|..] == rest;
  }

  lemma CountBack(o: Order, n: nat, b: seq<Byte>)
    requires n < 65536
    ensures var e := PutNum(o, n, 2) + b; |e| >= 2 && GetNum(o, e[..2]) == n && e[2..] == b
  {
    assert Pow256(2) == 65536 by { assert Pow256(1) == 256; }
    NumFacts(o, n, 2);
    var e := PutNum(o, n, 2) + b;
    assert e[..2] == PutNum(o, n, 2) && e[2..] == b;
  }

  lemma TextBack(buf: seq<Byte>, rest: seq<Byte>)
    requires IsCString(buf) && |buf| < 65536
    ensures var b := buf[..Short(|buf|)] + rest;
      StrSize(b) == |buf| && b[..Short(|buf|)] == buf && b[Short(|buf|)..] == rest
  {
    assert buf[..Short(|buf|)] == buf;
    StrSizeOf(buf, rest);
  }

  predicate IsLeaf(t: Type) {
    t.Void? || t.Number? || t.Address? || t.Str? || t.FixedBytes? || t.VarBytes? || t.NilBytes? || t.DynBytes?
  }

  /** Descriptors without a child. */
  lemma RoundTripLeaf(env: Env, o: Order, t: Type, v: Value, rest: seq<Byte>)
    requires IsLeaf(t) && HasType(env, t, v) && Fits(v)
    ensures Decode(env, o, t, Encode(env, o, t, v) + rest) == Got(v, rest)
  {
    var b := Encode(env, o, t, v) + rest;
    match t
    case Void => assert [] + rest == rest;
    case Number(w) => NumberBack(o, w, v, rest);
    case Address(_) => TakeBack(v.bytes, rest);
    case Str =>
      if v.Null? {
        assert b[1..] == rest;
      } else {
        assert b[1..] == v.buf[..Short(|v.buf|)] + rest;
        TextBack(v.buf, rest);
      }
    case FixedBytes(_) => TakeBack(v.bytes, rest);
    case NilBytes(_) => TextBack(v.buf, rest);
    case VarBytes(_) => CountedBack(o, v.bytes, rest);
    case DynBytes => CountedBack(o, v.bytes, rest);
    case _ =>
  }

  lemma CountedBack(o: Order, bytes: seq<Byte>, rest: seq<Byte>)
    requires |bytes| < 65536
    ensures var b := PutNum(o, |bytes|, 2) + bytes + rest;
      |b| >= 2 && GetNum(o, b[..2]) == |bytes| && Take(b[2..], |bytes|) == Got(Data(bytes), rest)
  {
    assert PutNum(o, |bytes|, 2) + bytes + rest == PutNum(o, |bytes|, 2) + (bytes + rest);
    CountBack(o, |bytes|, bytes + rest);
    TakeBack(bytes, rest);
  }

  lemma ArrayBack(env: Env, o: Order, t: Type, items: seq<Value>, rest: seq<Byte>)
    requires |items| < 65536 && AllHaveType(env, t, items)
    requires DecodeMany(env, o, t, |items|, EncodeAll(env, o, t, items) + rest) == GotMany(items, rest)
    ensures var b := PutNum(o, |items|, 2) + EncodeAll(env, o, t, items) + rest;
      |b| >= 2 && GetNum(o, b[..2]) == |items| && DecodeMany(env, o, t, |items|, b[2..]) == GotMany(items, rest)
    ensures items == [] ==> (PutNum(o, |items|, 2) + EncodeAll(env, o, t, items) + rest)[2..] == rest
  {
    var body := EncodeAll(env, o, t, items) + rest;
    assert PutNum(o, |items|, 2) + EncodeAll(env, o, t, items) + rest == PutNum(o, |items|, 2) + body;
    CountBack(o, |items|, body);
    assert items == [] ==> body == rest;
  }

  lemma VarArrayBack(env: Env, o: Order, t: Type, v: Value, rest: seq<Byte>)
    requires t.VarArray? && HasType(env, t, v)
    requires DecodeMany(env, o, t.elem, |v.items|, EncodeAll(env, o, t.elem, v.items) + rest) == GotMany(v.items, rest)
    ensures Decode(env, o, t, Encode(env, o, t, v) + rest) == Got(v, rest)
  {
    ArrayBack(env, o, t.elem, v.items, rest);
    hide DecodeMany, EncodeAll, GetNum, PutNum, AllHaveType;
  }

  lemma DynArrayBack(env: Env, o: Order, t: Type, v: Value, rest: seq<Byte>)
    requires t.DynArray? && HasType(env, t, v)
    requires DecodeMany(env, o, env[t.child], |v.items|, EncodeAll(env, o, env[t.child], v.items) + rest) == GotMany(v.items, rest)
    ensures Decode(env, o, t, Encode(env, o, t, v) + rest) == Got(v, rest)
  {
    ArrayBack(env, o, env[t.child], v.items, rest);
    hide DecodeMany, EncodeAll, GetNum, PutNum, AllHaveType;
  }

  /** What was encoded is decoded, and nothing beyond it is touched. */
  lemma {:induction false} RoundTrip(env: Env, o: Order, t: Type, v: Value, rest: seq<Byte>)
    requires HasType(env, t, v) && Fits(v)
    ensures Decode(env, o, t, Encode(env, o, t, v) + rest) == Got(v, rest)
    decreases ValueSize(v), TypeSize(t)
  {
    match t
    case Pointer(c) =>
      var b := Encode(env, o, t, v) + rest;
      if v.Null? {
        assert b[1..] == rest;
      } else {
        assert b[1..] == Encode(env, o, env[c], v.target) + rest;
        RoundTrip(env, o, env[c], v.target, rest);
      }
    case Reference(c) => RoundTrip(env, o, c, v, rest);
    case Struct(fs) => RoundTripFields(env, o, fs, v.items, rest);
    case FixedArray(_, c) => RoundTripAll(env, o, c, v.items, rest);
    case VarArray(_, c) =>
      RoundTripAll(env, o, c, v.items, rest);
      VarArrayBack(env, o, t, v, rest);
    case DynArray(c) =>
      RoundTripAll(env, o, env[c], v.items, rest);
      DynArrayBack(env, o, t, v, rest);
    case _ => RoundTripLeaf(env, o, t, v, rest);
  }

  lemma NumberBack(o: Order, w: nat, v: Value, rest: seq<Byte>)
    requires v.Num? && v.n < Pow256(w)
    ensures TakeNum(o, PutNum(o, v.n, w) + rest, w) == Got(v, rest)
  {
    NumFacts(o, v.n, w);
    var b := PutNum(o, v.n, w) + rest;
    assert b[..w] == PutNum(o, v.n, w) && b[w..] == rest;
  }

  lemma Regroup(a: seq<Byte>, b: seq<Byte>, c: seq<Byte>)
    ensures (a + b) + c == a + (b + c)
  {
  }

  lemma DecodeManyStep(env: Env, o: Order, t: Type, n: nat, b: seq<Byte>)
    requires n > 0 && Decode(env, o, t, b).Got?
    ensures var d := Decode(env, o, t, b);
      var more := DecodeMany(env, o, t, n - 1, d.rest);
      DecodeMany(env, o, t, n, b) == if more.FailMany? then FailMany else GotMany([d.value] + more.values, more.rest)
  {
    hide Decode;
  }

  lemma DecodeFieldsStep(env: Env, o: Order, ts: seq<Type>, b: seq<Byte>)
    requires !EndOf(ts) && Decode(env, o, ts[0], b).Got?
    ensures var d := Decode(env, o, ts[0], b);
      var more := DecodeFields(env, o, ts[1..], d.rest);
      DecodeFields(env, o, ts, b) == if more.FailMany? then FailMany else GotMany([d.value] + more.values, more.rest)
  {
    hide Decode;
  }

  lemma AllStep(env: Env, o: Order, t: Type, vs: seq<Value>)
    requires vs != [] && AllHaveType(env, t, vs)
    ensures HasType(env, t, vs[0]) && AllHaveType(env, t, vs[1..]) && (AllFit(vs) ==> Fits(vs[0]) && AllFit(vs[1..]))
    ensures EncodeAll(env, o, t, vs) == Encode(env, o, t, vs[0]) + EncodeAll(env, o, t, vs[1..])
    ensures ValueSize(vs[0]) < ValuesSize(vs) && ValuesSize(vs[1..]) < ValuesSize(vs)
  {
    hide HasType, Encode, Fits, ValueSize;
  }

  lemma {:induction false} RoundTripAll(env: Env, o: Order, t: Type, vs: seq<Value>, rest: seq<Byte>)
    requires AllHaveType(env, t, vs) && AllFit(vs)
    ensures DecodeMany(env, o, t, |vs|, EncodeAll(env, o, t, vs) + rest) == GotMany(vs, rest)
    decreases ValuesSize(vs), TypeSize(t)
  {
    if vs == [] {
      assert [] + rest == rest;
    } else {
      AllStep(env, o, t, vs);
      hide Encode, Decode, HasType, Fits, DecodeMany, AllFit, AllHaveType, EncodeAll, ValueSize, ValuesSize, TypeSize;
      var e, more := Encode(env, o, t, vs[0]), EncodeAll(env, o, t, vs[1..]);
      RoundTrip(env, o, t, vs[0], more + rest);
      RoundTripAll(env, o, t, vs[1..], rest);
      Regroup(e, more, rest);
      DecodeManyStep(env, o, t, |vs|, e + (more + rest));
      assert vs == [vs[0]] + vs[1..];
    }
  }

  lemma {:induction false} RoundTripFields(env: Env, o: Order, ts: seq<Type>, vs: seq<Value>, rest: seq<Byte>)
    requires HaveTypes(env, ts, vs) && AllFit(vs)
    ensures DecodeFields(env, o, ts, EncodeFields(env, o, ts, vs) + rest) == GotMany(vs, rest)
    decreases ValuesSize(vs), TypesSize(ts)
  {
    if EndOf(ts) {
      assert [] + rest == rest;
    } else {
      var e, more := Encode(env, o, ts[0], vs[0]), EncodeFields(env, o, ts[1..], vs[1..]);
      RoundTrip(env, o, ts[0], vs[0], more + rest);
      RoundTripFields(env, o, ts[1..], vs[1..], rest);
      hide Encode, Decode, HasType, Fits, DecodeFields, AllFit;
      Regroup(e, more, rest);
      DecodeFieldsStep(env, o, ts, e + (more + rest));
      assert vs == [vs[0]] + vs[1..];
    }
  }

  // ---- More bytes change nothing --------------------------------------------------------------------------------

  lemma TakeMore(b: seq<Byte>, n: nat, more: seq<Byte>)
    requires n <= |b|
    ensures (b + more)[..n] == b[..n] && (b + more)[n..] == b[n..] + more
  {
  }

  lemma {:induction false} Extends(env: Env, o: Order, t: Type, b: seq<Byte>, more: seq<Byte>)
    requires Decode(env, o, t, b).Got?
    ensures Decode(env, o, t, b + more) == Got(Decode(env, o, t, b).value, Decode(env, o, t, b).rest + more)
    decreases |b|, TypeSize(t), 0
  {
    match t
    case Void =>
    case Number(w) => TakeMore(b, w, more);
    case Address(w) => TakeMore(b, w, more);
    case Pointer(c) =>
      TakeMore(b, 1, more);
      if b[0] != 0 {
        Extends(env, o, env[c], b[1..], more);
      }
    case Reference(c) => Extends(env, o, c, b, more);
    case Str =>
      TakeMore(b, 1, more);
      if b[0] != 0 {
        StrSizeMore(b[1..], more);
        TakeMore(b[1..], Short(StrSize(b[1..])), more);
      }
    case Struct(fs) => ExtendsFields(env, o, fs, b, more);
    case FixedBytes(n) => TakeMore(b, n, more);
    case VarBytes(_) =>
      TakeMore(b, 2, more);
      TakeMore(b[2..], GetNum(o, b[..2]), more);
    case NilBytes(_) =>
      StrSizeMore(b, more);
      TakeMore(b, Short(StrSize(b)), more);
    case DynBytes =>
      TakeMore(b, 2, more);
      TakeMore(b[2..], GetNum(o, b[..2]), more);
    case FixedArray(n, c) => ExtendsMany(env, o, c, n, b, more);
    case VarArray(_, c) =>
      TakeMore(b, 2, more);
      ExtendsMany(env, o, c, GetNum(o, b[..2]), b[2..], more);
    case DynArray(c) =>
      TakeMore(b, 2, more);
      if GetNum(o, b[..2]) != 0 {
        ExtendsMany(env, o, env[c], GetNum(o, b[..2]), b[2..], more);
      }
  }

  lemma {:induction false} ExtendsMany(env: Env, o: Order, t: Type, n: nat, b: seq<Byte>, more: seq<Byte>)
    requires DecodeMany(env, o, t, n, b).GotMany?
    ensures DecodeMany(env, o, t, n, b + more) == GotMany(DecodeMany(env, o, t, n, b).values, DecodeMany(env, o, t, n, b).rest + more)
    decreases |b|, TypeSize(t), n + 1
  {
    if n > 0 {
      Extends(env, o, t, b, more);
      ExtendsMany(env, o, t, n - 1, Decode(env, o, t, b).rest, more);
    }
  }

  lemma {:induction false} ExtendsFields(env: Env, o: Order, ts: seq<Type>, b: seq<Byte>, more: seq<Byte>)
    requires DecodeFields(env, o, ts, b).GotMany?
    ensures DecodeFields(env, o, ts, b + more) == GotMany(DecodeFields(env, o, ts, b).values, DecodeFields(env, o, ts, b).rest + more)
    decreases |b|, TypesSize(ts), 0
  {
    if !EndOf(ts) {
      Extends(env, o, ts[0], b, more);
      ExtendsFields(env, o, ts[1..], Decode(env, o, ts[0], b).rest, more);
    }
  }

  /** A message cut short anywhere is refused. */
  lemma StrictPrefixFails(env: Env, o: Order, t: Type, v: Value, k: nat)
    requires HasType(env, t, v) && Fits(v) && k < |Encode(env, o, t, v)|
    ensures Decode(env, o, t, Encode(env, o, t, v)[..k]).Fail?
  {
    var e := Encode(env, o, t, v);
    RoundTrip(env, o, t, v, []);
    assert e + [] == e && e[..k] + e[k..] == e;
    if Decode(env, o, t, e[..k]).Got? {
      Extends(env, o, t, e[..k], e[k..]);
    }
  }

  // ---- What is decoded fits -----------------------------------------------------------------------------------------

  lemma {:induction false} DecodedFits(env: Env, o: Order, t: Type, b: seq<Byte>)
    requires Decode(env, o, t, b).Got?
    ensures Fits(Decode(env, o, t, b).value)
    decreases |b|, TypeSize(t), 0
  {
    match t
    case Pointer(c) =>
      if b[0] != 0 {
        DecodedFits(env, o, env[c], b[1..]);
      }
    case Reference(c) => DecodedFits(env, o, c, b);
    case Struct(fs) => DecodedFieldsFit(env, o, fs, b);
    case FixedArray(n, c) => DecodedManyFit(env, o, c, n, b);
    case VarArray(_, c) => DecodedManyFit(env, o, c, GetNum(o, b[..2]), b[2..]);
    case DynArray(c) =>
      if GetNum(o, b[..2]) != 0 {
        DecodedManyFit(env, o, env[c], GetNum(o, b[..2]), b[2..]);
      }
    case _ =>
  }

  lemma {:induction false} DecodedManyFit(env: Env, o: Order, t: Type, n: nat, b: seq<Byte>)
    requires DecodeMany(env, o, t, n, b).GotMany?
    ensures AllFit(DecodeMany(env, o, t, n, b).values)
    decreases |b|, TypeSize(t), n + 1
  {
    if n > 0 {
      DecodedFits(env, o, t, b);
      DecodedManyFit(env, o, t, n - 1, Decode(env, o, t, b).rest);
    }
  }

  lemma {:induction false} DecodedFieldsFit(env: Env, o: Order, ts: seq<Type>, b: seq<Byte>)
    requires DecodeFields(env, o, ts, b).GotMany?
    ensures AllFit(DecodeFields(env, o, ts, b).values)
    decreases |b|, TypesSize(ts), 0
  {
    if !EndOf(ts) {
      DecodedFits(env, o, ts[0], b);
      DecodedFieldsFit(env, o, ts[1..], Decode(env, o, ts[0], b).rest);
    }
  }

  /** A value survives the round trip exactly when every string in it, with its NUL, is shorter than 65536 bytes. */
  lemma RoundTripExact(env: Env, o: Order, t: Type, v: Value)
    requires HasType(env, t, v)
    ensures Decode(env, o, t, Encode(env, o, t, v)) == Got(v, []) <==> Fits(v)
  {
    var e := Encode(env, o, t, v);
    if Fits(v) {
      RoundTrip(env, o, t, v, []);
      assert e + [] == e;
    } else if Decode(env, o, t, e).Got? {
      DecodedFits(env, o, t, e);
    }
  }

  function Ones(n: nat): seq<Byte> {
    seq(n, i => 1)
  }

  /** A string of 65535 characters leaves no trace but its flag, and cannot be read back. */
  lemma LongStringLost(env: Env, o: Order)
    ensures var v := Text(Ones(65535) + [0]);
      HasType(env, Str, v) && Encode(env, o, Str, v) == [1] && Decode(env, o, Str, Encode(env, o, Str, v)).Fail?
  {
    var buf := Ones(65535) + [0];
    assert IsCString(buf);
    assert buf[..0] == [];
  }
}

/** When a value marshalled into a chain comes back, whatever the memory of empty pieces holds. */
module StreamCodec {
  import opened Common
  import opened Marshal
  import opened ChainStream

  // ---- Lengths and prefixes -------------------------------------------------------------------------

  /** Of two parts behind each other in a stream. */
  lemma {:induction false} PartsBehind(a: seq<Byte>, b: seq<Byte>, st: Stream)
    requires a + b <= Real(st)
    ensures a <= Real(st) && |a| <= |Real(st)| && b <= Real(Drop(st, |a|))
  {
    hide Real, Drop;
    Cut(a, b, Real(st));
  }

  lemma {:induction false} Cut(a: seq<Byte>, b: seq<Byte>, x: seq<Byte>)
    requires a + b <= x
    ensures a <= x && b <= x[|a|..]
  {
    assert x == a + b + x[|a| + |b|..];
  }

  /** Steps over the first part keep clear of the second one's strings. */
  lemma {:induction false} PlacesBehind(st: Stream, n: nat, at: nat, st': Stream, at': nat)
    requires n <= |Real(st)| && st' == Drop(st, n) && at' == at + n
    ensures forall p :: p in Places(st', at') <==> p in Places(st, at) && p >= at'
  {
    forall p: nat ensures p in Places(st', at') <==> p in Places(st, at) && p >= at' {
      PlacesDrop(st, n, at, p);
    }
  }

  lemma {:induction false} InTextRange(env: Env, o: Order, t: Type, v: Value, at: nat, p: nat)
    requires HasType(env, t, v) && Fits(v) && InText(env, o, t, v, at, p)
    ensures at <= p < at + |Encode(env, o, t, v)|
    decreases ValueSize(v), TypeSize(t)
  {
    match t
    case Pointer(c) => InTextRange(env, o, env[c], v.target, at + 1, p);
    case Reference(c) => InTextRange(env, o, c, v, at, p);
    case Struct(fs) => InFieldsRange(env, o, fs, v.items, at, p);
    case FixedArray(_, c) => InAllRange(env, o, c, v.items, at, p);
    case VarArray(_, c) =>
      CountBack(o, |v.items|, []);
      InAllRange(env, o, c, v.items, at + 2, p);
    case DynArray(c) =>
      CountBack(o, |v.items|, []);
      InAllRange(env, o, env[c], v.items, at + 2, p);
    case _ =>
  }

  lemma {:induction false} InAllRange(env: Env, o: Order, t: Type, vs: seq<Value>, at: nat, p: nat)
    requires AllHaveType(env, t, vs) && AllFit(vs) && InAll(env, o, t, vs, at, p)
    ensures at <= p < at + |EncodeAll(env, o, t, vs)|
    decreases ValuesSize(vs), TypeSize(t)
  {
    AllStep(env, o, t, vs);
    if InText(env, o, t, vs[0], at, p) {
      InTextRange(env, o, t, vs[0], at, p);
    } else {
      InAllRange(env, o, t, vs[1..], at + |Encode(env, o, t, vs[0])|, p);
    }
  }

  lemma {:induction false} InFieldsRange(env: Env, o: Order, ts: seq<Type>, vs: seq<Value>, at: nat, p: nat)
    requires HaveTypes(env, ts, vs) && AllFit(vs) && InFields(env, o, ts, vs, at, p)
    ensures at <= p < at + |EncodeFields(env, o, ts, vs)|
    decreases ValuesSize(vs), TypesSize(ts)
  {
    if InText(env, o, ts[0], vs[0], at, p) {
      InTextRange(env, o, ts[0], vs[0], at, p);
    } else {
      InFieldsRange(env, o, ts[1..], vs[1..], at + |Encode(env, o, ts[0], vs[0])|, p);
    }
  }

  // ---- Nothing torn: the value comes back ----------------------------------------------------------------

  /** Descriptors without strings and children: the stream is read as its bytes are. */
  lemma {:induction false} LeafAsFlat(env: Env, o: Order, t: Type, st: Stream)
    requires IsLeaf(t) && !t.Str? && !t.NilBytes?
    ensures var d := Decode(env, o, t, Real(st));
      Parse(env, o, t, st) == if d.Fail? then Bad else Good(d.value, Drop(st, |Real(st)| - |d.rest|))
  {
    hide Real, Drop, GetNum, StrSize, Seen;
    if t.VarBytes? || t.DynBytes? {
      CountedLeaf(env, o, t, st);
    } else {
      SimpleLeaf(env, o, t, st);
    }
  }

  lemma {:induction false} SimpleLeaf(env: Env, o: Order, t: Type, st: Stream)
    requires t.Void? || t.Number? || t.Address? || t.FixedBytes?
    ensures var d := Decode(env, o, t, Real(st));
      Parse(env, o, t, st) == if d.Fail? then Bad else Good(d.value, Drop(st, |Real(st)| - |d.rest|))
  {
    DropNone(st);
    hide Real, Drop, GetNum, StrSize, Seen, DecodeMany, DecodeFields, ParseMany, ParseFields, CopyText, Short;
    match t
    case Void =>
    case Number(_) =>
    case Address(_) =>
    case FixedBytes(_) =>
  }

  lemma {:induction false} DropNone(st: Stream)
    ensures Drop(st, 0) == st
  {
  }

  lemma {:induction false} Behind(st: Stream, n: nat)
    requires n <= |Real(st)|
    ensures Real(Drop(st, n)) == Real(st)[n..]
  {
  }

  lemma {:induction false} CountedLeaf(env: Env, o: Order, t: Type, st: Stream)
    requires t.VarBytes? || t.DynBytes?
    ensures var d := Decode(env, o, t, Real(st));
      Parse(env, o, t, st) == if d.Fail? then Bad else Good(d.value, Drop(st, |Real(st)| - |d.rest|))
  {
    hide Real, Drop, GetNum, StrSize, Seen, DecodeMany, DecodeFields, ParseMany, ParseFields, CopyText, Short;
    var b := Real(st);
    if |b| >= 2 {
      Behind(st, 2);
      DropDrop(st, 2, GetNum(o, b[..2]));
    }
  }

  lemma {:induction false} IntactLeaf(env: Env, o: Order, t: Type, v: Value, st: Stream)
    requires IsLeaf(t) && !t.Str? && !t.NilBytes? && HasType(env, t, v) && Fits(v) && Encode(env, o, t, v) <= Real(st)
    ensures Parse(env, o, t, st) == Good(v, Drop(st, |Encode(env, o, t, v)|))
  {
    var e := Encode(env, o, t, v);
    var rest := Real(st)[|e|..];
    LeafAsFlat(env, o, t, st);
    hide Encode, Decode, Parse, Real, Drop, HasType;
    assert Real(st) == e + rest;
    RoundTripLeaf(env, o, t, v, rest);
  }

  lemma {:induction false} IntactText(env: Env, o: Order, st: Stream, buf: seq<Byte>, at: nat)
    requires IsCString(buf) && |buf| < 65536 && buf <= Real(st) && forall p :: p in Places(st, at) ==> !(at <= p < at + |buf|)
    ensures StrSize(Seen(st)) == |buf| && CopyText(st, |buf|) == Good(Text(buf), Drop(st, |buf|))
  {
    hide Places, Real, Seen, StrSize, Drop, CopyText;
    PlacesBehind0(st, at);
    TextAsIs(st, buf, at);
    CopyWhole(st, buf);
  }

  lemma {:induction false} PlacesBehind0(st: Stream, at: nat)
    ensures forall p :: p in Places(st, at) ==> p >= at
  {
    forall p | p in Places(st, at) ensures p >= at {
      PlacesDrop(st, 0, at, p);
    }
  }

  lemma {:induction false} CopyWhole(st: Stream, buf: seq<Byte>)
    requires 0 < |buf| < 65536 && buf <= Real(st)
    ensures CopyText(st, |buf|) == Good(Text(buf), Drop(st, |buf|))
  {
    hide Real, Drop;
    assert Real(st)[..|buf|] == buf;
  }

  lemma {:induction false} IntactStr(env: Env, o: Order, v: Value, st: Stream, at: nat)
    requires HasType(env, Str, v) && Fits(v) && Encode(env, o, Str, v) <= Real(st) && Untorn(env, o, Str, v, st, at)
    ensures Parse(env, o, Str, st) == Good(v, Drop(st, |Encode(env, o, Str, v)|))
  {
    if v.Text? {
      StrParts(env, o, v);
      var buf := v.buf;
      hide Real, Drop, Places, Seen, StrSize, Encode, HasType, Parse, Fits, CopyText;
      PartsBehind([1], buf, st);
      var more, next := Drop(st, 1), at + 1;
      PlacesBehind(st, 1, at, more, next);
      IntactText(env, o, more, buf, next);
      DropDrop(st, 1, |buf|);
      ParseStr(env, o, st);
    }
  }

  lemma {:induction false} StrParts(env: Env, o: Order, v: Value)
    requires HasType(env, Str, v) && Fits(v) && v.Text?
    ensures IsCString(v.buf) && |v.buf| < 65536 && Encode(env, o, Str, v) == [1] + v.buf
  {
    assert v.buf[..Short(|v.buf|)] == v.buf;
  }

  lemma {:induction false} ParseStr(env: Env, o: Order, st: Stream)
    requires Real(st) != [] && Real(st)[0] != 0
    ensures Parse(env, o, Str, st) == CopyText(Drop(st, 1), StrSize(Seen(Drop(st, 1))))
  {
    hide Real, Drop, Seen, StrSize, CopyText;
  }

  lemma {:induction false} IntactNil(env: Env, o: Order, t: Type, v: Value, st: Stream, at: nat)
    requires t.NilBytes? && HasType(env, t, v) && Fits(v) && Encode(env, o, t, v) <= Real(st) && Untorn(env, o, t, v, st, at)
    ensures Parse(env, o, t, st) == Good(v, Drop(st, |Encode(env, o, t, v)|))
  {
    var buf := v.buf;
    assert buf[..Short(|buf|)] == buf;
    assert forall p :: p in Places(st, at) ==> !(at <= p < at + |buf|);
    hide Real, Drop, Places, Seen, StrSize, Untorn;
    IntactText(env, o, st, buf, at);
  }

  /** A count of two bytes, and what it counts. */
  lemma {:induction false} CountRead(o: Order, n: nat, b: seq<Byte>, st: Stream)
    requires n < 65536 && PutNum(o, n, 2) + b <= Real(st)
    ensures |PutNum(o, n, 2)| == 2 && |Real(st)| >= 2 && GetNum(o, Real(st)[..2]) == n && b <= Real(Drop(st, 2))
  {
    CountBack(o, n, b);
    NumTwo(o, n);
    PartsBehind(PutNum(o, n, 2), b, st);
    assert Real(st)[..2] == PutNum(o, n, 2);
    assert (PutNum(o, n, 2) + b)[..2] == PutNum(o, n, 2);
  }

  lemma {:induction false} NumTwo(o: Order, n: nat)
    requires n < 65536
    ensures |PutNum(o, n, 2)| == 2
  {
    assert Pow256(2) == 65536 by { assert Pow256(1) == 256; }
    NumFacts(o, n, 2);
  }

  /** Where no empty piece lies in a string, the value comes back, and with it exactly its bytes. */
  lemma {:induction false} Intact(env: Env, o: Order, t: Type, v: Value, st: Stream, at: nat)
    requires HasType(env, t, v) && Fits(v) && Encode(env, o, t, v) <= Real(st) && Untorn(env, o, t, v, st, at)
    ensures Parse(env, o, t, st) == Good(v, Drop(st, |Encode(env, o, t, v)|))
    decreases ValueSize(v), TypeSize(t)
  {
    match t
    case Pointer(c) => IntactPointer(env, o, t, v, st, at);
    case Reference(c) => Intact(env, o, c, v, st, at);
    case Str => IntactStr(env, o, v, st, at);
    case NilBytes(_) => IntactNil(env, o, t, v, st, at);
    case Struct(fs) => IntactFields(env, o, fs, v.items, st, at);
    case FixedArray(_, c) => IntactAll(env, o, c, v.items, st, at);
    case VarArray(_, c) => IntactCounted(env, o, t, v, st, at);
    case DynArray(c) => IntactCounted(env, o, t, v, st, at);
    case _ => IntactLeaf(env, o, t, v, st);
  }

  lemma {:induction false} IntactPointer(env: Env, o: Order, t: Type, v: Value, st: Stream, at: nat)
    requires t.Pointer? && HasType(env, t, v) && Fits(v) && Encode(env, o, t, v) <= Real(st) && Untorn(env, o, t, v, st, at)
    ensures Parse(env, o, t, st) == Good(v, Drop(st, |Encode(env, o, t, v)|))
    decreases ValueSize(v), TypeSize(t), 0
  {
    if v.To? {
      var e := Encode(env, o, env[t.child], v.target);
      PartsBehind([1], e, st);
      var more, next := Drop(st, 1), at + 1;
      PlacesBehind(st, 1, at, more, next);
      hide Real, Drop, Places, Encode;
      Intact(env, o, env[t.child], v.target, more, next);
      DropDrop(st, 1, |e|);
    }
  }

  lemma {:induction false} IntactCounted(env: Env, o: Order, t: Type, v: Value, st: Stream, at: nat)
    requires (t.VarArray? || t.DynArray?) && HasType(env, t, v) && Fits(v) && Encode(env, o, t, v) <= Real(st) && Untorn(env, o, t, v, st, at)
    ensures Parse(env, o, t, st) == Good(v, Drop(st, |Encode(env, o, t, v)|))
    decreases ValueSize(v), TypeSize(t), 0
  {
    hide *;
    ChildKnown(env, t, v);
    var c := if t.VarArray? then t.elem else env[t.child];
    CountedParts(env, o, t, v, c);
    var e := EncodeAll(env, o, c, v.items);
    CountRead(o, |v.items|, e, st);
    var more, next := Drop(st, 2), at + 2;
    PlacesBehind(st, 2, at, more, next);
    UntornCounted(env, o, t, v, c, st, at, more, next);
    IntactAll(env, o, c, v.items, more, next);
    DropDrop(st, 2, |e|);
    ParseCounted(env, o, t, c, |v.items|, st);
  }

  lemma {:induction false} ChildKnown(env: Env, t: Type, v: Value)
    requires t.DynArray? ==> HasType(env, t, v)
    ensures t.DynArray? ==> t.child in env
  {
  }

  /** A counted array and its elements. */
  lemma {:induction false} CountedParts(env: Env, o: Order, t: Type, v: Value, c: Type)
    requires (t.VarArray? && c == t.elem) || (t.DynArray? && t.child in env && c == env[t.child])
    requires HasType(env, t, v) && Fits(v)
    ensures v.Many? && |v.items| < 65536 && AllHaveType(env, c, v.items) && AllFit(v.items) && (t.VarArray? ==> |v.items| <= t.max)
    ensures Encode(env, o, t, v) == PutNum(o, |v.items|, 2) + EncodeAll(env, o, c, v.items)
    ensures ValuesSize(v.items) < ValueSize(v)
  {
    hide PutNum, EncodeAll, AllHaveType, AllFit, InAll, ValuesSize;
  }

  lemma {:induction false} UntornCounted(env: Env, o: Order, t: Type, v: Value, c: Type, st: Stream, at: nat, more: Stream, next: nat)
    requires (t.VarArray? && c == t.elem) || (t.DynArray? && t.child in env && c == env[t.child])
    requires HasType(env, t, v) && v.Many? && AllHaveType(env, c, v.items) && Untorn(env, o, t, v, st, at) && next == at + 2
    requires forall p :: p in Places(more, next) <==> p in Places(st, at) && p >= next
    ensures forall p :: p in Places(more, next) ==> !InAll(env, o, c, v.items, next, p)
  {
    hide HasType, AllHaveType, InAll, Places;
    forall p | p in Places(more, next) ensures !InAll(env, o, c, v.items, next, p) {
      assert !InText(env, o, t, v, at, p);
    }
  }

  lemma {:induction false} ParseCounted(env: Env, o: Order, t: Type, c: Type, n: nat, st: Stream)
    requires (t.VarArray? && c == t.elem && n <= t.max) || (t.DynArray? && t.child in env && c == env[t.child])
    requires |Real(st)| >= 2 && GetNum(o, Real(st)[..2]) == n
    ensures var more := ParseMany(env, o, c, n, Drop(st, 2)); more.GoodMany? ==> Parse(env, o, t, st) == Good(Many(more.values), more.rest)
  {
    if n == 0 {
      hide Real, Drop, GetNum, Parse;
      assert ParseMany(env, o, c, 0, Drop(st, 2)) == GoodMany([], Drop(st, 2));
    }
    hide Real, Drop, GetNum, ParseMany;
  }

  lemma {:induction false} ManyStep(env: Env, o: Order, t: Type, n: nat, st: Stream)
    requires n > 0 && Parse(env, o, t, st).Good?
    ensures var d := Parse(env, o, t, st);
      var more := ParseMany(env, o, t, n - 1, d.rest);
      ParseMany(env, o, t, n, st) == if more.BadMany? then BadMany else GoodMany([d.value] + more.values, more.rest)
  {
    hide Parse;
  }

  lemma {:induction false} FieldsStep(env: Env, o: Order, ts: seq<Type>, st: Stream)
    requires !EndOf(ts) && Parse(env, o, ts[0], st).Good?
    ensures var d := Parse(env, o, ts[0], st);
      var more := ParseFields(env, o, ts[1..], d.rest);
      ParseFields(env, o, ts, st) == if more.BadMany? then BadMany else GoodMany([d.value] + more.values, more.rest)
  {
    hide Parse;
  }

  /** The first element and the others share the empty pieces between them. */
  lemma {:induction false} UntornAll(env: Env, o: Order, t: Type, vs: seq<Value>, st: Stream, at: nat, e: seq<Byte>, st': Stream, at': nat)
    requires vs != [] && AllHaveType(env, t, vs) && forall p :: p in Places(st, at) ==> !InAll(env, o, t, vs, at, p)
    requires e == Encode(env, o, t, vs[0]) <= Real(st) && st' == Drop(st, |e|) && at' == at + |e|
    ensures Untorn(env, o, t, vs[0], st, at) && forall p :: p in Places(st', at') ==> !InAll(env, o, t, vs[1..], at', p)
  {
    AllStep(env, o, t, vs);
    hide *;
    PlacesBehind(st, |e|, at, st', at');
    UntornFirst(env, o, t, vs, st, at);
    forall p | p in Places(st', at') ensures !InAll(env, o, t, vs[1..], at', p) {
      InAllStep(env, o, t, vs, at, p, at');
    }
  }

  lemma {:induction false} UntornFirst(env: Env, o: Order, t: Type, vs: seq<Value>, st: Stream, at: nat)
    requires vs != [] && AllHaveType(env, t, vs) && forall p :: p in Places(st, at) ==> !InAll(env, o, t, vs, at, p)
    ensures Untorn(env, o, t, vs[0], st, at)
  {
    AllStep(env, o, t, vs);
    forall p | p in Places(st, at) ensures !InText(env, o, t, vs[0], at, p) {
      InAllStep(env, o, t, vs, at, p, at + |Encode(env, o, t, vs[0])|);
    }
    hide InAll, InText, Places, Encode, HasType, AllHaveType;
  }

  lemma {:induction false} InAllStep(env: Env, o: Order, t: Type, vs: seq<Value>, at: nat, p: nat, at': nat)
    requires vs != [] && AllHaveType(env, t, vs) && at' == at + |Encode(env, o, t, vs[0])|
    ensures InAll(env, o, t, vs, at, p) <==> InText(env, o, t, vs[0], at, p) || InAll(env, o, t, vs[1..], at', p)
  {
    hide InText, Encode, HasType;
  }

  lemma {:induction false} UntornFields(env: Env, o: Order, ts: seq<Type>, vs: seq<Value>, st: Stream, at: nat, e: seq<Byte>, st': Stream, at': nat)
    requires !EndOf(ts) && HaveTypes(env, ts, vs) && forall p :: p in Places(st, at) ==> !InFields(env, o, ts, vs, at, p)
    requires e == Encode(env, o, ts[0], vs[0]) <= Real(st) && st' == Drop(st, |e|) && at' == at + |e|
    ensures Untorn(env, o, ts[0], vs[0], st, at) && forall p :: p in Places(st', at') ==> !InFields(env, o, ts[1..], vs[1..], at', p)
  {
    PlacesBehind(st, |e|, at, st', at');
    hide Real, Drop, Places, Encode, InText, HasType;
  }

  lemma {:induction false} IntactAll(env: Env, o: Order, t: Type, vs: seq<Value>, st: Stream, at: nat)
    requires AllHaveType(env, t, vs) && AllFit(vs) && EncodeAll(env, o, t, vs) <= Real(st)
    requires forall p :: p in Places(st, at) ==> !InAll(env, o, t, vs, at, p)
    ensures ParseMany(env, o, t, |vs|, st) == GoodMany(vs, Drop(st, |EncodeAll(env, o, t, vs)|))
    decreases ValuesSize(vs), TypeSize(t)
  {
    hide *;
    if vs == [] {
      NoneRead(env, o, t, st);
    } else {
      AllStep(env, o, t, vs);
      var e, more := Encode(env, o, t, vs[0]), EncodeAll(env, o, t, vs[1..]);
      PartsBehind(e, more, st);
      var st', at' := Drop(st, |e|), at + |e|;
      UntornAll(env, o, t, vs, st, at, e, st', at');
      Intact(env, o, t, vs[0], st, at);
      IntactAll(env, o, t, vs[1..], st', at');
      ManyStep(env, o, t, |vs|, st);
      DropDrop(st, |e|, |more|);
      assert vs == [vs[0]] + vs[1..];
    }
  }

  lemma {:induction false} NoneRead(env: Env, o: Order, t: Type, st: Stream)
    ensures ParseMany(env, o, t, 0, st) == GoodMany([], Drop(st, |EncodeAll(env, o, t, [])|))
  {
  }

  lemma {:induction false} PartsOf(env: Env, o: Order, ts: seq<Type>, vs: seq<Value>)
    requires !EndOf(ts) && HaveTypes(env, ts, vs) && AllFit(vs)
    ensures vs != [] && HasType(env, ts[0], vs[0]) && Fits(vs[0]) && HaveTypes(env, ts[1..], vs[1..]) && AllFit(vs[1..])
    ensures EncodeFields(env, o, ts, vs) == Encode(env, o, ts[0], vs[0]) + EncodeFields(env, o, ts[1..], vs[1..])
    ensures ValueSize(vs[0]) < ValuesSize(vs) && ValuesSize(vs[1..]) < ValuesSize(vs)
  {
    hide HasType, Encode, Fits, ValueSize;
  }

  lemma {:induction false} NoFieldsRead(env: Env, o: Order, ts: seq<Type>, vs: seq<Value>, st: Stream)
    requires EndOf(ts) && HaveTypes(env, ts, vs)
    ensures ParseFields(env, o, ts, st) == GoodMany(vs, Drop(st, |EncodeFields(env, o, ts, vs)|))
  {
  }

  lemma {:induction false} IntactFields(env: Env, o: Order, ts: seq<Type>, vs: seq<Value>, st: Stream, at: nat)
    requires HaveTypes(env, ts, vs) && AllFit(vs) && EncodeFields(env, o, ts, vs) <= Real(st)
    requires forall p :: p in Places(st, at) ==> !InFields(env, o, ts, vs, at, p)
    ensures ParseFields(env, o, ts, st) == GoodMany(vs, Drop(st, |EncodeFields(env, o, ts, vs)|))
    decreases ValuesSize(vs), TypesSize(ts)
  {
    hide *;
    if EndOf(ts) {
      NoFieldsRead(env, o, ts, vs, st);
    } else {
      PartsOf(env, o, ts, vs);
      SomeFields(ts);
      var e, more := Encode(env, o, ts[0], vs[0]), EncodeFields(env, o, ts[1..], vs[1..]);
      PartsBehind(e, more, st);
      var st', at' := Drop(st, |e|), at + |e|;
      UntornFields(env, o, ts, vs, st, at, e, st', at');
      Intact(env, o, ts[0], vs[0], st, at);
      IntactFields(env, o, ts[1..], vs[1..], st', at');
      FieldsStep(env, o, ts, st);
      DropDrop(st, |e|, |more|);
      assert vs == [vs[0]] + vs[1..];
    }
  }

  lemma SomeFields(ts: seq<Type>)
    requires !EndOf(ts)
    ensures ts != []
  {
  }

  // ---- Something torn: for some content of spare memory it does not -----------------------------------------

  /** The value was read. */
  predicate Returns(r: Parsed, v: Value) {
    r.Good? && r.value == v
  }

  predicate ReturnsAll(r: ParsedMany, vs: seq<Value>) {
    r.GoodMany? && r.values == vs
  }

  lemma {:induction false} MisledStr(env: Env, o: Order, v: Value, st: Stream, at: nat, p: nat) returns (st': Stream)
    requires HasType(env, Str, v) && Fits(v) && Encode(env, o, Str, v) <= Real(st) && p in Places(st, at) && InText(env, o, Str, v, at, p)
    ensures Respared(st, st') && !Returns(Parse(env, o, Str, st'), v)
  {
    var buf := v.buf;
    assert buf[..Short(|buf|)] == buf;
    PartsBehind([1], buf, st);
    var more, next := Drop(st, 1), at + 1;
    PlacesBehind(st, 1, at, more, next);
    hide Places, Real, Drop, Seen, StrSize;
    var tail := TextMisled(more, buf, next, p);
    st' := Graft(st, 1, tail);
    ResparedSame(st, st', 0);
  }

  lemma {:induction false} MisledNil(env: Env, o: Order, t: Type, v: Value, st: Stream, at: nat, p: nat) returns (st': Stream)
    requires t.NilBytes? && HasType(env, t, v) && Fits(v) && Encode(env, o, t, v) <= Real(st) && p in Places(st, at) && InText(env, o, t, v, at, p)
    ensures Respared(st, st') && !Returns(Parse(env, o, t, st'), v)
  {
    var buf := v.buf;
    assert buf[..Short(|buf|)] == buf;
    hide Places, Real, Drop, Seen, StrSize;
    st' := TextMisled(st, buf, at, p);
  }

  /** Behind a flag. */
  lemma {:induction false} MisledPointer(env: Env, o: Order, t: Type, v: Value, st: Stream, at: nat, p: nat) returns (st': Stream)
    requires t.Pointer? && HasType(env, t, v) && Fits(v) && Encode(env, o, t, v) <= Real(st) && p in Places(st, at) && InText(env, o, t, v, at, p)
    ensures Respared(st, st') && !Returns(Parse(env, o, t, st'), v)
    decreases ValueSize(v), TypeSize(t), 0
  {
    var c := env[t.child];
    var e := Encode(env, o, c, v.target);
    PartsBehind([1], e, st);
    var more, next := Drop(st, 1), at + 1;
    PlacesBehind(st, 1, at, more, next);
    InTextRange(env, o, c, v.target, next, p);
    hide Places, Real, Drop, Encode;
    var tail := Misled(env, o, c, v.target, more, next, p);
    st' := Graft(st, 1, tail);
    ResparedSame(st, st', 0);
  }

  /** Behind a count. */
  lemma {:induction false} MisledCounted(env: Env, o: Order, t: Type, v: Value, st: Stream, at: nat, p: nat) returns (st': Stream)
    requires (t.VarArray? || t.DynArray?) && HasType(env, t, v) && Fits(v) && Encode(env, o, t, v) <= Real(st)
    requires p in Places(st, at) && InText(env, o, t, v, at, p)
    ensures Respared(st, st') && !Returns(Parse(env, o, t, st'), v)
    decreases ValueSize(v), TypeSize(t), 0
  {
    var c := if t.VarArray? then t.elem else env[t.child];
    var e := EncodeAll(env, o, c, v.items);
    CountRead(o, |v.items|, e, st);
    var more, next := Drop(st, 2), at + 2;
    PlacesBehind(st, 2, at, more, next);
    assert InAll(env, o, c, v.items, next, p);
    InAllRange(env, o, c, v.items, next, p);
    assert v.items != [];
    hide Places, Real, Drop, EncodeAll, PutNum, GetNum, ParseMany, InAll, AllHaveType;
    var tail := MisledAll(env, o, c, v.items, more, next, p);
    st' := Graft(st, 2, tail);
    ResparedSame(st, st', 0);
  }

  /** An empty piece in a string: some content of its memory keeps the value from coming back. */
  lemma {:induction false} Misled(env: Env, o: Order, t: Type, v: Value, st: Stream, at: nat, p: nat) returns (st': Stream)
    requires HasType(env, t, v) && Fits(v) && Encode(env, o, t, v) <= Real(st) && p in Places(st, at) && InText(env, o, t, v, at, p)
    ensures Respared(st, st') && !Returns(Parse(env, o, t, st'), v)
    decreases ValueSize(v), TypeSize(t)
  {
    st' := st;
    match t
    case Pointer(c) => st' := MisledPointer(env, o, t, v, st, at, p);
    case Reference(c) => st' := Misled(env, o, c, v, st, at, p);
    case Str => st' := MisledStr(env, o, v, st, at, p);
    case NilBytes(_) => st' := MisledNil(env, o, t, v, st, at, p);
    case Struct(fs) => st' := MisledFields(env, o, fs, v.items, st, at, p);
    case FixedArray(_, c) => st' := MisledAll(env, o, c, v.items, st, at, p);
    case VarArray(_, _) => st' := MisledCounted(env, o, t, v, st, at, p);
    case DynArray(_) => st' := MisledCounted(env, o, t, v, st, at, p);
    case _ => assert false;
  }

  lemma {:induction false} FirstWrong(env: Env, o: Order, t: Type, vs: seq<Value>, st: Stream)
    requires vs != [] && !Returns(Parse(env, o, t, st), vs[0])
    ensures !ReturnsAll(ParseMany(env, o, t, |vs|, st), vs)
  {
    hide Parse;
  }

  lemma {:induction false} OthersWrong(env: Env, o: Order, t: Type, vs: seq<Value>, st: Stream, rest: Stream)
    requires vs != [] && Parse(env, o, t, st) == Good(vs[0], rest) && !ReturnsAll(ParseMany(env, o, t, |vs| - 1, rest), vs[1..])
    ensures !ReturnsAll(ParseMany(env, o, t, |vs|, st), vs)
  {
    ManyStep(env, o, t, |vs|, st);
    var more := ParseMany(env, o, t, |vs| - 1, rest);
    hide Parse, ParseMany;
    if more.GoodMany? {
      assert ([vs[0]] + more.values)[1..] == more.values;
    }
  }

  lemma {:induction false} MisledAll(env: Env, o: Order, t: Type, vs: seq<Value>, st: Stream, at: nat, p: nat) returns (st': Stream)
    requires AllHaveType(env, t, vs) && AllFit(vs) && EncodeAll(env, o, t, vs) <= Real(st) && p in Places(st, at) && InAll(env, o, t, vs, at, p)
    ensures Respared(st, st') && !ReturnsAll(ParseMany(env, o, t, |vs|, st'), vs)
    decreases ValuesSize(vs), TypeSize(t)
  {
    assert vs != [];
    hide *;
    AllStep(env, o, t, vs);
    var e, more := Encode(env, o, t, vs[0]), EncodeAll(env, o, t, vs[1..]);
    PartsBehind(e, more, st);
    var tail, at' := Drop(st, |e|), at + |e|;
    InAllStep(env, o, t, vs, at, p, at');
    if q :| q in Places(st, at) && InText(env, o, t, vs[0], at, q) {
      st' := Misled(env, o, t, vs[0], st, at, q);
      FirstWrong(env, o, t, vs, st');
    } else {
      PlacesBehind(st, |e|, at, tail, at');
      InAllRange(env, o, t, vs[1..], at', p);
      tail := MisledAll(env, o, t, vs[1..], tail, at', p);
      st' := Graft(st, |e|, tail);
      ResparedSame(st, st', at);
      ToUntorn(env, o, t, vs[0], st', at);
      Intact(env, o, t, vs[0], st', at);
      OthersWrong(env, o, t, vs, st', tail);
    }
  }

  lemma {:induction false} ToUntorn(env: Env, o: Order, t: Type, v: Value, st: Stream, at: nat)
    requires HasType(env, t, v) && forall q :: q in Places(st, at) ==> !InText(env, o, t, v, at, q)
    ensures Untorn(env, o, t, v, st, at)
  {
    hide InText, Places, HasType;
  }

  lemma {:induction false} FirstFieldWrong(env: Env, o: Order, ts: seq<Type>, vs: seq<Value>, st: Stream)
    requires !EndOf(ts) && vs != [] && !Returns(Parse(env, o, ts[0], st), vs[0])
    ensures !ReturnsAll(ParseFields(env, o, ts, st), vs)
  {
    hide Parse;
  }

  lemma {:induction false} OtherFieldsWrong(env: Env, o: Order, ts: seq<Type>, vs: seq<Value>, st: Stream, rest: Stream)
    requires !EndOf(ts) && vs != [] && Parse(env, o, ts[0], st) == Good(vs[0], rest) && !ReturnsAll(ParseFields(env, o, ts[1..], rest), vs[1..])
    ensures !ReturnsAll(ParseFields(env, o, ts, st), vs)
  {
    FieldsStep(env, o, ts, st);
    var more := ParseFields(env, o, ts[1..], rest);
    hide Parse, ParseFields;
    if more.GoodMany? {
      assert ([vs[0]] + more.values)[1..] == more.values;
    }
  }

  lemma {:induction false} InFieldsStep(env: Env, o: Order, ts: seq<Type>, vs: seq<Value>, at: nat, p: nat, at': nat)
    requires !EndOf(ts) && HaveTypes(env, ts, vs) && at' == at + |Encode(env, o, ts[0], vs[0])|
    ensures InFields(env, o, ts, vs, at, p) <==> InText(env, o, ts[0], vs[0], at, p) || InFields(env, o, ts[1..], vs[1..], at', p)
  {
    hide InText, Encode, HasType;
  }

  lemma {:induction false} MisledFields(env: Env, o: Order, ts: seq<Type>, vs: seq<Value>, st: Stream, at: nat, p: nat) returns (st': Stream)
    requires HaveTypes(env, ts, vs) && AllFit(vs) && EncodeFields(env, o, ts, vs) <= Real(st) && p in Places(st, at) && InFields(env, o, ts, vs, at, p)
    ensures Respared(st, st') && !ReturnsAll(ParseFields(env, o, ts, st'), vs)
    decreases ValuesSize(vs), TypesSize(ts)
  {
    assert !EndOf(ts);
    hide *;
    PartsOf(env, o, ts, vs);
    var e, more := Encode(env, o, ts[0], vs[0]), EncodeFields(env, o, ts[1..], vs[1..]);
    PartsBehind(e, more, st);
    var tail, at' := Drop(st, |e|), at + |e|;
    InFieldsStep(env, o, ts, vs, at, p, at');
    if q :| q in Places(st, at) && InText(env, o, ts[0], vs[0], at, q) {
      st' := Misled(env, o, ts[0], vs[0], st, at, q);
      FirstFieldWrong(env, o, ts, vs, st');
    } else {
      PlacesBehind(st, |e|, at, tail, at');
      InFieldsRange(env, o, ts[1..], vs[1..], at', p);
      tail := MisledFields(env, o, ts[1..], vs[1..], tail, at', p);
      st' := Graft(st, |e|, tail);
      ResparedSame(st, st', at);
      ToUntorn(env, o, ts[0], vs[0], st', at);
      Intact(env, o, ts[0], vs[0], st', at);
      OtherFieldsWrong(env, o, ts, vs, st', tail);
    }
  }

  // ---- Strings that are too long ----------------------------------------------------------------------------

  lemma {:induction false} ParsedFits(env: Env, o: Order, t: Type, st: Stream)
    requires Parse(env, o, t, st).Good?
    ensures Fits(Parse(env, o, t, st).value)
    decreases |Real(st)|, TypeSize(t), 0
  {
    match t
    case Pointer(c) =>
      if Real(st)[0] != 0 {
        ParsedFits(env, o, env[c], Drop(st, 1));
      }
    case Reference(c) => ParsedFits(env, o, c, st);
    case Struct(fs) => ParsedFieldsFit(env, o, fs, st);
    case FixedArray(n, c) => ParsedManyFit(env, o, c, n, st);
    case VarArray(_, c) => ParsedManyFit(env, o, c, GetNum(o, Real(st)[..2]), Drop(st, 2));
    case DynArray(c) =>
      if GetNum(o, Real(st)[..2]) != 0 {
        ParsedManyFit(env, o, env[c], GetNum(o, Real(st)[..2]), Drop(st, 2));
      }
    case _ =>
  }

  lemma {:induction false} ParsedManyFit(env: Env, o: Order, t: Type, n: nat, st: Stream)
    requires ParseMany(env, o, t, n, st).GoodMany?
    ensures AllFit(ParseMany(env, o, t, n, st).values)
    decreases |Real(st)|, TypeSize(t), n + 1
  {
    if n > 0 {
      ManyGood(env, o, t, n, st);
      hide *;
      ParsedFits(env, o, t, st);
      ParsedManyFit(env, o, t, n - 1, Parse(env, o, t, st).rest);
      FitsMore(Parse(env, o, t, st).value, ParseMany(env, o, t, n - 1, Parse(env, o, t, st).rest).values);
    }
  }

  lemma {:induction false} ManyGood(env: Env, o: Order, t: Type, n: nat, st: Stream)
    requires n > 0 && ParseMany(env, o, t, n, st).GoodMany?
    ensures var d := Parse(env, o, t, st);
      d.Good? && |Real(d.rest)| <= |Real(st)| && var more := ParseMany(env, o, t, n - 1, d.rest);
      more.GoodMany? && ParseMany(env, o, t, n, st).values == [d.value] + more.values
  {
    hide Parse, Real;
  }

  lemma {:induction false} FitsMore(v: Value, vs: seq<Value>)
    requires Fits(v) && AllFit(vs)
    ensures AllFit([v] + vs)
  {
    assert ([v] + vs)[1..] == vs;
    hide Fits;
  }

  lemma {:induction false} ParsedFieldsFit(env: Env, o: Order, ts: seq<Type>, st: Stream)
    requires ParseFields(env, o, ts, st).GoodMany?
    ensures AllFit(ParseFields(env, o, ts, st).values)
    decreases |Real(st)|, TypesSize(ts), 0
  {
    if !EndOf(ts) {
      FieldsGood(env, o, ts, st);
      hide Parse, ParseFields, Real, Fits, AllFit;
      ParsedFits(env, o, ts[0], st);
      ParsedFieldsFit(env, o, ts[1..], Parse(env, o, ts[0], st).rest);
      FitsMore(Parse(env, o, ts[0], st).value, ParseFields(env, o, ts[1..], Parse(env, o, ts[0], st).rest).values);
    }
  }

  lemma {:induction false} FieldsGood(env: Env, o: Order, ts: seq<Type>, st: Stream)
    requires !EndOf(ts) && ParseFields(env, o, ts, st).GoodMany?
    ensures var d := Parse(env, o, ts[0], st);
      d.Good? && |Real(d.rest)| <= |Real(st)| && var more := ParseFields(env, o, ts[1..], d.rest);
      more.GoodMany? && ParseFields(env, o, ts, st).values == [d.value] + more.values
  {
    hide Parse, Real;
  }

  lemma {:induction false} ReturnsIf(env: Env, o: Order, t: Type, v: Value, st: Stream, other: Stream)
    requires HasType(env, t, v) && Encode(env, o, t, v) <= Real(st) && Fits(v) && Untorn(env, o, t, v, st, 0) && Respared(st, other)
    ensures Returns(Parse(env, o, t, other), v)
  {
    hide Parse, Encode, HasType, InText, Places, Fits, Real, Drop, Respared;
    ResparedSame(st, other, 0);
    Intact(env, o, t, v, other, 0);
  }

  lemma {:induction false} ReturnsOnlyIf(env: Env, o: Order, t: Type, v: Value, st: Stream) returns (other: Stream)
    requires HasType(env, t, v) && Encode(env, o, t, v) <= Real(st) && !(Fits(v) && Untorn(env, o, t, v, st, 0))
    ensures Respared(st, other) && !Returns(Parse(env, o, t, other), v)
  {
    hide Parse, Encode, HasType, InText, Places, Fits, Real, Drop;
    other := st;
    if !Fits(v) {
      if Parse(env, o, t, st).Good? {
        ParsedFits(env, o, t, st);
      }
    } else {
      var p :| p in Places(st, 0) && InText(env, o, t, v, 0, p);
      other := Misled(env, o, t, v, st, 0, p);
    }
  }

  /**
   A value whose encoding begins the stream comes back whatever the memory of empty pieces holds
   exactly if its strings fit, and no empty piece lies between the byte before a string and its NUL.
   */
  lemma {:induction false} ReturnsExactly(env: Env, o: Order, t: Type, v: Value, st: Stream)
    requires HasType(env, t, v) && Encode(env, o, t, v) <= Real(st)
    ensures (forall other :: Respared(st, other) ==> Returns(Parse(env, o, t, other), v)) <==> Fits(v) && Untorn(env, o, t, v, st, 0)
  {
    hide *;
    if Fits(v) && Untorn(env, o, t, v, st, 0) {
      forall other | Respared(st, other) ensures Returns(Parse(env, o, t, other), v) {
        ReturnsIf(env, o, t, v, st, other);
      }
    } else {
      var other := ReturnsOnlyIf(env, o, t, v, st);
      assert Respared(st, other) && !Returns(Parse(env, o, t, other), v);
    }
  }

  // ---- Without empty pieces, or with them only at the end: the flat decoder -------------------------------------

  /** Only empty pieces. */
  ghost predicate Hollow(st: Stream) {
    forall i :: 0 <= i < |st| ==> st[i].Gap?
  }

  lemma {:induction false} HollowReal(b: seq<Byte>, junk: Stream)
    requires Hollow(junk)
    ensures Real(Smooth(b) + junk) == b && Seen(Smooth(b) + junk) == b + Seen(junk)
  {
    RealAppend(Smooth(b), junk);
    SmoothFacts(b);
    NothingReal(junk);
    hide Real, Seen, Smooth;
    assert b + [] == b;
  }

  lemma {:induction false} NothingReal(junk: Stream)
    requires Hollow(junk)
    ensures Real(junk) == []
  {
    if junk != [] {
      NothingReal(junk[1..]);
    }
  }

  /** A stream result is that of the flat decoder; where that fails, if there is no empty piece at all. */
  ghost predicate Matches(d: Result, r: Parsed, junk: Stream) {
    (d.Got? ==> r == Good(d.value, Smooth(d.rest) + junk)) && (d.Fail? && junk == [] ==> r.Bad?)
  }

  ghost predicate MatchesMany(d: Results, r: ParsedMany, junk: Stream) {
    (d.GotMany? ==> r == GoodMany(d.values, Smooth(d.rest) + junk)) && (d.FailMany? && junk == [] ==> r.BadMany?)
  }

  lemma {:induction false} TextAsFlat(b: seq<Byte>, junk: Stream)
    requires Hollow(junk)
    ensures StrSize(b) > 0 || junk == [] ==> StrSize(Seen(Smooth(b) + junk)) == StrSize(b)
  {
    HollowReal(b, junk);
    hide Real, Smooth;
    if StrSize(b) > 0 {
      StrSizeMore(b, Seen(junk));
    } else if junk == [] {
      assert b + [] == b;
    }
  }

  lemma {:induction false} AsFlat(env: Env, o: Order, t: Type, b: seq<Byte>, junk: Stream)
    requires Hollow(junk)
    ensures Matches(Decode(env, o, t, b), Parse(env, o, t, Smooth(b) + junk), junk)
    decreases |b|, TypeSize(t), 0
  {
    if t.Str? {
      StrAsFlat(env, o, b, junk);
    } else if t.NilBytes? {
      NilAsFlat(env, o, t, b, junk);
    } else if IsLeaf(t) {
      PlainAsFlat(env, o, t, b, junk);
    } else if t.Pointer? {
      if b != [] && b[0] != 0 && t.child in env {
        AsFlat(env, o, env[t.child], b[1..], junk);
      }
      PointerAsFlat(env, o, t, b, junk);
    } else if t.VarArray? || t.DynArray? {
      var c := if t.VarArray? then t.elem else if t.child in env then env[t.child] else Void;
      if |b| >= 2 {
        AsFlatMany(env, o, c, GetNum(o, b[..2]), b[2..], junk);
      }
      CountedAsFlat(env, o, t, c, b, junk);
    } else if t.Reference? {
      AsFlat(env, o, t.target, b, junk);
    } else if t.Struct? {
      AsFlatFields(env, o, t.fields, b, junk);
    } else {
      AsFlatMany(env, o, t.elem, t.size, b, junk);
    }
  }

  lemma {:induction false} PointerAsFlat(env: Env, o: Order, t: Type, b: seq<Byte>, junk: Stream)
    requires Hollow(junk) && t.Pointer?
    requires b != [] && b[0] != 0 && t.child in env ==>
      Matches(Decode(env, o, env[t.child], b[1..]), Parse(env, o, env[t.child], Smooth(b[1..]) + junk), junk)
    ensures Matches(Decode(env, o, t, b), Parse(env, o, t, Smooth(b) + junk), junk)
  {
    hide Real, Smooth, Drop, Hollow, Seen, StrSize, GetNum;
    HollowReal(b, junk);
    if b != [] {
      DropSmooth(b, 1, junk);
    }
  }

  lemma {:induction false} CountedAsFlat(env: Env, o: Order, t: Type, c: Type, b: seq<Byte>, junk: Stream)
    requires Hollow(junk) && (t.VarArray? || t.DynArray?) && (t.VarArray? ==> c == t.elem) && (t.DynArray? && t.child in env ==> c == env[t.child])
    requires |b| >= 2 ==>
      var n := GetNum(o, b[..2]); MatchesMany(DecodeMany(env, o, c, n, b[2..]), ParseMany(env, o, c, n, Smooth(b[2..]) + junk), junk)
    ensures Matches(Decode(env, o, t, b), Parse(env, o, t, Smooth(b) + junk), junk)
  {
    hide Real, Smooth, Drop, Hollow, GetNum, DecodeMany, ParseMany, Seen, StrSize;
    HollowReal(b, junk);
    if |b| >= 2 {
      DropSmooth(b, 2, junk);
    }
  }

  lemma {:induction false} PlainAsFlat(env: Env, o: Order, t: Type, b: seq<Byte>, junk: Stream)
    requires Hollow(junk) && IsLeaf(t) && !t.Str? && !t.NilBytes?
    ensures Matches(Decode(env, o, t, b), Parse(env, o, t, Smooth(b) + junk), junk)
  {
    hide Parse, Decode, Real, Smooth, Drop, Hollow, Seen;
    HollowReal(b, junk);
    LeafAsFlat(env, o, t, Smooth(b) + junk);
    if Decode(env, o, t, b).Got? {
      LeafRest(env, o, t, b);
      DropSmooth(b, |b| - |Decode(env, o, t, b).rest|, junk);
    }
  }

  lemma {:induction false} LeafRest(env: Env, o: Order, t: Type, b: seq<Byte>)
    requires IsLeaf(t) && !t.Str? && !t.NilBytes? && Decode(env, o, t, b).Got?
    ensures var rest := Decode(env, o, t, b).rest; |rest| <= |b| && rest == b[|b| - |rest|..]
  {
    hide Decode, GetNum;
    if t.VarBytes? || t.DynBytes? {
      CountedRest(env, o, t, b);
      TailTail(b, 2, GetNum(o, b[..2]));
    } else {
      SimpleRest(env, o, t, b);
    }
  }

  lemma {:induction false} SimpleRest(env: Env, o: Order, t: Type, b: seq<Byte>)
    requires (t.Void? || t.Number? || t.Address? || t.FixedBytes?) && Decode(env, o, t, b).Got?
    ensures var rest := Decode(env, o, t, b).rest; |rest| <= |b| && rest == b[|b| - |rest|..]
  {
    hide GetNum, StrSize, DecodeMany, DecodeFields, Short, Pow256;
  }

  lemma {:induction false} CountedRest(env: Env, o: Order, t: Type, b: seq<Byte>)
    requires (t.VarBytes? || t.DynBytes?) && Decode(env, o, t, b).Got?
    ensures |b| >= 2 && var n := GetNum(o, b[..2]); 2 + n <= |b| && Decode(env, o, t, b).rest == b[2..][n..]
  {
    hide GetNum, StrSize, DecodeMany, DecodeFields, Short, Pow256;
  }

  lemma TailTail(b: seq<Byte>, i: nat, n: nat)
    requires i + n <= |b|
    ensures b[i..][n..] == b[i + n..] && b[i + n..] == b[|b| - |b[i..][n..]|..]
  {
  }

  lemma {:induction false} StrAsFlat(env: Env, o: Order, b: seq<Byte>, junk: Stream)
    requires Hollow(junk)
    ensures Matches(Decode(env, o, Str, b), Parse(env, o, Str, Smooth(b) + junk), junk)
  {
    hide Real, Smooth, Drop, Seen, StrSize, CopyText, Hollow, Short;
    HollowReal(b, junk);
    if b != [] {
      DropSmooth(b, 1, junk);
      HollowReal(b[1..], junk);
      TextAsFlat(b[1..], junk);
      CopyAsFlat(b[1..], junk);
    }
  }

  lemma {:induction false} CopyAsFlat(b: seq<Byte>, junk: Stream)
    requires Hollow(junk)
    ensures var size := StrSize(b);
      CopyText(Smooth(b) + junk, size) == if size == 0 then Bad else Good(Text(b[..Short(size)]), Smooth(b[Short(size)..]) + junk)
  {
    hide Real, Smooth, Drop, Seen, StrSize, Hollow;
    HollowReal(b, junk);
    DropSmooth(b, Short(StrSize(b)), junk);
  }

  lemma {:induction false} NilAsFlat(env: Env, o: Order, t: Type, b: seq<Byte>, junk: Stream)
    requires t.NilBytes? && Hollow(junk)
    ensures Matches(Decode(env, o, t, b), Parse(env, o, t, Smooth(b) + junk), junk)
  {
    hide Real, Smooth, Drop, Seen, StrSize, CopyText, Hollow, Short;
    TextAsFlat(b, junk);
    CopyAsFlat(b, junk);
  }

  lemma {:induction false} AsFlatMany(env: Env, o: Order, t: Type, n: nat, b: seq<Byte>, junk: Stream)
    requires Hollow(junk)
    ensures MatchesMany(DecodeMany(env, o, t, n, b), ParseMany(env, o, t, n, Smooth(b) + junk), junk)
    decreases |b|, TypeSize(t), n + 1
  {
    hide *;
    if n == 0 {
      NoneAsFlat(env, o, t, b, junk);
    } else {
      AsFlat(env, o, t, b, junk);
      if Decode(env, o, t, b).Got? {
        AsFlatMany(env, o, t, n - 1, Decode(env, o, t, b).rest, junk);
      }
      ManyAsFlat(env, o, t, n, b, junk);
    }
  }

  lemma {:induction false} NoneAsFlat(env: Env, o: Order, t: Type, b: seq<Byte>, junk: Stream)
    ensures MatchesMany(DecodeMany(env, o, t, 0, b), ParseMany(env, o, t, 0, Smooth(b) + junk), junk)
  {
    hide Smooth;
  }

  lemma {:induction false} ManyAsFlat(env: Env, o: Order, t: Type, n: nat, b: seq<Byte>, junk: Stream)
    requires n > 0 && Matches(Decode(env, o, t, b), Parse(env, o, t, Smooth(b) + junk), junk)
    requires var d := Decode(env, o, t, b);
      d.Got? ==> MatchesMany(DecodeMany(env, o, t, n - 1, d.rest), ParseMany(env, o, t, n - 1, Smooth(d.rest) + junk), junk)
    ensures MatchesMany(DecodeMany(env, o, t, n, b), ParseMany(env, o, t, n, Smooth(b) + junk), junk)
  {
    hide Decode, Parse, Smooth;
  }

  lemma {:induction false} AsFlatFields(env: Env, o: Order, ts: seq<Type>, b: seq<Byte>, junk: Stream)
    requires Hollow(junk)
    ensures MatchesMany(DecodeFields(env, o, ts, b), ParseFields(env, o, ts, Smooth(b) + junk), junk)
    decreases |b|, TypesSize(ts), 0
  {
    if !EndOf(ts) {
      hide Decode, Parse, Smooth, DecodeFields, ParseFields, MatchesMany, Matches;
      AsFlat(env, o, ts[0], b, junk);
      if Decode(env, o, ts[0], b).Got? {
        AsFlatFields(env, o, ts[1..], Decode(env, o, ts[0], b).rest, junk);
      }
      FieldsAsFlat(env, o, ts, b, junk);
    }
  }

  lemma {:induction false} FieldsAsFlat(env: Env, o: Order, ts: seq<Type>, b: seq<Byte>, junk: Stream)
    requires !EndOf(ts) && Matches(Decode(env, o, ts[0], b), Parse(env, o, ts[0], Smooth(b) + junk), junk)
    requires var d := Decode(env, o, ts[0], b);
      d.Got? ==> MatchesMany(DecodeFields(env, o, ts[1..], d.rest), ParseFields(env, o, ts[1..], Smooth(d.rest) + junk), junk)
    ensures MatchesMany(DecodeFields(env, o, ts, b), ParseFields(env, o, ts, Smooth(b) + junk), junk)
  {
    hide Decode, Parse, Smooth;
  }
}

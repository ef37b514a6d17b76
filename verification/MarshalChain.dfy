/** _____marshal and _____unmarshal over a chain of packet buffers. */
module MarshalChain {
  import opened Common
  import opened Marshal
  import opened PsBuff
  import opened ChainStream
  import opened StreamCodec
  import opened ChainPlaces

  /** The chain takes more bytes behind those written. */
  ghost predicate Ready(chain: Chain)
    reads chain
  {
    chain.Writing(false)
  }

  /** The chain can be read from where it stands. */
  ghost predicate Loaded(chain: Chain)
    reads chain
  {
    chain.Valid()
  }

  /** `k` bytes of `e` were appended: all of them, unless memory ran out. */
  ghost predicate Wrote(was: seq<Byte>, now: seq<Byte>, e: seq<Byte>, k: nat, ok: bool, memory: nat) {
    && k <= |e| && now == was + e[..k]
    && if ok then k == |e| else k < |e| && memory == 0
  }

  lemma WroteMore(was: seq<Byte>, mid: seq<Byte>, now: seq<Byte>, a: seq<Byte>, b: seq<Byte>, k: nat, ok: bool, memory: nat)
    requires mid == was + a && Wrote(mid, now, b, k, ok, memory)
    ensures Wrote(was, now, a + b, |a| + k, ok, memory)
  {
    assert (a + b)[..|a| + k] == a + b[..k];
  }

  lemma WroteLess(was: seq<Byte>, now: seq<Byte>, a: seq<Byte>, b: seq<Byte>, k: nat, memory: nat)
    requires Wrote(was, now, a, k, false, memory)
    ensures Wrote(was, now, a + b, k, false, memory)
  {
    assert (a + b)[..k] == a[..k];
  }

  lemma WroteAll(was: seq<Byte>, now: seq<Byte>, e: seq<Byte>, k: nat, memory: nat)
    requires Wrote(was, now, e, k, true, memory)
    ensures now == was + e && k == |e|
  {
    assert e[..|e|] == e;
  }

  method PutAll(chain: Chain, e: seq<Byte>) returns (ok: bool, ghost k: nat)
    requires Ready(chain)
    modifies chain`segs, chain`at, chain`memory
    ensures Ready(chain) && Wrote(old(Sent(chain)), Sent(chain), e, k, ok, chain.memory)
  {
    ok, k := chain.PutBytes(e);
  }

  method PutTwo(chain: Chain, a: seq<Byte>, b: seq<Byte>) returns (ok: bool, ghost k: nat)
    requires Ready(chain)
    modifies chain`segs, chain`at, chain`memory
    ensures Ready(chain) && Wrote(old(Sent(chain)), Sent(chain), a + b, k, ok, chain.memory)
  {
    hide Ready, Wrote;
    ghost var was := Sent(chain);
    ok, k := PutAll(chain, a);
    ghost var mid := Sent(chain);
    if !ok {
      WroteLess(was, mid, a, b, k, chain.memory);
      return;
    }
    WroteAll(was, mid, a, k, chain.memory);
    ghost var j;
    ok, j := PutAll(chain, b);
    WroteMore(was, mid, Sent(chain), a, b, j, ok, chain.memory);
    k := |a| + j;
  }

  /** The bytes of the message in work. */
  ghost function Sent(chain: Chain): seq<Byte>
    reads chain
    requires Ready(chain)
  {
    chain.Written()
  }

  // ---- Writing -----------------------------------------------------------------------------

  /** What an element-by-element writer has still to write. */
  lemma EncodeNext(env: Env, o: Order, t: Type, vs: seq<Value>, i: nat)
    requires i < |vs| && AllHaveType(env, t, vs[i..])
    ensures HasType(env, t, vs[i]) && AllHaveType(env, t, vs[i + 1..])
    ensures EncodeAll(env, o, t, vs[i..]) == Encode(env, o, t, vs[i]) + EncodeAll(env, o, t, vs[i + 1..])
    ensures ValueSize(vs[i]) < ValuesSize(vs[i..]) && ValuesSize(vs[i + 1..]) < ValuesSize(vs[i..])
  {
    assert vs[i..][1..] == vs[i + 1..] && vs[i..][0] == vs[i];
    AllStep(env, o, t, vs[i..]);
    hide HasType, Encode, AllHaveType, EncodeAll, ValueSize, ValuesSize;
  }

  lemma FieldsNext(env: Env, o: Order, ts: seq<Type>, vs: seq<Value>, i: nat)
    requires i <= |ts| && i <= |vs| && HaveTypes(env, ts[i..], vs[i..]) && !(i == |ts| || ts[i].Void?)
    ensures i < |vs| && HasType(env, ts[i], vs[i]) && HaveTypes(env, ts[i + 1..], vs[i + 1..])
    ensures EncodeFields(env, o, ts[i..], vs[i..]) == Encode(env, o, ts[i], vs[i]) + EncodeFields(env, o, ts[i + 1..], vs[i + 1..])
    ensures ValueSize(vs[i]) < ValuesSize(vs[i..]) && ValuesSize(vs[i + 1..]) < ValuesSize(vs[i..])
  {
    assert ts[i..][1..] == ts[i + 1..];
    assert i < |vs| ==> vs[i..][1..] == vs[i + 1..];
  }

  /** One element more, or the end of memory. */
  lemma WroteNext(was: seq<Byte>, mid: seq<Byte>, now: seq<Byte>, done: seq<Byte>, e: seq<Byte>, more: seq<Byte>, j: nat, ok: bool, memory: nat)
    requires mid == was + done && Wrote(mid, now, e, j, ok, memory)
    ensures !ok ==> Wrote(was, now, done + (e + more), |done| + j, false, memory)
    ensures ok ==> now == was + (done + e) && done + (e + more) == (done + e) + more
  {
    if ok {
      WroteAll(mid, now, e, j, memory);
    } else {
      WroteLess(mid, now, e, more, j, memory);
      WroteMore(was, mid, now, done, e + more, j, ok, memory);
    }
  }

  lemma WroteDone(was: seq<Byte>, now: seq<Byte>, done: seq<Byte>, memory: nat)
    requires now == was + done
    ensures Wrote(was, now, done + [], |done|, true, memory)
  {
    assert done + [] == done && done[..|done|] == done;
  }

  /** `done` of the encoding of `vs` is written, and elements from `i` on are to come. */
  ghost predicate Halfway(env: Env, o: Order, t: Type, vs: seq<Value>, i: nat, done: seq<Byte>) {
    && i <= |vs| && AllHaveType(env, t, vs) && AllHaveType(env, t, vs[i..]) && ValuesSize(vs[i..]) <= ValuesSize(vs)
    && EncodeAll(env, o, t, vs) == done + EncodeAll(env, o, t, vs[i..])
  }

  lemma HalfwayStart(env: Env, o: Order, t: Type, vs: seq<Value>)
    requires AllHaveType(env, t, vs)
    ensures Halfway(env, o, t, vs, 0, [])
  {
    hide AllHaveType, EncodeAll, ValuesSize;
    assert vs[0..] == vs;
    assert EncodeAll(env, o, t, vs) == [] + EncodeAll(env, o, t, vs);
  }

  lemma HalfwayNext(env: Env, o: Order, t: Type, vs: seq<Value>, i: nat, done: seq<Byte>)
    requires Halfway(env, o, t, vs, i, done) && i < |vs|
    ensures HasType(env, t, vs[i]) && ValueSize(vs[i]) < ValuesSize(vs)
    ensures var e := Encode(env, o, t, vs[i]); Halfway(env, o, t, vs, i + 1, done + e)
    ensures exists more :: EncodeAll(env, o, t, vs) == done + (Encode(env, o, t, vs[i]) + more)
  {
    EncodeNext(env, o, t, vs, i);
    hide EncodeAll, Encode, HasType, AllHaveType, ValueSize, ValuesSize;
    var e, more := Encode(env, o, t, vs[i]), EncodeAll(env, o, t, vs[i + 1..]);
    assert done + (e + more) == (done + e) + more;
  }

  /** The loop over elements: those before `i` are in the chain, behind `was`. */
  ghost predicate Sending(env: Env, o: Order, t: Type, vs: seq<Value>, i: nat, was: seq<Byte>, now: seq<Byte>, len: nat) {
    was <= now && len == |now| - |was| && Halfway(env, o, t, vs, i, now[|was|..])
  }

  lemma SendingStart(env: Env, o: Order, t: Type, vs: seq<Value>, was: seq<Byte>)
    requires AllHaveType(env, t, vs)
    ensures Sending(env, o, t, vs, 0, was, was, 0)
  {
    hide AllHaveType, EncodeAll, Halfway;
    HalfwayStart(env, o, t, vs);
    assert was[|was|..] == [];
  }

  lemma SendingElem(env: Env, o: Order, t: Type, vs: seq<Value>, i: nat, was: seq<Byte>, now: seq<Byte>, len: nat)
    requires Sending(env, o, t, vs, i, was, now, len) && i < |vs|
    ensures HasType(env, t, vs[i]) && ValueSize(vs[i]) < ValuesSize(vs)
  {
    hide Halfway, HasType, ValueSize, ValuesSize, Encode, EncodeAll;
    HalfwayNext(env, o, t, vs, i, now[|was|..]);
  }

  lemma SendingNext(env: Env, o: Order, t: Type, vs: seq<Value>, i: nat, was: seq<Byte>, now: seq<Byte>, len: nat,
                    now': seq<Byte>, j: nat, ok: bool, memory: nat, n: nat)
    requires Sending(env, o, t, vs, i, was, now, len) && i < |vs| && AllHaveType(env, t, vs) && HasType(env, t, vs[i])
    requires Wrote(now, now', Encode(env, o, t, vs[i]), j, ok, memory) && (ok ==> n == |Encode(env, o, t, vs[i])|)
    ensures if ok then Sending(env, o, t, vs, i + 1, was, now', len + n) else Wrote(was, now', EncodeAll(env, o, t, vs), len + j, false, memory)
  {
    var done, e := now[|was|..], Encode(env, o, t, vs[i]);
    hide Halfway, HasType, AllHaveType, ValueSize, ValuesSize, Encode, EncodeAll, Wrote;
    HalfwayNext(env, o, t, vs, i, done);
    var more :| EncodeAll(env, o, t, vs) == done + (e + more);
    assert now == was + done;
    WroteNext(was, now, now', done, e, more, j, ok, memory);
    if ok {
      assert now'[|was|..] == done + e;
    }
  }

  lemma SendingEnd(env: Env, o: Order, t: Type, vs: seq<Value>, was: seq<Byte>, now: seq<Byte>, len: nat, memory: nat)
    requires Sending(env, o, t, vs, |vs|, was, now, len)
    ensures AllHaveType(env, t, vs) && Wrote(was, now, EncodeAll(env, o, t, vs), len, true, memory) && len == |EncodeAll(env, o, t, vs)|
  {
    var done := now[|was|..];
    hide Halfway, AllHaveType, EncodeAll, Wrote;
    AllWritten(env, o, t, vs, |vs|, done);
    assert now == was + done && done + [] == done;
    WroteDone(was, now, done, memory);
  }

  method MarshalAll(chain: Chain, env: Env, o: Order, t: Type, vs: seq<Value>) returns (ok: bool, len: nat, ghost k: nat)
    requires Ready(chain) && AllHaveType(env, t, vs)
    modifies chain`segs, chain`at, chain`memory
    ensures Ready(chain) && Wrote(old(Sent(chain)), Sent(chain), EncodeAll(env, o, t, vs), k, ok, chain.memory)
    ensures ok ==> len == |EncodeAll(env, o, t, vs)|
    decreases ValuesSize(vs), TypeSize(t), 1
  {
    hide *;
    ghost var was := Sent(chain);
    SendingStart(env, o, t, vs, was);
    var i := 0;
    len, ok, k := 0, true, 0;
    while ok && i < |vs|
      invariant 0 <= i <= |vs| && Ready(chain)
      invariant if ok then Sending(env, o, t, vs, i, was, Sent(chain), len) else Wrote(was, Sent(chain), EncodeAll(env, o, t, vs), k, false, chain.memory)
      decreases |vs| - i, ok
    {
      ghost var now, j := Sent(chain), 0;
      SendingElem(env, o, t, vs, i, was, now, len);
      var n;
      ok, n, j := MarshalTo(chain, env, o, t, vs[i]);
      SendingNext(env, o, t, vs, i, was, now, len, Sent(chain), j, ok, chain.memory, n);
      k := len + j;
      if ok {
        len, i := len + n, i + 1;
      }
    }
    if ok {
      SendingEnd(env, o, t, vs, was, Sent(chain), len, chain.memory);
      k := len;
    }
  }

  lemma AllWritten(env: Env, o: Order, t: Type, vs: seq<Value>, i: nat, done: seq<Byte>)
    requires Halfway(env, o, t, vs, i, done) && i == |vs|
    ensures AllHaveType(env, t, vs) && EncodeAll(env, o, t, vs) == done
  {
    NothingLeft(env, o, t, vs, i);
    assert done + [] == done;
  }

  lemma NothingLeft(env: Env, o: Order, t: Type, vs: seq<Value>, i: nat)
    requires i == |vs|
    ensures AllHaveType(env, t, vs[i..]) && EncodeAll(env, o, t, vs[i..]) == []
  {
  }

  lemma NoFieldsLeft(env: Env, o: Order, ts: seq<Type>, vs: seq<Value>, i: nat)
    requires i <= |ts| && i <= |vs| && HaveTypes(env, ts[i..], vs[i..]) && (i == |ts| || ts[i].Void?)
    ensures EncodeFields(env, o, ts[i..], vs[i..]) == []
  {
  }

  ghost predicate HalfwayIn(env: Env, o: Order, ts: seq<Type>, vs: seq<Value>, i: nat, done: seq<Byte>) {
    && i <= |ts| && i <= |vs| && HaveTypes(env, ts, vs) && HaveTypes(env, ts[i..], vs[i..]) && ValuesSize(vs[i..]) <= ValuesSize(vs)
    && EncodeFields(env, o, ts, vs) == done + EncodeFields(env, o, ts[i..], vs[i..])
  }

  lemma HalfwayInNext(env: Env, o: Order, ts: seq<Type>, vs: seq<Value>, i: nat, done: seq<Byte>)
    requires HalfwayIn(env, o, ts, vs, i, done) && i < |ts| && !ts[i].Void?
    ensures i < |vs| && HasType(env, ts[i], vs[i]) && ValueSize(vs[i]) < ValuesSize(vs)
    ensures var e := Encode(env, o, ts[i], vs[i]); HalfwayIn(env, o, ts, vs, i + 1, done + e)
    ensures exists more :: EncodeFields(env, o, ts, vs) == done + (Encode(env, o, ts[i], vs[i]) + more)
  {
    FieldsNext(env, o, ts, vs, i);
    hide EncodeFields, Encode, HasType, HaveTypes, ValueSize, ValuesSize;
    var e, more := Encode(env, o, ts[i], vs[i]), EncodeFields(env, o, ts[i + 1..], vs[i + 1..]);
    assert done + (e + more) == (done + e) + more;
  }

  lemma FieldsWritten(env: Env, o: Order, ts: seq<Type>, vs: seq<Value>, i: nat, done: seq<Byte>)
    requires HalfwayIn(env, o, ts, vs, i, done) && (i == |ts| || ts[i].Void?)
    ensures HaveTypes(env, ts, vs) && EncodeFields(env, o, ts, vs) == done
  {
    NoFieldsLeft(env, o, ts, vs, i);
    assert done + [] == done;
  }

  /** The loop over members, likewise. */
  ghost predicate SendingIn(env: Env, o: Order, ts: seq<Type>, vs: seq<Value>, i: nat, was: seq<Byte>, now: seq<Byte>, len: nat) {
    was <= now && len == |now| - |was| && HalfwayIn(env, o, ts, vs, i, now[|was|..])
  }

  lemma SendingInStart(env: Env, o: Order, ts: seq<Type>, vs: seq<Value>, was: seq<Byte>)
    requires HaveTypes(env, ts, vs)
    ensures SendingIn(env, o, ts, vs, 0, was, was, 0)
  {
    assert vs[0..] == vs && ts[0..] == ts && was[|was|..] == [];
    assert EncodeFields(env, o, ts, vs) == [] + EncodeFields(env, o, ts, vs);
    hide HaveTypes, EncodeFields, ValuesSize;
  }

  lemma SendingInElem(env: Env, o: Order, ts: seq<Type>, vs: seq<Value>, i: nat, was: seq<Byte>, now: seq<Byte>, len: nat)
    requires SendingIn(env, o, ts, vs, i, was, now, len) && i < |ts| && !ts[i].Void?
    ensures i < |vs| && HasType(env, ts[i], vs[i]) && ValueSize(vs[i]) < ValuesSize(vs)
  {
    hide HalfwayIn, HasType, ValueSize, ValuesSize, Encode, EncodeFields;
    HalfwayInNext(env, o, ts, vs, i, now[|was|..]);
  }

  lemma SendingInNext(env: Env, o: Order, ts: seq<Type>, vs: seq<Value>, i: nat, was: seq<Byte>, now: seq<Byte>, len: nat,
                      now': seq<Byte>, j: nat, ok: bool, memory: nat, n: nat)
    requires SendingIn(env, o, ts, vs, i, was, now, len) && i < |ts| && !ts[i].Void? && i < |vs| && HaveTypes(env, ts, vs) && HasType(env, ts[i], vs[i])
    requires Wrote(now, now', Encode(env, o, ts[i], vs[i]), j, ok, memory) && (ok ==> n == |Encode(env, o, ts[i], vs[i])|)
    ensures if ok then SendingIn(env, o, ts, vs, i + 1, was, now', len + n) else Wrote(was, now', EncodeFields(env, o, ts, vs), len + j, false, memory)
  {
    var done, e := now[|was|..], Encode(env, o, ts[i], vs[i]);
    hide HalfwayIn, HasType, HaveTypes, ValueSize, ValuesSize, Encode, EncodeFields, Wrote;
    HalfwayInNext(env, o, ts, vs, i, done);
    var more :| EncodeFields(env, o, ts, vs) == done + (e + more);
    assert now == was + done;
    WroteNext(was, now, now', done, e, more, j, ok, memory);
    if ok {
      assert now'[|was|..] == done + e;
    }
  }

  lemma SendingInEnd(env: Env, o: Order, ts: seq<Type>, vs: seq<Value>, i: nat, was: seq<Byte>, now: seq<Byte>, len: nat, memory: nat)
    requires SendingIn(env, o, ts, vs, i, was, now, len) && (i == |ts| || ts[i].Void?)
    ensures HaveTypes(env, ts, vs) && Wrote(was, now, EncodeFields(env, o, ts, vs), len, true, memory) && len == |EncodeFields(env, o, ts, vs)|
  {
    var done := now[|was|..];
    assert i <= |ts|;
    hide HalfwayIn, HaveTypes, EncodeFields, Wrote;
    FieldsWritten(env, o, ts, vs, i, done);
    assert now == was + done && done + [] == done;
    WroteDone(was, now, done, memory);
  }

  method MarshalFields(chain: Chain, env: Env, o: Order, ts: seq<Type>, vs: seq<Value>) returns (ok: bool, len: nat, ghost k: nat)
    requires Ready(chain) && HaveTypes(env, ts, vs)
    modifies chain`segs, chain`at, chain`memory
    ensures Ready(chain) && Wrote(old(Sent(chain)), Sent(chain), EncodeFields(env, o, ts, vs), k, ok, chain.memory)
    ensures ok ==> len == |EncodeFields(env, o, ts, vs)|
    decreases ValuesSize(vs), TypesSize(ts), 1
  {
    hide *;
    ghost var was := Sent(chain);
    SendingInStart(env, o, ts, vs, was);
    var i := 0;
    len, ok, k := 0, true, 0;
    while ok && i < |ts| && !ts[i].Void?
      invariant 0 <= i <= |ts| && Ready(chain)
      invariant if ok then SendingIn(env, o, ts, vs, i, was, Sent(chain), len) else Wrote(was, Sent(chain), EncodeFields(env, o, ts, vs), k, false, chain.memory)
      decreases |ts| - i, ok
    {
      ghost var now, j := Sent(chain), 0;
      SendingInElem(env, o, ts, vs, i, was, now, len);
      var n;
      ok, n, j := MarshalTo(chain, env, o, ts[i], vs[i]);
      SendingInNext(env, o, ts, vs, i, was, now, len, Sent(chain), j, ok, chain.memory, n);
      k := len + j;
      if ok {
        len, i := len + n, i + 1;
      }
    }
    if ok {
      SendingInEnd(env, o, ts, vs, i, was, Sent(chain), len, chain.memory);
      k := len;
    }
  }

  /** Descriptors whose bytes are all the value's own. */
  method MarshalLeaf(chain: Chain, env: Env, o: Order, t: Type, v: Value) returns (ok: bool, len: nat, ghost k: nat)
    requires Ready(chain) && HasType(env, t, v) && IsLeaf(t)
    modifies chain`segs, chain`at, chain`memory
    ensures Ready(chain) && Wrote(old(Sent(chain)), Sent(chain), Encode(env, o, t, v), k, ok, chain.memory)
    ensures ok ==> len == |Encode(env, o, t, v)|
  {
    var head: seq<Byte>, body: seq<Byte> := [], [];
    match t {
      case Void =>
      case Number(w) => body := PutNum(o, v.n, w);
      case Address(_) => body := v.bytes;
      case Str =>
        if v.Null? {
          head := [0];
        } else {
          // val = strlen + 1, as a uint16_t
          head, body := [1], v.buf[..Short(|v.buf|)];
        }
      case FixedBytes(_) => body := v.bytes;
      case VarBytes(_) => head, body := PutNum(o, |v.bytes|, 2), v.bytes;
      case NilBytes(_) => body := v.buf[..Short(|v.buf|)];
      case DynBytes => head, body := PutNum(o, |v.bytes|, 2), v.bytes;
      case _ =>
    }
    assert Encode(env, o, t, v) == head + body;
    hide Ready, Wrote, Encode, HasType;
    ok, k := PutTwo(chain, head, body);
    len := |head| + |body|;
  }

  /** A count or a flag, and then something longer. */
  lemma HeadThen(was: seq<Byte>, mid: seq<Byte>, now: seq<Byte>, head: seq<Byte>, e: seq<Byte>, j: nat, memory: nat, k: nat, ok: bool, memory': nat)
    requires Wrote(was, mid, head, j, true, memory) && Wrote(mid, now, e, k, ok, memory')
    ensures Wrote(was, now, head + e, |head| + k, ok, memory')
  {
    WroteAll(was, mid, head, j, memory);
    WroteMore(was, mid, now, head, e, k, ok, memory');
  }

  method MarshalCounted(chain: Chain, env: Env, o: Order, t: Type, vs: seq<Value>) returns (ok: bool, len: nat, ghost k: nat)
    requires Ready(chain) && AllHaveType(env, t, vs)
    modifies chain`segs, chain`at, chain`memory
    ensures Ready(chain) && Wrote(old(Sent(chain)), Sent(chain), PutNum(o, |vs|, 2) + EncodeAll(env, o, t, vs), k, ok, chain.memory)
    ensures ok ==> len == |PutNum(o, |vs|, 2) + EncodeAll(env, o, t, vs)|
    decreases ValuesSize(vs), TypeSize(t), 2
  {
    ghost var was, head, e := Sent(chain), PutNum(o, |vs|, 2), EncodeAll(env, o, t, vs);
    hide Ready, Wrote, EncodeAll, AllHaveType, PutNum;
    len := |PutNum(o, |vs|, 2)|;
    ok, k := PutAll(chain, PutNum(o, |vs|, 2));
    ghost var mid, memory := Sent(chain), chain.memory;
    if !ok {
      WroteLess(was, mid, head, e, k, memory);
      return;
    }
    ghost var j := k;
    var n := 0;
    ok, n, k := MarshalAll(chain, env, o, t, vs);
    HeadThen(was, mid, Sent(chain), head, e, j, memory, k, ok, chain.memory);
    len, k := len + n, |head| + k;
  }

  method MarshalPointer(chain: Chain, env: Env, o: Order, t: Type, v: Value) returns (ok: bool, len: nat, ghost k: nat)
    requires Ready(chain) && t.Pointer? && HasType(env, t, v)
    modifies chain`segs, chain`at, chain`memory
    ensures Ready(chain) && Wrote(old(Sent(chain)), Sent(chain), Encode(env, o, t, v), k, ok, chain.memory)
    ensures ok ==> len == |Encode(env, o, t, v)|
    decreases ValueSize(v), TypeSize(t), 0
  {
    ghost var was := Sent(chain);
    var flag: seq<Byte> := if v.Null? then [0] else [1];
    ghost var e: seq<Byte> := if v.Null? then [] else Encode(env, o, env[t.child], v.target);
    assert Encode(env, o, t, v) == flag + e;
    hide Ready, Wrote, Encode;
    len := 1;
    ok, k := PutAll(chain, flag);
    ghost var mid, memory := Sent(chain), chain.memory;
    if !ok {
      WroteLess(was, mid, flag, e, k, memory);
      return;
    }
    if v.Null? {
      assert flag + [] == flag;
      return;
    }
    ghost var j := k;
    var n := 0;
    ok, n, k := MarshalTo(chain, env, o, env[t.child], v.target);
    HeadThen(was, mid, Sent(chain), flag, e, j, memory, k, ok, chain.memory);
    len, k := len + n, |flag| + k;
  }

  /** _____marshal: the chain grows by the flat encoding, whatever the sizes of its pieces. */
  method MarshalTo(chain: Chain, env: Env, o: Order, t: Type, v: Value) returns (ok: bool, len: nat, ghost k: nat)
    requires Ready(chain) && HasType(env, t, v)
    modifies chain`segs, chain`at, chain`memory
    ensures Ready(chain) && Wrote(old(Sent(chain)), Sent(chain), Encode(env, o, t, v), k, ok, chain.memory)
    ensures ok ==> len == |Encode(env, o, t, v)|
    decreases ValueSize(v), TypeSize(t), 1
  {
    hide Ready, Wrote, EncodeAll, EncodeFields, AllHaveType, HaveTypes;
    match t {
      case Pointer(_) => ok, len, k := MarshalPointer(chain, env, o, t, v);
      case Reference(c) => ok, len, k := MarshalTo(chain, env, o, c, v);
      case Struct(fs) => ok, len, k := MarshalFields(chain, env, o, fs, v.items);
      case FixedArray(_, c) => ok, len, k := MarshalAll(chain, env, o, c, v.items);
      case VarArray(_, c) => ok, len, k := MarshalCounted(chain, env, o, c, v.items);
      case DynArray(c) => ok, len, k := MarshalCounted(chain, env, o, env[c], v.items);
      case _ => ok, len, k := MarshalLeaf(chain, env, o, t, v);
    }
  }

  // ---- Reading --------------------------------------------------------------------------------

  /** What is still to be read. */
  ghost function Left(chain: Chain): Stream
    reads chain
    requires Loaded(chain)
  {
    chain.Stream()
  }

  /** What a reader returned is what the stream says. */
  ghost predicate Reads(st: Stream, d: Parsed, ok: bool, v: Value, now: Stream, len: nat) {
    |Real(now)| <= |Real(st)| && ok == d.Good? && (ok ==> v == d.value && now == d.rest && len + |Real(now)| == |Real(st)|)
  }

  ghost predicate ReadsMany(st: Stream, d: ParsedMany, ok: bool, vs: seq<Value>, now: Stream, len: nat) {
    |Real(now)| <= |Real(st)| && ok == d.GoodMany? && (ok ==> vs == d.values && now == d.rest && len + |Real(now)| == |Real(st)|)
  }

  method Get(chain: Chain, n: nat) returns (ok: bool, x: seq<Byte>)
    requires Loaded(chain)
    modifies chain`segs, chain`at
    ensures Loaded(chain) && |Real(Left(chain))| <= |Real(old(Left(chain)))| && ok == (n <= |Real(old(Left(chain)))|)
    ensures ok ==> x == Real(old(Left(chain)))[..n] && Left(chain) == Drop(old(Left(chain)), n)
  {
    hide Real, Drop, StreamOf, AllOk;
    ok, x := chain.GetBytes(n);
  }

  method Size(chain: Chain) returns (n: nat)
    requires Loaded(chain)
    ensures n == StrSize(Seen(Left(chain)))
  {
    hide StrSize, Seen, StreamOf, AllOk;
    n := chain.StringSize();
  }

  method GetData(chain: Chain, n: nat) returns (ok: bool, v: Value, len: nat)
    requires Loaded(chain)
    modifies chain`segs, chain`at
    ensures Loaded(chain) && Reads(old(Left(chain)), Copy(old(Left(chain)), n), ok, v, Left(chain), len)
  {
    hide Loaded, Left, Real, Drop;
    var x;
    ok, x := Get(chain, n);
    v, len := Data(x), n;
  }

  /** val = (uint16_t)size bytes of a string. */
  method GetText(chain: Chain, size: nat) returns (ok: bool, v: Value, len: nat)
    requires Loaded(chain) && size > 0
    modifies chain`segs, chain`at
    ensures Loaded(chain) && Reads(old(Left(chain)), CopyText(old(Left(chain)), size), ok, v, Left(chain), len)
  {
    hide Loaded, Left, Real, Drop, Short;
    var x;
    len := Short(size);
    ok, x := Get(chain, len);
    v := Text(x);
  }

  method UnmarshalStr(chain: Chain, env: Env, o: Order) returns (ok: bool, v: Value, len: nat)
    requires Loaded(chain)
    modifies chain`segs, chain`at
    ensures Loaded(chain) && Reads(old(Left(chain)), Parse(env, o, Str, old(Left(chain))), ok, v, Left(chain), len)
  {
    hide Loaded, Left, Real, Drop, StrSize, Seen, Short;
    v, len := Null, 1;
    var flag;
    ok, flag := Get(chain, 1);
    if !ok || flag[0] == 0 {
      return;
    }
    var size := Size(chain);
    if size == 0 {
      ok := false;
      return;
    }
    ok, v, len := GetText(chain, size);
    len := len + 1;
  }

  method UnmarshalNil(chain: Chain, env: Env, o: Order, t: Type) returns (ok: bool, v: Value, len: nat)
    requires Loaded(chain) && t.NilBytes?
    modifies chain`segs, chain`at
    ensures Loaded(chain) && Reads(old(Left(chain)), Parse(env, o, t, old(Left(chain))), ok, v, Left(chain), len)
  {
    hide Loaded, Left, Real, Drop, StrSize, Seen, Short;
    v, len := Null, 0;
    var size := Size(chain);
    if size == 0 || Short(size) > t.max {
      ok := false;
      return;
    }
    ok, v, len := GetText(chain, size);
  }

  method UnmarshalBytes(chain: Chain, env: Env, o: Order, t: Type) returns (ok: bool, v: Value, len: nat)
    requires Loaded(chain) && (t.VarBytes? || t.DynBytes?)
    modifies chain`segs, chain`at
    ensures Loaded(chain) && Reads(old(Left(chain)), Parse(env, o, t, old(Left(chain))), ok, v, Left(chain), len)
  {
    hide Loaded, Left, GetNum, Real, Drop;
    v, len := Null, 2;
    var count;
    ok, count := Get(chain, 2);
    if !ok {
      return;
    }
    var n := GetNum(o, count);
    if t.VarBytes? && n > t.max {
      ok := false;
      return;
    }
    ok, v, len := GetData(chain, n);
    len := len + 2;
  }

  method UnmarshalLeaf(chain: Chain, env: Env, o: Order, t: Type) returns (ok: bool, v: Value, len: nat)
    requires Loaded(chain) && IsLeaf(t)
    modifies chain`segs, chain`at
    ensures Loaded(chain) && Reads(old(Left(chain)), Parse(env, o, t, old(Left(chain))), ok, v, Left(chain), len)
  {
    hide Loaded, Left, GetNum, StrSize, Real, Drop, Seen;
    ok, v, len := true, Empty, 0;
    match t {
      case Void =>
      case Number(w) =>
        var x;
        ok, x := Get(chain, w);
        if ok {
          v, len := Num(GetNum(o, x)), w;
        }
      case Address(w) => ok, v, len := GetData(chain, w);
      case FixedBytes(n) => ok, v, len := GetData(chain, n);
      case Str => ok, v, len := UnmarshalStr(chain, env, o);
      case NilBytes(_) => ok, v, len := UnmarshalNil(chain, env, o, t);
      case VarBytes(_) => ok, v, len := UnmarshalBytes(chain, env, o, t);
      case DynBytes => ok, v, len := UnmarshalBytes(chain, env, o, t);
      case _ =>
    }
  }

  /** What was read so far goes before what is still to come. */
  function Prepend(vs: seq<Value>, d: ParsedMany): ParsedMany {
    match d
    case BadMany => BadMany
    case GoodMany(ws, rest) => GoodMany(vs + ws, rest)
  }

  lemma ManyNext(env: Env, o: Order, t: Type, n: nat, b: Stream, vs: seq<Value>)
    requires n > 0
    ensures var d := Parse(env, o, t, b);
      Prepend(vs, ParseMany(env, o, t, n, b)) ==
      if d.Bad? then BadMany else Prepend(vs + [d.value], ParseMany(env, o, t, n - 1, d.rest))
  {
    var d := Parse(env, o, t, b);
    if d.Good? {
      var more := ParseMany(env, o, t, n - 1, d.rest);
      if more.GoodMany? {
        assert vs + ([d.value] + more.values) == (vs + [d.value]) + more.values;
      }
    }
  }

  lemma FieldsNextRead(env: Env, o: Order, ts: seq<Type>, i: nat, b: Stream, vs: seq<Value>)
    requires i < |ts| && !ts[i].Void?
    ensures var d := Parse(env, o, ts[i], b);
      Prepend(vs, ParseFields(env, o, ts[i..], b)) ==
      if d.Bad? then BadMany else Prepend(vs + [d.value], ParseFields(env, o, ts[i + 1..], d.rest))
    ensures TypeSize(ts[i]) < TypesSize(ts[i..]) && TypesSize(ts[i + 1..]) < TypesSize(ts[i..])
  {
    var d := Parse(env, o, ts[i], b);
    assert ts[i..][1..] == ts[i + 1..] && !EndOf(ts[i..]);
    if d.Good? {
      var more := ParseFields(env, o, ts[i + 1..], d.rest);
      if more.GoodMany? {
        assert vs + ([d.value] + more.values) == (vs + [d.value]) + more.values;
      }
    }
  }

  lemma ManyOver(env: Env, o: Order, t: Type, b: Stream, vs: seq<Value>)
    ensures Prepend(vs, ParseMany(env, o, t, 0, b)) == GoodMany(vs, b)
  {
    assert vs + [] == vs;
  }

  lemma FieldsOver(env: Env, o: Order, ts: seq<Type>, b: Stream, vs: seq<Value>)
    requires EndOf(ts)
    ensures Prepend(vs, ParseFields(env, o, ts, b)) == GoodMany(vs, b)
  {
    assert vs + [] == vs;
  }

  lemma PrependNone(d: ParsedMany)
    ensures Prepend([], d) == d
  {
    if d.GoodMany? {
      assert [] + d.values == d.values;
    }
  }

  /** The elements read so far, and what the stream says of the others. */
  ghost predicate Partly(env: Env, o: Order, t: Type, m: nat, vs: seq<Value>, b: Stream, whole: ParsedMany) {
    whole == Prepend(vs, ParseMany(env, o, t, m, b))
  }

  lemma PartlyStart(env: Env, o: Order, t: Type, n: nat, b: Stream)
    ensures Partly(env, o, t, n, [], b, ParseMany(env, o, t, n, b))
  {
    PrependNone(ParseMany(env, o, t, n, b));
  }

  lemma PartlyNext(env: Env, o: Order, t: Type, m: nat, vs: seq<Value>, b: Stream, whole: ParsedMany)
    requires m > 0 && Partly(env, o, t, m, vs, b, whole)
    ensures var d := Parse(env, o, t, b);
      if d.Bad? then whole.BadMany? else Partly(env, o, t, m - 1, vs + [d.value], d.rest, whole)
  {
    ManyNext(env, o, t, m, b, vs);
    hide Parse, ParseMany, Prepend;
  }

  lemma PartlyEnd(env: Env, o: Order, t: Type, vs: seq<Value>, b: Stream, whole: ParsedMany)
    requires Partly(env, o, t, 0, vs, b, whole)
    ensures whole == GoodMany(vs, b)
  {
    ManyOver(env, o, t, b, vs);
  }

  /** The loop over elements: what the stream says of all of them. */
  ghost predicate Reading(env: Env, o: Order, t: Type, n: nat, i: nat, vs: seq<Value>, now: Stream, len: nat, b: Stream, whole: ParsedMany) {
    i <= n && |Real(now)| <= |Real(b)| && len + |Real(now)| == |Real(b)| && Partly(env, o, t, n - i, vs, now, whole)
  }

  lemma ReadingStart(env: Env, o: Order, t: Type, n: nat, b: Stream)
    ensures Reading(env, o, t, n, 0, [], b, 0, b, ParseMany(env, o, t, n, b))
  {
    PartlyStart(env, o, t, n, b);
    hide Partly, ParseMany;
  }

  lemma ReadingNext(env: Env, o: Order, t: Type, n: nat, i: nat, vs: seq<Value>, now: Stream, len: nat, b: Stream, whole: ParsedMany,
                    ok: bool, v: Value, now': Stream, l: nat)
    requires i < n && Reading(env, o, t, n, i, vs, now, len, b, whole) && Reads(now, Parse(env, o, t, now), ok, v, now', l)
    ensures if ok then Reading(env, o, t, n, i + 1, vs + [v], now', len + l, b, whole) else ReadsMany(b, whole, false, vs, now', len)
  {
    PartlyNext(env, o, t, n - i, vs, now, whole);
    hide Parse, Partly, Real;
  }

  lemma ReadingEnd(env: Env, o: Order, t: Type, n: nat, vs: seq<Value>, now: Stream, len: nat, b: Stream, whole: ParsedMany)
    requires Reading(env, o, t, n, n, vs, now, len, b, whole)
    ensures ReadsMany(b, whole, true, vs, now, len)
  {
    PartlyEnd(env, o, t, vs, now, whole);
    hide Partly, Real;
  }

  lemma Shorter(env: Env, o: Order, t: Type, n: nat, i: nat, vs: seq<Value>, now: Stream, len: nat, b: Stream, whole: ParsedMany)
    requires Reading(env, o, t, n, i, vs, now, len, b, whole)
    ensures |Real(now)| <= |Real(b)|
  {
  }

  method UnmarshalMany(chain: Chain, env: Env, o: Order, t: Type, n: nat) returns (ok: bool, vs: seq<Value>, len: nat)
    requires Loaded(chain)
    modifies chain`segs, chain`at
    ensures Loaded(chain) && ReadsMany(old(Left(chain)), ParseMany(env, o, t, n, old(Left(chain))), ok, vs, Left(chain), len)
    decreases |Real(Left(chain))|, TypeSize(t), n + 2
  {
    hide *;
    ghost var b, whole := Left(chain), ParseMany(env, o, t, n, Left(chain));
    ReadingStart(env, o, t, n, b);
    var i := 0;
    ok, vs, len := true, [], 0;
    while ok && i < n
      invariant 0 <= i <= n && Loaded(chain)
      invariant if ok then Reading(env, o, t, n, i, vs, Left(chain), len, b, whole) else ReadsMany(b, whole, false, vs, Left(chain), len)
      decreases n - i, ok
    {
      ghost var now := Left(chain);
      Shorter(env, o, t, n, i, vs, now, len, b, whole);
      var v, l;
      ok, v, l := UnmarshalFrom(chain, env, o, t);
      ReadingNext(env, o, t, n, i, vs, now, len, b, whole, ok, v, Left(chain), l);
      if ok {
        vs, len, i := vs + [v], len + l, i + 1;
      }
    }
    if ok {
      ReadingEnd(env, o, t, n, vs, Left(chain), len, b, whole);
    }
  }

  /** The loop over members, likewise. */
  ghost predicate ReadingIn(env: Env, o: Order, ts: seq<Type>, i: nat, vs: seq<Value>, now: Stream, len: nat, b: Stream, whole: ParsedMany) {
    && i <= |ts| && |Real(now)| <= |Real(b)| && TypesSize(ts[i..]) <= TypesSize(ts)
    && len + |Real(now)| == |Real(b)| && whole == Prepend(vs, ParseFields(env, o, ts[i..], now))
  }

  lemma ReadingInStart(env: Env, o: Order, ts: seq<Type>, b: Stream)
    ensures ReadingIn(env, o, ts, 0, [], b, 0, b, ParseFields(env, o, ts, b))
  {
    assert ts[0..] == ts;
    PrependNone(ParseFields(env, o, ts, b));
    hide ParseFields, Prepend;
  }

  lemma ReadingInNext(env: Env, o: Order, ts: seq<Type>, i: nat, vs: seq<Value>, now: Stream, len: nat, b: Stream, whole: ParsedMany,
                      ok: bool, v: Value, now': Stream, l: nat)
    requires i < |ts| && !ts[i].Void? && ReadingIn(env, o, ts, i, vs, now, len, b, whole)
    requires Reads(now, Parse(env, o, ts[i], now), ok, v, now', l)
    ensures if ok then ReadingIn(env, o, ts, i + 1, vs + [v], now', len + l, b, whole) else ReadsMany(b, whole, false, vs, now', len)
  {
    FieldsNextRead(env, o, ts, i, now, vs);
    hide Parse, ParseFields, Prepend, TypesSize, TypeSize;
  }

  lemma ReadingInEnd(env: Env, o: Order, ts: seq<Type>, i: nat, vs: seq<Value>, now: Stream, len: nat, b: Stream, whole: ParsedMany)
    requires ReadingIn(env, o, ts, i, vs, now, len, b, whole) && (i == |ts| || ts[i].Void?)
    ensures ReadsMany(b, whole, true, vs, now, len)
  {
    FieldsOver(env, o, ts[i..], now, vs);
    hide ParseFields, Prepend, TypesSize;
  }

  lemma Simpler(env: Env, o: Order, ts: seq<Type>, i: nat, vs: seq<Value>, now: Stream, len: nat, b: Stream, whole: ParsedMany)
    requires i < |ts| && ReadingIn(env, o, ts, i, vs, now, len, b, whole)
    ensures |Real(now)| <= |Real(b)| && TypeSize(ts[i]) < TypesSize(ts)
  {
    assert ts[i..][0] == ts[i];
    hide ParseFields, Prepend;
  }

  method UnmarshalFields(chain: Chain, env: Env, o: Order, ts: seq<Type>) returns (ok: bool, vs: seq<Value>, len: nat)
    requires Loaded(chain)
    modifies chain`segs, chain`at
    ensures Loaded(chain) && ReadsMany(old(Left(chain)), ParseFields(env, o, ts, old(Left(chain))), ok, vs, Left(chain), len)
    decreases |Real(Left(chain))|, TypesSize(ts), 0
  {
    hide *;
    ghost var b, whole := Left(chain), ParseFields(env, o, ts, Left(chain));
    ReadingInStart(env, o, ts, b);
    var i := 0;
    ok, vs, len := true, [], 0;
    while ok && i < |ts| && !ts[i].Void?
      invariant 0 <= i <= |ts| && Loaded(chain)
      invariant if ok then ReadingIn(env, o, ts, i, vs, Left(chain), len, b, whole) else ReadsMany(b, whole, false, vs, Left(chain), len)
      decreases |ts| - i, ok
    {
      ghost var now := Left(chain);
      Simpler(env, o, ts, i, vs, now, len, b, whole);
      var v, l;
      ok, v, l := UnmarshalFrom(chain, env, o, ts[i]);
      ReadingInNext(env, o, ts, i, vs, now, len, b, whole, ok, v, Left(chain), l);
      if ok {
        vs, len, i := vs + [v], len + l, i + 1;
      }
    }
    if ok {
      ReadingInEnd(env, o, ts, i, vs, Left(chain), len, b, whole);
    }
  }

  method UnmarshalPointer(chain: Chain, env: Env, o: Order, t: Type) returns (ok: bool, v: Value, len: nat)
    requires Loaded(chain) && t.Pointer?
    modifies chain`segs, chain`at
    ensures Loaded(chain) && Reads(old(Left(chain)), Parse(env, o, t, old(Left(chain))), ok, v, Left(chain), len)
    decreases |Real(Left(chain))|, TypeSize(t), 0
  {
    hide Loaded, Left, Real, Drop;
    v, len := Null, 1;
    var flag;
    ok, flag := Get(chain, 1);
    if !ok || flag[0] == 0 {
      return;
    }
    if t.child !in env {
      ok := false;
      return;
    }
    ok, v, len := UnmarshalFrom(chain, env, o, env[t.child]);
    v, len := To(v), len + 1;
  }

  method UnmarshalCounted(chain: Chain, env: Env, o: Order, t: Type) returns (ok: bool, v: Value, len: nat)
    requires Loaded(chain) && (t.VarArray? || t.DynArray?)
    modifies chain`segs, chain`at
    ensures Loaded(chain) && Reads(old(Left(chain)), Parse(env, o, t, old(Left(chain))), ok, v, Left(chain), len)
    decreases |Real(Left(chain))|, TypeSize(t), 0
  {
    hide Loaded, Left, GetNum, Real, Drop;
    v, len := Many([]), 2;
    var count;
    ok, count := Get(chain, 2);
    if !ok {
      return;
    }
    var n := GetNum(o, count);
    if t.VarArray? && n > t.max {
      ok := false;
      return;
    }
    if t.DynArray? && n == 0 {
      return;
    }
    if t.DynArray? && t.child !in env {
      ok := false;
      return;
    }
    var vs;
    ok, vs, len := UnmarshalMany(chain, env, o, if t.VarArray? then t.elem else env[t.child], n);
    v, len := Many(vs), len + 2;
  }

  /** _____unmarshal: what the stream of bytes and empty pieces says, whatever the sizes of the pieces. */
  method UnmarshalFrom(chain: Chain, env: Env, o: Order, t: Type) returns (ok: bool, v: Value, len: nat)
    requires Loaded(chain)
    modifies chain`segs, chain`at
    ensures Loaded(chain) && Reads(old(Left(chain)), Parse(env, o, t, old(Left(chain))), ok, v, Left(chain), len)
    decreases |Real(Left(chain))|, TypeSize(t), 1
  {
    hide Loaded, Left, ParseMany, ParseFields, Real;
    var vs;
    match t {
      case Pointer(_) => ok, v, len := UnmarshalPointer(chain, env, o, t);
      case Reference(c) => ok, v, len := UnmarshalFrom(chain, env, o, c);
      case Struct(fs) =>
        ok, vs, len := UnmarshalFields(chain, env, o, fs);
        v := Many(vs);
      case FixedArray(n, c) =>
        ok, vs, len := UnmarshalMany(chain, env, o, c, n);
        v := Many(vs);
      case VarArray(_, _) => ok, v, len := UnmarshalCounted(chain, env, o, t);
      case DynArray(_) => ok, v, len := UnmarshalCounted(chain, env, o, t);
      case _ => ok, v, len := UnmarshalLeaf(chain, env, o, t);
    }
  }

  // ---- There and back -------------------------------------------------------------------------

  /** A message begins here: nothing of it is written. */
  ghost predicate Blank(chain: Chain)
    reads chain
  {
    chain.Writing(false) && chain.from == chain.at && chain.segs[chain.at].len == 0
  }

  lemma {:induction false} BlankWritten(segs: seq<Segment>, at: nat, solid: bool)
    requires WritingAt(segs, at, at, solid, false) && segs[at].len == 0
    ensures FlatFrom(segs, at) == []
  {
    FlatEmpty(segs[at..]);
  }

  /** Pieces that all have room leave no empty piece inside what was written. */
  lemma {:induction false} SolidWhole(env: Env, o: Order, t: Type, v: Value, segs: seq<Segment>, from: nat, at: nat)
    requires HasType(env, t, v) && Fits(v) && WritingAt(segs, from, at, true, false) && FlatFrom(segs, from) == Encode(env, o, t, v)
    ensures Whole(env, o, t, v, segs, from)
  {
    forall i: nat, p: nat | HoleAt(segs, from, i, p) ensures !InText(env, o, t, v, 0, p) {
      assert i > at;
      AllBefore(segs, from, i);
      hide *;
      if InText(env, o, t, v, 0, p) {
        InTextRange(env, o, t, v, 0, p);
      }
    }
  }

  lemma {:induction false} AllBefore(segs: seq<Segment>, from: nat, i: nat)
    requires AllOk(segs) && from <= i <= |segs| && forall j :: i <= j < |segs| ==> segs[j].len == 0
    ensures Flat(segs[from..i]) == FlatFrom(segs, from)
  {
    FlatEmpty(segs[i..]);
    FlatAppend(segs[from..i], segs[i..]);
    assert segs[from..] == segs[from..i] + segs[i..];
    hide Flat;
  }

  /** Back to the piece where the message begins. */
  method Rewind(chain: Chain, psb: nat)
    requires Ready(chain) && psb == chain.from
    modifies chain`at
    ensures Loaded(chain) && Left(chain) == StreamOf(chain.segs, psb, chain.beyond)
    ensures AllOk(chain.segs) && psb < |chain.segs| && Real(Left(chain)) == old(Sent(chain))
  {
    WritingIn(chain.segs, chain.from, chain.at, chain.solid, false);
    hide FlatFrom, WritingAt, AllOk, StreamOf, Real;
    chain.at := psb;
    SeenPadded(chain.segs, psb, chain.beyond);
  }

  /** What comes back where nothing is torn. */
  lemma {:induction false} ReadBack(env: Env, o: Order, t: Type, v: Value, segs: seq<Segment>, from: nat, beyond: Byte)
    requires HasType(env, t, v) && AllOk(segs) && from < |segs| && Real(StreamOf(segs, from, beyond)) == Encode(env, o, t, v)
    requires Fits(v) && Whole(env, o, t, v, segs, from)
    ensures var r := Parse(env, o, t, StreamOf(segs, from, beyond)); r.Good? && r.value == v && Real(r.rest) == []
  {
    var st, e := StreamOf(segs, from, beyond), Encode(env, o, t, v);
    hide *;
    WholeUntorn(env, o, t, v, segs, from, beyond);
    Intact(env, o, t, v, st, 0);
    assert Real(Drop(st, |e|)) == Real(st)[|e|..];
    assert e[|e|..] == [];
  }

  /** smart_marshal */
  method Send(chain: Chain, env: Env, o: Order, t: Type, v: Value) returns (ok: bool, len: nat)
    requires Blank(chain) && HasType(env, t, v)
    modifies chain`segs, chain`at, chain`memory
    ensures Ready(chain) && chain.from == old(chain.at) && (!ok ==> chain.memory == 0)
    ensures ok ==> Sent(chain) == Encode(env, o, t, v) && len == |Encode(env, o, t, v)|
  {
    ghost var k, e := 0, Encode(env, o, t, v);
    BlankWritten(chain.segs, chain.at, chain.solid);
    assert Sent(chain) == [];
    hide Ready, Encode, HasType, Sent;
    ok, len, k := MarshalTo(chain, env, o, t, v);
    if ok {
      WroteAll([], Sent(chain), e, k, chain.memory);
      assert [] + e == e;
    }
  }

  /** The pieces after writing, as the conditions speak of them. */
  lemma {:induction false} SentWhole(chain: Chain, env: Env, o: Order, t: Type, v: Value)
    requires Ready(chain) && HasType(env, t, v) && Sent(chain) == Encode(env, o, t, v)
    ensures AllOk(chain.segs) && chain.from < |chain.segs| && FlatFrom(chain.segs, chain.from) == Encode(env, o, t, v)
    ensures Fits(v) && chain.solid ==> Whole(env, o, t, v, chain.segs, chain.from)
  {
    WritingIn(chain.segs, chain.from, chain.at, chain.solid, false);
    hide WritingAt, Encode, HasType, Fits, Whole, FlatFrom, AllOk;
    if Fits(v) && chain.solid {
      SolidWhole(env, o, t, v, chain.segs, chain.from, chain.at);
    }
  }

  /**
   What became of `v`: it was in the pieces `sent`, and what was read from them is what their stream says.
   With room in every piece nothing was torn; with nothing torn, it is `v`, and as many bytes.
   */
  ghost predicate CameBack(env: Env, o: Order, t: Type, v: Value, sent: seq<Segment>, psb: nat, beyond: Byte, solid: bool,
                           len: nat, back: bool, w: Value, read: nat) {
    && HasType(env, t, v) && AllOk(sent) && psb < |sent| && FlatFrom(sent, psb) == Encode(env, o, t, v) && len == |Encode(env, o, t, v)|
    && (var r := Parse(env, o, t, StreamOf(sent, psb, beyond)); back == r.Good? && (back ==> w == r.value))
    && (Fits(v) && solid ==> Whole(env, o, t, v, sent, psb))
    && (Fits(v) && Whole(env, o, t, v, sent, psb) ==> back && w == v && read == len)
  }

  lemma {:induction false} ToCameBack(env: Env, o: Order, t: Type, v: Value, sent: seq<Segment>, psb: nat, beyond: Byte, solid: bool,
                                      len: nat, back: bool, w: Value, read: nat, now: Stream)
    requires HasType(env, t, v) && AllOk(sent) && psb < |sent| && FlatFrom(sent, psb) == Encode(env, o, t, v) && len == |Encode(env, o, t, v)|
    requires Fits(v) && solid ==> Whole(env, o, t, v, sent, psb)
    requires var st := StreamOf(sent, psb, beyond); Reads(st, Parse(env, o, t, st), back, w, now, read)
    ensures CameBack(env, o, t, v, sent, psb, beyond, solid, len, back, w, read)
  {
    hide HasType, AllOk, FlatFrom, Encode, Parse, StreamOf, Whole, Fits, Real, Seen, Padded, Bytes;
    SeenPadded(sent, psb, beyond);
    if Fits(v) && Whole(env, o, t, v, sent, psb) {
      ReadBack(env, o, t, v, sent, psb, beyond);
    }
  }

  /** smart_marshal and then smart_unmarshal of the same buffers; `sent`: the pieces in between. */
  method ThereAndBack(chain: Chain, env: Env, o: Order, t: Type, v: Value)
    returns (ok: bool, len: nat, back: bool, w: Value, read: nat, ghost sent: seq<Segment>)
    requires Blank(chain) && HasType(env, t, v)
    modifies chain
    ensures !ok ==> chain.memory == 0
    ensures ok ==> CameBack(env, o, t, v, sent, old(chain.at), chain.beyond, old(chain.solid), len, back, w, read)
  {
    hide *;
    back, w, read, sent := false, Null, 0, [];
    var psb := chain.at;
    ok, len := Send(chain, env, o, t, v);
    if ok {
      sent := chain.segs;
      SentWhole(chain, env, o, t, v);
      Rewind(chain, psb);
      back, w, read := UnmarshalFrom(chain, env, o, t);
      ToCameBack(env, o, t, v, sent, psb, chain.beyond, chain.solid, len, back, w, read, Left(chain));
    }
  }
}

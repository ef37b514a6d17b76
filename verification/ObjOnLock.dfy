/**
 Reference objects on the real lock: the two machines run together, a call of an object
 being a thread of its lock.  A step of the lock that lets somebody in or out is the step
 of the object that waits for it, with no other guard.
 */
module ObjOnLock {
  import opened Common
  import opened RawLock
  import L = RwLock
  import LP = RwLockProof
  import O = RefObj
  import OP = RefObjProof

  datatype State = State(lock: L.State, obj: O.State)

  datatype Action =
    | Inside(a: L.Action)                   // a step of the lock that lets nobody in or out
    | Beside(b: O.Action)                   // a step of the object that leaves its lock alone
    | Through(a: L.Action, again: bool)     // the lock lets a call in or out

  datatype Effect = EnterRead | LeaveRead | EnterWrite | LeaveWrite

  /** What a call waits for the lock to do; rw->lk is taken for upgrades and writes. */
  function Wants(k: O.Client): Option<Effect> {
    match k.pc
    case Got => if k.kind.Queued? || k.kind.Reader? then Some(EnterRead) else None
    case Back => Some(EnterRead)
    case ReadOver(_) => Some(LeaveRead)
    case Marked => Some(LeaveRead)
    case Between => Some(EnterWrite)
    case HasLk => Some(EnterWrite)
    case UpOver => Some(LeaveWrite)
    case WriteOver(_) => Some(LeaveWrite)
    case _ => None
  }

  predicate Shows<T(==)>(a: Raw<T>, b: Raw<T>, t: T, e: Effect) {
    match e
    case EnterRead => t !in a.readers && b == a.(readers := a.readers + {t})
    case LeaveRead => t in a.readers && b == a.(readers := a.readers - {t})
    case EnterWrite => t !in a.writers && b == a.(writers := a.writers + {t})
    case LeaveWrite => t in a.writers && b == a.(writers := a.writers - {t})
  }

  /** Who is in, by the lock. */
  ghost function In(lock: L.State): Raw<int> {
    var r := LP.RawOf(lock.pc);
    Raw(r.readers, r.writers)
  }

  /** The step of a call, whether or not the object's own model of the lock would allow it. */
  function Moved(s: O.State, c: O.Cid, again: bool): O.State
    requires c in s.client
  {
    var k := s.client[c];
    O.State(s.callerFree, O.NextLock(s.lock, c, k, again), O.NextObj(s.obj, k),
            s.client[c := O.Client(k.kind, O.NextPc(s.lock, s.obj, k, again), O.NextSeen(s.lock, k))],
            s.aborted || O.Aborts(s.lock, s.obj, k))
  }

  ghost predicate Steps(s: State, x: Action, s': State) {
    match x
    case Inside(a) => L.Enabled(s.lock, a) && s'.lock == L.Apply(s.lock, a) && In(s'.lock) == In(s.lock) && s'.obj == s.obj
    case Beside(b) =>
      O.Can(s.obj, b) && s'.obj == O.Do(s.obj, b) && OP.RawOf(s'.obj.lock) == OP.RawOf(s.obj.lock) && s'.lock == s.lock
    case Through(a, again) =>
      && L.Enabled(s.lock, a) && s'.lock == L.Apply(s.lock, a)
      && var t := LP.Mover(s.lock, a);
      && t in s.obj.client && Wants(s.obj.client[t]).Some? && Shows(In(s.lock), In(s'.lock), t, Wants(s.obj.client[t]).value)
      && s'.obj == Moved(s.obj, t, if s.obj.client[t].pc.HasLk? then false else again)
  }

  ghost predicate Run(threads: set<L.Tid>, callerFree: bool, states: seq<State>, actions: seq<Action>) {
    && |states| == |actions| + 1 && |threads| < L.THREAD_LIMIT && states[0] == State(L.Init(threads), O.Created(callerFree))
    && forall i :: 0 <= i < |actions| ==> Steps(states[i], actions[i], states[i + 1])
  }

  // ---- The guards of the object come from the lock ---------------------------------------------------

  /** Lock and object agree on who is in. */
  ghost predicate Coupled(s: State) {
    OP.RawOf(s.obj.lock) == In(s.lock)
  }

  /** Who enters finds the lock as the object's model demands. */
  lemma EntersRight(a: Raw<int>, b: Raw<int>, t: int, e: Effect)
    requires RawLock.Step(a, b, t) && Shows(a, b, t, e)
    ensures (e.EnterRead? ==> a.writers == {}) && (e.EnterWrite? ==> a == Raw({}, {})) && (e.LeaveWrite? ==> a == Raw({}, {t}))
  {
  }

  lemma LockSteps(s: State, a: L.Action)
    requires LP.Inv(s.lock) && L.Enabled(s.lock, a)
    ensures RawLock.Step(In(s.lock), In(L.Apply(s.lock, a)), LP.Mover(s.lock, a))
  {
    LP.RefinesRaw(s.lock, a);
    hide LP.Inv, L.Enabled, L.Apply, LP.Mover, LP.RawOf;
    var t, r, r' := LP.Mover(s.lock, a), LP.RawOf(s.lock.pc), LP.RawOf(L.Apply(s.lock, a).pc);
    Widened(r, r', t);
  }

  lemma Widened(r: Raw<L.Tid>, r': Raw<L.Tid>, t: L.Tid)
    requires RawLock.Step(r, r', t)
    ensures RawLock.Step<int>(Raw(r.readers, r.writers), Raw(r'.readers, r'.writers), t)
  {
  }

  /** What a call wants is what its step does to the object's lock, and the lock lets it. */
  lemma WantsDone(o: O.State, c: O.Cid, again: bool, e: Effect, b: Raw<int>)
    requires c in o.client && Wants(o.client[c]) == Some(e) && (o.client[c].pc.HasLk? ==> !again)
    requires RawLock.Step(OP.RawOf(o.lock), b, c) && Shows(OP.RawOf(o.lock), b, c, e)
    ensures O.Can(o, O.Next(c, again)) && O.Do(o, O.Next(c, again)) == Moved(o, c, again) && OP.RawOf(Moved(o, c, again).lock) == b
  {
    EntersRight(OP.RawOf(o.lock), b, c, e);
    WriterKnown(o.lock);
    hide O.NextObj, O.NextPc, O.NextSeen, O.Aborts;
  }

  lemma WriterKnown(l: O.Lock)
    ensures (OP.RawOf(l).writers == {} <==> l.writer.None?) && forall c :: OP.RawOf(l).writers == {c} ==> l.writer == Some(c)
  {
    if l.writer.Some? {
      assert l.writer.value in OP.RawOf(l).writers;
    }
  }

  /** One step together is at most one step of each, and they still agree. */
  lemma StepsApart(s: State, x: Action, s': State)
    requires Coupled(s) && LP.Inv(s.lock) && Steps(s, x, s')
    ensures Coupled(s')
    ensures s'.lock == s.lock || exists a :: L.Enabled(s.lock, a) && s'.lock == L.Apply(s.lock, a)
    ensures s'.obj == s.obj || exists b :: O.Can(s.obj, b) && s'.obj == O.Do(s.obj, b)
  {
    match x
    case Inside(a) =>
    case Beside(b) => assert O.Can(s.obj, b) && s'.obj == O.Do(s.obj, b);
    case Through(a, again) =>
      LockSteps(s, a);
      hide LP.Inv, L.Enabled, L.Apply, LP.Mover;
      ThroughApart(s, a, again, s');
  }

  lemma ThroughApart(s: State, a: L.Action, again: bool, s': State)
    requires Coupled(s) && Steps(s, Through(a, again), s') && RawLock.Step(In(s.lock), In(s'.lock), LP.Mover(s.lock, a))
    ensures Coupled(s') && exists b :: O.Can(s.obj, b) && s'.obj == O.Do(s.obj, b)
  {
    hide L.Enabled, L.Apply, LP.Mover, In, OP.RawOf, Moved, O.Can, O.Do;
    var t := LP.Mover(s.lock, a);
    var k := s.obj.client[t];
    var choice := if k.pc.HasLk? then false else again;
    WantsDone(s.obj, t, choice, Wants(k).value, In(s'.lock));
    assert O.Can(s.obj, O.Next(t, choice)) && s'.obj == O.Do(s.obj, O.Next(t, choice));
  }

  // ---- Runs ---------------------------------------------------------------------------------------------

  lemma Together(threads: set<L.Tid>, callerFree: bool)
    ensures Coupled(State(L.Init(threads), O.Created(callerFree)))
  {
  }

  /** A run together is a run of the lock and a run of the object. */
  lemma {:induction false} Apart(threads: set<L.Tid>, callerFree: bool, states: seq<State>, actions: seq<Action>, i: nat)
    returns (ls: seq<L.State>, xs: seq<L.Action>, os: seq<O.State>, bs: seq<O.Action>)
    requires Run(threads, callerFree, states, actions) && i < |states|
    ensures LP.Run(threads, ls, xs) && ls[|xs|] == states[i].lock
    ensures O.Run(callerFree, os, bs) && os[|bs|] == states[i].obj
    ensures Coupled(states[i])
  {
    hide Steps, Coupled, L.Enabled, L.Apply, O.Can, O.Do;
    if i == 0 {
      ls, xs, os, bs := [L.Init(threads)], [], [O.Created(callerFree)], [];
      Together(threads, callerFree);
    } else {
      ls, xs, os, bs := Apart(threads, callerFree, states, actions, i - 1);
      var s, s' := states[i - 1], states[i];
      hide LP.Run, O.Run;
      LP.Reached(threads, ls, xs, |xs|);
      hide LP.Inv;
      StepsApart(s, actions[i - 1], s');
      ls, xs := LockLonger(threads, ls, xs, s'.lock);
      os, bs := ObjLonger(callerFree, os, bs, s'.obj);
    }
  }

  lemma LockLonger(threads: set<L.Tid>, ls: seq<L.State>, xs: seq<L.Action>, l: L.State) returns (ls': seq<L.State>, xs': seq<L.Action>)
    requires LP.Run(threads, ls, xs) && (l == ls[|xs|] || exists a :: L.Enabled(ls[|xs|], a) && l == L.Apply(ls[|xs|], a))
    ensures LP.Run(threads, ls', xs') && ls'[|xs'|] == l
  {
    hide L.Enabled, L.Apply;
    ls', xs' := ls, xs;
    if l != ls[|xs|] {
      var a :| L.Enabled(ls[|xs|], a) && l == L.Apply(ls[|xs|], a);
      ls', xs' := ls + [l], xs + [a];
    }
  }

  lemma ObjLonger(callerFree: bool, os: seq<O.State>, bs: seq<O.Action>, o: O.State) returns (os': seq<O.State>, bs': seq<O.Action>)
    requires O.Run(callerFree, os, bs) && (o == os[|bs|] || exists b :: O.Can(os[|bs|], b) && o == O.Do(os[|bs|], b))
    ensures O.Run(callerFree, os', bs') && os'[|bs'|] == o
  {
    hide O.Can, O.Do;
    os', bs' := os, bs;
    if o != os[|bs|] {
      var b :| O.Can(os[|bs|], b) && o == O.Do(os[|bs|], b);
      os', bs' := os + [o], bs + [b];
    }
  }

  /** So what holds of objects holds of objects on this lock: two functions run live together only as readers, */
  lemma LiveApart(threads: set<L.Tid>, callerFree: bool, states: seq<State>, actions: seq<Action>, i: nat, c: O.Cid, d: O.Cid)
    requires Run(threads, callerFree, states, actions) && i < |states| && c != d && c in states[i].obj.client && d in states[i].obj.client
    requires O.RunsLive(states[i].obj.client[c].pc) && O.RunsLive(states[i].obj.client[d].pc)
    ensures states[i].obj.client[c].pc.Live? && states[i].obj.client[d].pc.Live?
  {
    var ls, xs, os, bs := Apart(threads, callerFree, states, actions, i);
    hide Run, O.Run, LP.Run;
    OP.LiveApart(callerFree, os, bs, |bs|, c, d);
  }

  /** and a call in its write section is the one holder the lock has. */
  lemma WriterAlone(threads: set<L.Tid>, callerFree: bool, states: seq<State>, actions: seq<Action>, i: nat, c: O.Cid)
    requires Run(threads, callerFree, states, actions) && i < |states| && c in states[i].obj.client && O.HasWrite(states[i].obj.client[c].pc)
    ensures In(states[i].lock) == Raw({}, {c})
  {
    var ls, xs, os, bs := Apart(threads, callerFree, states, actions, i);
    hide Run, LP.Run, In;
    OP.Reached(callerFree, os, bs, |bs|);
    var l, k := states[i].obj.lock, states[i].obj.client[c];
    assert OP.Agrees(l, c, k) && OP.LockOk(l);
    hide O.Run, OP.Inv;
  }
}

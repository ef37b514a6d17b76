/** What every run of the message queues keeps. */
module MpQueueProof {
  import opened Common
  import opened JobBoard
  import opened MpQueue

  // ---- One queue on its own ---------------------------------------------------------

  predicate HasCurrent(pc: Pc) {
    pc.Running? || pc.Freeing? || pc.Counting?
  }

  predicate InBatch(pc: Pc) {
    HasCurrent(pc) || pc.Picking? || pc.Telling? || pc.Signalling?
  }

  /** On the way to a wait without end: from here only a kick gets the thread back. */
  predicate GoingUnder(pc: Pc) {
    (pc.ToBed? || pc.Asleep?) && pc.forever
  }

  /** Nothing accepted is lost or reordered, and where the pieces are. */
  predicate Stacked(j: Jobs, pc: Pc) {
    && |j.current| <= 1 && (j.current != [] <==> HasCurrent(pc)) && (j.batch != [] ==> InBatch(pc))
    && j.accepted == j.retired + j.current + j.batch + j.list
  }

  predicate Phased(l: Life, pc: Pc, empty: bool) {
    && (l.phase != Loop ==> !l.installed && l.terminated && !l.pooled)
    && (pc.Retiring? ==> l.terminated)
    && (l.pooled ==> !l.terminated && l.phase == Loop)
    && (pc.Gone? ==> l.phase == Last && empty)
    && (pc.Watching? ==> l.phase == Outwait) && (InBatch(pc) ==> l.did)
    && (l.phase == Last && pc.Over? && !l.did ==> empty)
  }

  predicate Needing(b: Bell, pc: Pc) {
    && (pc.Armed? || pc.Recounting? || pc.Asleep? || GoingUnder(pc) ==> b.need)
    && (b.got != 0 ==> pc.Drained?)
  }

  predicate Local(x: Queue) {
    Stacked(x.jobs, x.pc) && Phased(x.life, x.pc, x.jobs.list == []) && Needing(x.bell, x.pc)
  }

  /** The queue is not past the point where its list is known to be empty for good. */
  predicate Open(x: Queue) {
    !x.pc.Gone? && !(x.life.phase == Last && x.pc.Over? && !x.life.did)
  }

  lemma StackedWork(x: Queue, a: WorkAct)
    requires Stacked(x.jobs, x.pc) && WorkCan(x, a)
    ensures Stacked(WorkDo(x, a).jobs, WorkDo(x, a).pc)
  {
  }

  lemma PhasedWork(x: Queue, a: WorkAct)
    requires Stacked(x.jobs, x.pc) && Phased(x.life, x.pc, x.jobs.list == []) && WorkCan(x, a)
    ensures Phased(WorkDo(x, a).life, WorkDo(x, a).pc, WorkDo(x, a).jobs.list == [])
  {
  }

  lemma LocalWork(x: Queue, a: WorkAct)
    requires Local(x) && WorkCan(x, a)
    ensures Local(WorkDo(x, a))
  {
    StackedWork(x, a);
    PhasedWork(x, a);
    hide Stacked, Phased;
  }

  lemma LocalSleep(x: Queue, a: SleepAct)
    requires Local(x) && SleepCan(x.pc, x.bell, a)
    ensures Local(SleepDo(x, a))
  {
  }

  lemma LocalCall(x: Queue, c: CallId, k: Call, stop: bool, a: CallAct)
    requires Local(x) && CallCan(x, k, stop, a) && (a.Enqueue? ==> Open(x)) && (a.Condemn? ==> !x.life.pooled)
    ensures Local(QueueSees(x, c, k, a))
  {
  }

  // ---- Calls ------------------------------------------------------------------------

  /** A call agrees with its queue. */
  predicate Fits(x: Queue, k: Call) {
    && (k.hold == Pool ==> x.life.pooled)
    && (k.hold == Own ==> k.caller == Some(k.target))
    && (k.hold == Ref ==> x.life.phase != Last)
    && (k.reserved ==> k.hold == Ref)
    && (k.destroys ==> k.hold == Ref && !x.life.pooled && !k.sync && !k.at.Entering? && !k.at.Parked? && !k.at.Unparked? && !k.at.Linked?)
    && (!k.destroys ==> !k.at.Condemning?)
    && (k.sync ==> k.caller != Some(k.target))
  }

  predicate CallsOut(pc: Pc) {
    InCallback(pc) || pc == Counting(true)
  }

  ghost predicate Locals(s: State) {
    forall q :: q in s.q ==> Local(s.q[q])
  }

  ghost predicate Calls(s: State) {
    && (forall c :: c in s.call ==> s.call[c].target in s.q && Fits(s.q[s.call[c].target], s.call[c]))
    && (forall c :: c in s.call && s.call[c].caller.Some? ==>
         s.call[c].caller.value in s.q && CallsOut(s.q[s.call[c].caller.value].pc))
  }

  ghost predicate Locks(s: State) {
    && (forall c :: c in s.call && s.call[c].at.Linked? ==> s.call[c].target in s.q && s.q[s.call[c].target].lock == Some(c))
    && (forall q :: q in s.q && s.q[q].lock.Some? ==>
         s.q[q].lock.value in s.call && s.call[s.q[q].lock.value].at.Linked? && s.call[s.q[q].lock.value].target == q)
  }

  // ---- Counting calls -----------------------------------------------------------------

  datatype Which = Refs | Reserved | Kickers | Waiters

  predicate In(k: Call, q: Qid, w: Which) {
    k.target == q &&
    match w
    case Refs => k.hold == Ref
    case Reserved => k.reserved
    case Kickers => k.at.Kicking? || k.at.KickFailed?
    case Waiters => k.at.Parked? || k.at.Unparked?
  }

  ghost function Members(call: map<CallId, Call>, q: Qid, w: Which): set<CallId> {
    set c | c in call && In(call[c], q, w)
  }

  ghost function N(call: map<CallId, Call>, q: Qid, w: Which): nat {
    |Members(call, q, w)|
  }

  function One(b: bool): int {
    if b then 1 else 0
  }

  lemma SetN(call: map<CallId, Call>, c: CallId, k: Call, q: Qid, w: Which)
    ensures N(call[c := k], q, w) == N(call, q, w) + One(In(k, q, w)) - One(c in call && In(call[c], q, w))
  {
    hide In;
    var rest := Members(call, q, w) - {c};
    assert Members(call, q, w) == if c in call && In(call[c], q, w) then rest + {c} else rest;
    assert Members(call[c := k], q, w) == if In(k, q, w) then rest + {c} else rest;
  }

  lemma DropN(call: map<CallId, Call>, c: CallId, q: Qid, w: Which)
    requires c in call
    ensures N(call - {c}, q, w) == N(call, q, w) - One(In(call[c], q, w))
  {
    assert Members(call - {c}, q, w) == Members(call, q, w) - {c};
  }

  function Size(j: Jobs): nat {
    |j.current| + |j.batch| + |j.list|
  }

  /** usage, count, kick_q_count and wait_q_count are what they are meant to count. */
  ghost predicate Tallied(x: Queue, call: map<CallId, Call>, q: Qid) {
    && x.usage == 1 + N(call, q, Refs)
    && x.count == Size(x.jobs) - One(x.lock.Some?) + N(call, q, Reserved)
    && (!x.bell.event ==> x.bell.kicks == x.bell.pipe + x.bell.got + N(call, q, Kickers))
    && x.waiting == N(call, q, Waiters)
  }

  ghost predicate Tallies(s: State) {
    forall q :: q in s.q ==> Tallied(s.q[q], s.call, q)
  }

  lemma TallyWork(x: Queue, call: map<CallId, Call>, q: Qid, a: WorkAct)
    requires Local(x) && WorkCan(x, a) && Tallied(x, call, q)
    ensures Tallied(WorkDo(x, a), call, q)
  {
    hide N;
  }

  lemma TallySleep(x: Queue, call: map<CallId, Call>, q: Qid, a: SleepAct)
    requires Local(x) && SleepCan(x.pc, x.bell, a) && Tallied(x, call, q)
    ensures Tallied(SleepDo(x, a), call, q)
  {
    hide N;
  }

  lemma TallyCall(x: Queue, call: map<CallId, Call>, c: CallId, stop: bool, a: CallAct)
    requires c in call && CallCan(x, call[c], stop, a) && Tallied(x, call, call[c].target)
    requires a.Count? ==> x.lock.Some?
    ensures var k := call[c]; Tallied(QueueSees(x, c, k, a), call[c := CallDo(x, k, a)], k.target)
  {
    var k := call[c];
    SetN(call, c, CallDo(x, k, a), k.target, Refs);
    SetN(call, c, CallDo(x, k, a), k.target, Reserved);
    SetN(call, c, CallDo(x, k, a), k.target, Kickers);
    SetN(call, c, CallDo(x, k, a), k.target, Waiters);
    hide N;
  }

  /** A change to a call leaves the tallies of other queues alone. */
  lemma TallyOther(x: Queue, call: map<CallId, Call>, c: CallId, k: Call, q: Qid)
    requires Tallied(x, call, q) && k.target != q && (c in call ==> call[c].target != q)
    ensures Tallied(x, call[c := k], q)
  {
    SetN(call, c, k, q, Refs);
    SetN(call, c, k, q, Reserved);
    SetN(call, c, k, q, Kickers);
    SetN(call, c, k, q, Waiters);
    hide N;
  }

  lemma TallyHeld(x: Queue, call: map<CallId, Call>, c: CallId, k: Call)
    requires Tallied(x, call, k.target) && c !in call && (k.at.Entering? || k.at.Condemning?) && (k.reserved ==> k.hold == Ref)
    ensures Tallied(Held(x, k), call[c := k], k.target)
  {
    SetN(call, c, k, k.target, Refs);
    SetN(call, c, k, k.target, Reserved);
    SetN(call, c, k, k.target, Kickers);
    SetN(call, c, k, k.target, Waiters);
    hide N;
  }

  lemma TallyLeft(x: Queue, call: map<CallId, Call>, c: CallId)
    requires c in call && Tallied(x, call, call[c].target) && call[c].at.Leaving? && (call[c].reserved ==> call[c].hold == Ref)
    ensures Tallied(LetGo(x, call[c]), call - {c}, call[c].target)
  {
    DropN(call, c, call[c].target, Refs);
    DropN(call, c, call[c].target, Reserved);
    DropN(call, c, call[c].target, Kickers);
    DropN(call, c, call[c].target, Waiters);
    hide N;
  }

  lemma TallyLeftOther(x: Queue, call: map<CallId, Call>, c: CallId, q: Qid)
    requires c in call && Tallied(x, call, q) && call[c].target != q
    ensures Tallied(x, call - {c}, q)
  {
    DropN(call, c, q, Refs);
    DropN(call, c, q, Reserved);
    DropN(call, c, q, Kickers);
    DropN(call, c, q, Waiters);
    hide N;
  }

  // ---- Lifting to the system --------------------------------------------------------

  ghost predicate Sound(s: State) {
    Locals(s) && Calls(s) && Locks(s) && Tallies(s)
  }

  /** A step that changes one queue, and no call. */
  ghost predicate QueueStep(s: State, q: Qid, x: Queue) {
    && q in s.q && Local(x) && Tallied(x, s.call, q) && x.lock == s.q[q].lock && x.life.pooled == s.q[q].life.pooled
    && (x.life.phase == Last ==> s.q[q].life.phase == Last || s.q[q].usage <= 1)
    && (Busy(s, q) ==> CallsOut(x.pc))
  }

  lemma NoRefs(call: map<CallId, Call>, q: Qid)
    requires N(call, q, Refs) == 0
    ensures forall c :: c in call && call[c].target == q ==> call[c].hold != Ref
  {
    forall c | c in call && call[c].target == q ensures call[c].hold != Ref {
      assert c !in Members(call, q, Refs);
    }
  }

  lemma LiftQueue(s: State, q: Qid, x: Queue)
    requires Sound(s) && QueueStep(s, q, x)
    ensures Sound(s.(q := s.q[q := x]))
  {
    hide Local;
    var s' := s.(q := s.q[q := x]);
    if s.q[q].usage <= 1 {
      NoRefs(s.call, q);
    }
    hide Tallied;
    assert Tallies(s');
    assert Calls(s') by {
      forall c | c in s'.call ensures s'.call[c].target in s'.q && Fits(s'.q[s'.call[c].target], s'.call[c]) {
        assert Fits(s.q[s.call[c].target], s.call[c]);
      }
    }
  }

  /** A step that changes one call, new or old, and the queue it is about. */
  ghost predicate CallStep(s: State, c: CallId, k: Call, x: Queue) {
    && k.target in s.q && (c in s.call ==> s.call[c].target == k.target && s.call[c].caller == k.caller)
    && (k.caller.Some? ==> k.caller.value in s.q && CallsOut(s.q[k.caller.value].pc))
    && Local(x) && Tallied(x, s.call[c := k], k.target) && Fits(x, k)
    && var y := s.q[k.target];
    && x.pc == y.pc && x.life.phase == y.life.phase
    && (x.life.pooled == y.life.pooled ||
        (!x.life.pooled && forall d :: d in s.call && s.call[d].target == k.target ==> s.call[d].hold != Pool))
    && (x.lock == y.lock || (x.lock.None? && y.lock == Some(c)) || (y.lock.None? && x.lock == Some(c)))
    && (k.at.Linked? <==> x.lock == Some(c))
  }

  lemma LiftCallTallies(s: State, c: CallId, k: Call, x: Queue)
    requires Sound(s) && CallStep(s, c, k, x)
    ensures Tallies(s.(q := s.q[k.target := x], call := s.call[c := k]))
  {
    hide Local, Fits, Locks, Locals, Calls;
    var s' := s.(q := s.q[k.target := x], call := s.call[c := k]);
    forall q | q in s'.q ensures Tallied(s'.q[q], s'.call, q) {
      if q != k.target {
        TallyOther(s.q[q], s.call, c, k, q);
      }
    }
  }

  lemma LiftCallLocks(s: State, c: CallId, k: Call, x: Queue)
    requires Sound(s) && CallStep(s, c, k, x)
    ensures Locks(s.(q := s.q[k.target := x], call := s.call[c := k]))
  {
    hide Local, Fits, Tallied, Locals;
  }

  lemma LiftCallCalls(s: State, c: CallId, k: Call, x: Queue)
    requires Sound(s) && CallStep(s, c, k, x)
    ensures Calls(s.(q := s.q[k.target := x], call := s.call[c := k]))
  {
    hide Local, Tallied, Tallies, Locals, Locks;
    var s' := s.(q := s.q[k.target := x], call := s.call[c := k]);
    forall d | d in s'.call ensures s'.call[d].target in s'.q && Fits(s'.q[s'.call[d].target], s'.call[d]) {
      if d != c {
        assert Fits(s.q[s.call[d].target], s.call[d]);
      }
    }
    hide Fits;
  }

  lemma LiftCall(s: State, c: CallId, k: Call, x: Queue)
    requires Sound(s) && CallStep(s, c, k, x)
    ensures Sound(s.(q := s.q[k.target := x], call := s.call[c := k]))
  {
    LiftCallTallies(s, c, k, x);
    LiftCallLocks(s, c, k, x);
    LiftCallCalls(s, c, k, x);
    hide Local, Tallies, Locks, Tallied, Calls, Fits;
  }

  // ---- The steps ----------------------------------------------------------------------

  lemma SoundWork(s: State, q: Qid, a: WorkAct)
    requires Sound(s) && CanWork(s, q, a)
    ensures Sound(DoWork(s, q, a))
  {
    LocalWork(s.q[q], a);
    TallyWork(s.q[q], s.call, q, a);
    hide Local, Tallied;
    LiftQueue(s, q, WorkDo(s.q[q], a));
  }

  lemma SoundSleep(s: State, q: Qid, a: SleepAct)
    requires Sound(s) && CanSleep(s, q, a)
    ensures Sound(DoSleep(s, q, a))
  {
    LocalSleep(s.q[q], a);
    TallySleep(s.q[q], s.call, q, a);
    hide Local, Tallied;
    LiftQueue(s, q, SleepDo(s.q[q], a));
  }

  lemma SoundInvoke(s: State, q: Qid, live: bool)
    requires Sound(s) && CanInvoke(s, q)
    ensures Sound(DoInvoke(s, q, live))
  {
    var x := s.q[q];
    var x' := x.(jobs := Picked(x.jobs), pc := Running(live));
    assert Local(x);
    assert x.jobs.batch == [x.jobs.batch[0]] + x.jobs.batch[1..];
    assert Local(x');
    assert Tallied(x', s.call, q) by { assert Tallied(x, s.call, q); hide N; }
    hide Local, Tallied;
    LiftQueue(s, q, x');
  }

  lemma SoundFree(s: State, q: Qid)
    requires Sound(s) && CanFreeHere(s, q)
    ensures Sound(DoFreeHere(s, q))
  {
    var x := s.q[q];
    var x' := x.(pc := Freeing);
    assert Local(x);
    assert Local(x');
    assert Tallied(x', s.call, q) by { assert Tallied(x, s.call, q); }
    hide Local, Tallied;
    LiftQueue(s, q, x');
  }

  /** A call that is still to link its function in finds a queue that will look at it. */
  lemma StillOpen(s: State, c: CallId)
    requires Sound(s) && c in s.call
    ensures Open(s.q[s.call[c].target])
  {
    var k := s.call[c];
    assert Fits(s.q[k.target], k) && Local(s.q[k.target]);
  }

  lemma FitsCall(x: Queue, c: CallId, k: Call, stop: bool, a: CallAct)
    requires Fits(x, k) && CallCan(x, k, stop, a) && (k.at.Linked? <==> x.lock == Some(c))
    ensures var k', x' := CallDo(x, k, a), QueueSees(x, c, k, a);
      && Fits(x', k') && x'.pc == x.pc && x'.life.phase == x.life.phase && x'.life.pooled == x.life.pooled
      && k'.target == k.target && k'.caller == k.caller
      && (x'.lock == x.lock || (x'.lock.None? && x.lock == Some(c)) || (x.lock.None? && x'.lock == Some(c)))
      && (k'.at.Linked? <==> x'.lock == Some(c))
  {
  }

  /** What soundness says about one call and its queue. */
  lemma CallFacts(s: State, c: CallId)
    requires Sound(s) && c in s.call
    ensures var k := s.call[c]; k.target in s.q && var x := s.q[k.target];
      && Fits(x, k) && Local(x) && Tallied(x, s.call, k.target) && Open(x) && (k.at.Linked? <==> x.lock == Some(c))
      && (k.caller.Some? ==> k.caller.value in s.q && CallsOut(s.q[k.caller.value].pc))
      && (k.at.Condemning? ==> !x.life.pooled)
  {
    StillOpen(s, c);
    assert Fits(s.q[s.call[c].target], s.call[c]);
    hide Local, Tallied, Open;
  }

  lemma SoundCaller(s: State, c: CallId, a: CallAct)
    requires Sound(s) && CanCaller(s, c, a)
    ensures Sound(DoCaller(s, c, a))
  {
    var k := s.call[c];
    var x := s.q[k.target];
    CallFacts(s, c);
    hide Sound, Local, Fits, Open, Tallied;
    LocalCall(x, c, k, Stops(s, k), a);
    TallyCall(x, s.call, c, Stops(s, k), a);
    FitsCall(x, c, k, Stops(s, k), a);
    hide CallCan, CallDo, QueueSees, FateAfter;
    LiftCall(s, c, CallDo(x, k, a), QueueSees(x, c, k, a));
    ReadsOnly(s.(q := s.q[k.target := QueueSees(x, c, k, a)], call := s.call[c := CallDo(x, k, a)]), DoCaller(s, c, a));
  }

  lemma SoundNew(s: State, c: CallId, k: Call)
    requires Sound(s) && MayCall(s, c, k) && Fits(s.q[k.target], k) && (k.at.Entering? || k.at.Condemning?)
    ensures Sound(s.(q := s.q[k.target := Held(s.q[k.target], k)], call := s.call[c := k]))
  {
    var x := s.q[k.target];
    assert Local(x) && Tallied(x, s.call, k.target);
    assert Local(Held(x, k));
    TallyHeld(x, s.call, c, k);
    assert x.lock != Some(c);
    hide Local, Tallied;
    LiftCall(s, c, k, Held(x, k));
  }

  lemma SoundShrink(s: State, c: CallId, k: Call)
    requires Sound(s) && CanShrink(s, c, k)
    ensures Sound(DoShrink(s, c, k))
  {
    var x := s.q[k.target];
    var x' := OutOfPool(Held(x, k));
    assert Local(x) && Tallied(x, s.call, k.target);
    assert Local(x');
    TallyHeld(x, s.call, c, k);
    assert Tallied(x', s.call[c := k], k.target) by { hide N; }
    assert x.lock != Some(c);
    hide Local, Tallied;
    LiftCall(s, c, k, x');
  }

  lemma SoundSignal(s: State, q: Qid, w: Option<CallId>)
    requires Sound(s) && CanSignal(s, q, w)
    ensures Sound(DoSignal(s, q, w))
  {
    var x := s.q[q];
    var x' := x.(pc := Picking);
    assert Local(x) && Tallied(x, s.call, q);
    assert Local(x') && Tallied(x', s.call, q);
    hide Local, Tallied;
    LiftQueue(s, q, x');
    if w.Some? {
      SoundUnpark(s.(q := s.q[q := x']), w.value);
    }
  }

  lemma SoundUnpark(s: State, c: CallId)
    requires Sound(s) && c in s.call && s.call[c].at.Parked?
    ensures var k := s.call[c]; Sound(s.(call := s.call[c := k.(at := Unparked)]))
  {
    var k := s.call[c];
    var x := s.q[k.target];
    assert Fits(x, k) && Local(x) && Tallied(x, s.call, k.target);
    TallyCall(x, s.call, c, false, Unpark);
    hide Local, Tallied;
    LiftCall(s, c, k.(at := Unparked), x);
    assert s.q[k.target := x] == s.q;
  }

  lemma SoundPass(s: State, q: Qid, c: CallId)
    requires Sound(s) && CanPassOn(s, q, c)
    ensures Sound(DoPassOn(s, q, c))
  {
    var x := s.q[q];
    var x' := x.(pc := Counting(true));
    assert Local(x) && Tallied(x, s.call, q);
    assert Local(x') && Tallied(x', s.call, q);
    hide Local, Tallied;
    LiftQueue(s, q, x');
    SoundHanded(s.(q := s.q[q := x']), c, Handing(q, x.jobs.current[0]));
  }

  lemma SoundHanded(s: State, c: CallId, k: Call)
    requires Sound(s) && c !in s.call && k.target in s.q && Fits(s.q[k.target], k) && k.at.Entering?
    requires k.caller.Some? && k.caller.value in s.q && CallsOut(s.q[k.caller.value].pc)
    ensures Sound(s.(q := s.q[k.target := Held(s.q[k.target], k)], call := s.call[c := k]))
  {
    var x := s.q[k.target];
    assert Local(x) && Tallied(x, s.call, k.target);
    assert Local(Held(x, k));
    TallyHeld(x, s.call, c, k);
    assert x.lock != Some(c);
    hide Local, Tallied;
    LiftCall(s, c, k, Held(x, k));
  }

  lemma LeaveTallies(s: State, c: CallId)
    requires Tallies(s) && Calls(s) && CanLeave(s, c)
    ensures Tallies(DoLeave(s, c))
  {
    var k := s.call[c];
    var s' := DoLeave(s, c);
    assert Fits(s.q[k.target], k);
    forall q | q in s'.q ensures Tallied(s'.q[q], s'.call, q) {
      assert Tallied(s.q[q], s.call, q);
      if q == k.target {
        TallyLeft(s.q[q], s.call, c);
      } else {
        TallyLeftOther(s.q[q], s.call, c, q);
      }
    }
  }

  lemma LeaveCalls(s: State, c: CallId)
    requires Calls(s) && CanLeave(s, c)
    ensures Calls(DoLeave(s, c))
  {
    var s' := DoLeave(s, c);
    forall d | d in s'.call ensures s'.call[d].target in s'.q && Fits(s'.q[s'.call[d].target], s'.call[d]) {
      assert Fits(s.q[s.call[d].target], s.call[d]);
    }
  }

  lemma LeaveLocks(s: State, c: CallId)
    requires Locks(s) && CanLeave(s, c)
    ensures Locks(DoLeave(s, c))
  {
  }

  lemma SoundLeave(s: State, c: CallId)
    requires Sound(s) && CanLeave(s, c)
    ensures Sound(DoLeave(s, c))
  {
    var k := s.call[c];
    LeaveTallies(s, c);
    LeaveCalls(s, c);
    LeaveLocks(s, c);
    assert Local(s.q[k.target]) && Local(LetGo(s.q[k.target], k));
    hide Local, Tallies, Calls, Locks, LetGo;
  }

  lemma NewTallied(s: State, q: Qid, x: Queue)
    requires Calls(s) && q !in s.q && x.usage == 1 && x.count == 0 && x.waiting == 0 && x.lock.None?
    requires x.jobs == Jobs([], [], [], [], []) && x.bell.kicks == 0 && x.bell.pipe == 0 && x.bell.got == 0
    ensures Tallied(x, s.call, q)
  {
    hide Fits;
    assert forall c :: c in s.call ==> s.call[c].target != q;
    forall w ensures N(s.call, q, w) == 0 {
      assert forall c :: c in s.call ==> !In(s.call[c], q, w);
      assert Members(s.call, q, w) == {};
    }
    hide N;
  }

  lemma SoundCreate(s: State, a: Action)
    requires Sound(s) && a.Create? && Can(s, a)
    ensures Sound(Do(s, a))
  {
    var x := NewQueue(a.max, a.nonblock, a.event, a.pooled);
    assert Local(x);
    NewTallied(s, a.q, x);
    hide Local, Tallied, Fits;
  }

  lemma SoundKept(s: State, a: Action)
    requires Sound(s) && Can(s, a)
    ensures Sound(Do(s, a))
  {
    hide Sound, CanCreate, CanBegin, CanDestroy, CanShrink, CanCaller, CanLeave, CanWork, CanSleep, CanInvoke, CanPassOn, CanFreeHere, CanSignal,
      DoCreate, DoBegin, DoDestroy, DoShrink, DoCaller, DoLeave, DoWork, DoSleep, DoInvoke, DoPassOn, DoFreeHere, DoSignal;
    match a
    case Create(_, _, _, _, _) => SoundCreate(s, a);
    case Begin(c, k) => SoundBegin(s, c, k);
    case Destroy(c, k) => SoundDestroy(s, c, k);
    case Shrink(c, k) => SoundShrink(s, c, k);
    case Caller(c, does) => SoundCaller(s, c, does);
    case Leave(c) => SoundLeave(s, c);
    case Work(q, act) => SoundWork(s, q, act);
    case Sleep(q, act) => SoundSleep(s, q, act);
    case Invoke(q, live) => SoundInvoke(s, q, live);
    case PassOn(q, c) => SoundPass(s, q, c);
    case FreeHere(q) => SoundFree(s, q);
    case Signal(q, w) => SoundSignal(s, q, w);
  }

  lemma SoundBegin(s: State, c: CallId, k: Call)
    requires Sound(s) && CanBegin(s, c, k)
    ensures Sound(DoBegin(s, c, k))
  {
    FitsNew(s, c, k);
    hide Sound, Fits, Held;
    SoundNew(s, c, k);
    ReadsOnly(s.(q := s.q[k.target := Held(s.q[k.target], k)], call := s.call[c := k]), DoBegin(s, c, k));
  }

  lemma SoundDestroy(s: State, c: CallId, k: Call)
    requires Sound(s) && CanDestroy(s, c, k)
    ensures Sound(DoDestroy(s, c, k))
  {
    FitsNew(s, c, k);
    hide Sound, Fits, Held;
    SoundNew(s, c, k);
  }

  /** A call that may begin agrees with its queue. */
  lemma FitsNew(s: State, c: CallId, k: Call)
    requires Sound(s) && MayCall(s, c, k) && (CanDestroy(s, c, k) || CanBegin(s, c, k))
    ensures Fits(s.q[k.target], k)
  {
    assert Local(s.q[k.target]);
  }

  /** Soundness is about queues and calls only. */
  lemma ReadsOnly(s: State, s': State)
    requires Sound(s) && s'.q == s.q && s'.call == s.call
    ensures Sound(s')
  {
  }

  // ---- No kick is lost ------------------------------------------------------------------

  /** Between making its change visible and its kick. */
  predicate Committed(k: Call, q: Qid) {
    k.target == q && k.caller != Some(q) && (k.at.Linked? || k.at.Published? || k.at.SawNeed? || k.at.Kicking?)
  }

  ghost predicate Coming(call: map<CallId, Call>, q: Qid) {
    exists c :: c in call && Committed(call[c], q)
  }

  /** The thread is past the test that would have seen the work. */
  predicate Overlooked(x: Queue) {
    (GoingUnder(x.pc) && x.jobs.list != []) || ((x.pc.Recounting? || GoingUnder(x.pc)) && x.life.terminated)
  }

  predicate Kicked(x: Queue, coming: bool) {
    Overlooked(x) ==> Pulse(x.bell) || coming
  }

  ghost predicate AllKicked(s: State) {
    forall q :: q in s.q ==> Kicked(s.q[q], Coming(s.call, q))
  }

  /** An empty count at the last test leaves only a caller that is about to count itself. */
  lemma RecountKicked(s: State, q: Qid)
    requires Sound(s) && CanSleep(s, q, Recount) && AllKicked(s)
    ensures Kicked(SleepDo(s.q[q], Recount), Coming(s.call, q))
  {
    var x := s.q[q];
    assert Local(x) && Tallied(x, s.call, q);
    if x.count <= 0 && x.jobs.list != [] {
      var c := x.lock.value;
      assert c in s.call && s.call[c].at.Linked? && s.call[c].target == q;
      assert !Busy(s, q);
      assert s.call[c].caller != Some(q);
    }
  }

  lemma KickedSleep(x: Queue, a: SleepAct, coming: bool)
    requires SleepCan(x.pc, x.bell, a) && !a.Recount? && Kicked(x, coming)
    ensures Kicked(SleepDo(x, a), coming)
  {
  }

  lemma SleepKicked(s: State, q: Qid, a: SleepAct)
    requires Sound(s) && CanSleep(s, q, a) && AllKicked(s)
    ensures AllKicked(DoSleep(s, q, a))
  {
    if a.Recount? {
      RecountKicked(s, q);
    } else {
      assert Kicked(s.q[q], Coming(s.call, q));
      KickedSleep(s.q[q], a, Coming(s.call, q));
    }
    hide Kicked, Coming, Sound, SleepDo, SleepCan;
  }

  lemma WorkKicked(s: State, q: Qid, a: WorkAct)
    requires CanWork(s, q, a) && AllKicked(s)
    ensures AllKicked(DoWork(s, q, a))
  {
    assert Kicked(WorkDo(s.q[q], a), Coming(s.call, q)) by { hide AllKicked, Coming; }
    hide Kicked, Coming, WorkDo;
  }

  /** What one step of a call does to the promise, seen from its queue. */
  lemma CallKicked(x: Queue, c: CallId, k: Call, stop: bool, a: CallAct, coming: bool, coming': bool)
    requires Local(x) && CallCan(x, k, stop, a) && Kicked(x, coming)
    requires k.caller == Some(k.target) ==> CallsOut(x.pc)
    requires Committed(CallDo(x, k, a), k.target) ==> coming'
    requires coming && !Committed(k, k.target) ==> coming'
    ensures Kicked(QueueSees(x, c, k, a), coming') || (coming && !coming')
    ensures coming && !coming' ==> Kicked(QueueSees(x, c, k, a), false)
  {
  }

  lemma ComingSet(call: map<CallId, Call>, c: CallId, k: Call, q: Qid)
    ensures Committed(k, q) ==> Coming(call[c := k], q)
    ensures Coming(call, q) && !(c in call && Committed(call[c], q)) ==> Coming(call[c := k], q)
  {
    var call' := call[c := k];
    if Committed(k, q) {
      assert c in call' && Committed(call'[c], q);
    }
    if Coming(call, q) && !(c in call && Committed(call[c], q)) {
      var d :| d in call && Committed(call[d], q);
      assert d in call' && Committed(call'[d], q);
    }
  }

  lemma CallerKicked(s: State, c: CallId, a: CallAct)
    requires Sound(s) && CanCaller(s, c, a) && AllKicked(s)
    ensures AllKicked(DoCaller(s, c, a))
  {
    var k := s.call[c];
    var x := s.q[k.target];
    var k' := CallDo(x, k, a);
    var s' := DoCaller(s, c, a);
    assert Local(x) && Kicked(x, Coming(s.call, k.target));
    forall q | q in s'.q ensures Kicked(s'.q[q], Coming(s'.call, q)) {
      ComingSet(s.call, c, k', q);
      if q == k.target {
        hide Coming, Local, Sound, AllKicked;
        CallKicked(x, c, k, Stops(s, k), a, Coming(s.call, q), Coming(s'.call, q));
      } else {
        assert !Committed(k, q);
        assert Kicked(s.q[q], Coming(s.call, q));
      }
    }
  }

  /** Steps that add or change a call that is not between change and kick, and move no thread under. */
  lemma OthersKicked(s: State, s': State)
    requires AllKicked(s)
    requires forall q :: q in s'.q && Overlooked(s'.q[q]) ==> q in s.q && Overlooked(s.q[q]) && s'.q[q].bell == s.q[q].bell
    requires forall c, q :: c in s.call && Committed(s.call[c], q) ==> c in s'.call && Committed(s'.call[c], q)
    ensures AllKicked(s')
  {
    forall q | q in s'.q && Overlooked(s'.q[q]) && !Pulse(s'.q[q].bell) ensures Coming(s'.call, q) {
      assert Kicked(s.q[q], Coming(s.call, q));
      var c :| c in s.call && Committed(s.call[c], q);
    }
  }

  lemma NewCallKicked(s: State, a: Action)
    requires Can(s, a) && (a.Begin? || a.Destroy? || a.Shrink? || a.Create?) && AllKicked(s)
    ensures AllKicked(Do(s, a))
  {
    hide AllKicked;
    OthersKicked(s, Do(s, a));
  }

  lemma InvokeKicked(s: State, q: Qid, live: bool)
    requires CanInvoke(s, q) && AllKicked(s)
    ensures AllKicked(DoInvoke(s, q, live))
  {
    hide AllKicked;
    OthersKicked(s, DoInvoke(s, q, live));
  }

  lemma FreeKicked(s: State, q: Qid)
    requires CanFreeHere(s, q) && AllKicked(s)
    ensures AllKicked(DoFreeHere(s, q))
  {
    hide AllKicked;
    OthersKicked(s, DoFreeHere(s, q));
  }

  lemma PassKicked(s: State, q: Qid, c: CallId)
    requires CanPassOn(s, q, c) && AllKicked(s)
    ensures AllKicked(DoPassOn(s, q, c))
  {
    hide AllKicked;
    OthersKicked(s, DoPassOn(s, q, c));
  }

  lemma LeaveKicked(s: State, a: Action)
    requires Can(s, a) && (a.Leave? || a.Signal?) && AllKicked(s)
    ensures AllKicked(Do(s, a))
  {
    hide AllKicked;
    OthersKicked(s, Do(s, a));
  }

  lemma KickedKept(s: State, a: Action)
    requires Sound(s) && Can(s, a) && AllKicked(s)
    ensures AllKicked(Do(s, a))
  {
    hide Sound, AllKicked, CanCreate, CanBegin, CanDestroy, CanShrink, CanCaller, CanLeave, CanWork, CanSleep, CanInvoke, CanPassOn, CanFreeHere, CanSignal,
      DoCreate, DoBegin, DoDestroy, DoShrink, DoCaller, DoLeave, DoWork, DoSleep, DoInvoke, DoPassOn, DoFreeHere, DoSignal;
    match a
    case Caller(c, does) => CallerKicked(s, c, does);
    case Work(q, act) => WorkKicked(s, q, act);
    case Sleep(q, act) => SleepKicked(s, q, act);
    case Create(_, _, _, _, _) => NewCallKicked(s, a);
    case Begin(_, _) => NewCallKicked(s, a);
    case Destroy(_, _) => NewCallKicked(s, a);
    case Shrink(_, _) => NewCallKicked(s, a);
    case Leave(_) => LeaveKicked(s, a);
    case Signal(_, _) => LeaveKicked(s, a);
    case Invoke(q, live) => InvokeKicked(s, q, live);
    case FreeHere(q) => FreeKicked(s, q);
    case PassOn(q, c) => PassKicked(s, q, c);
  }
}

/** What holds in every reachable state of the message queues. */
module MpQueueRuns {
  import opened Common
  import opened JobBoard
  import opened MpQueue
  import opened MpQueueProof
  import opened MpQueueJobs
  import opened MpQueueSync

  // ---- Blocked callers ------------------------------------------------------------------------

  predicate ParkedOn(k: Call, q: Qid) {
    k.target == q && k.at.Parked?
  }

  ghost predicate AnyParked(call: map<CallId, Call>, q: Qid) {
    exists c :: c in call && ParkedOn(call[c], q)
  }

  ghost predicate AnyUnparked(call: map<CallId, Call>, q: Qid) {
    exists c :: c in call && call[c].target == q && call[c].at.Unparked?
  }

  /** On the way to look for a blocked caller. */
  predicate Signals(pc: Pc) {
    pc.Telling? || pc.Signalling?
  }

  /** Somebody will wake the callers blocked on a full queue. */
  ghost predicate Relieved(x: Queue, call: map<CallId, Call>, q: Qid) {
    AnyParked(call, q) ==> Size(x.jobs) > 0 || Signals(x.pc) || AnyUnparked(call, q)
  }

  ghost predicate Unstuck(s: State) {
    forall q :: q in s.q ==> Relieved(s.q[q], s.call, q)
  }

  /** Fewer reservations are outstanding than the queue may hold functions. */
  ghost predicate FewReserved(s: State) {
    forall q :: q in s.q ==> N(s.call, q, Reserved) < s.q[q].max
  }

  lemma FullMeansWork(s: State, c: CallId)
    requires Sound(s) && FewReserved(s) && c in s.call && WantsLock(s.q[s.call[c].target], s.call[c])
    requires !Room(s.q[s.call[c].target], s.call[c])
    ensures Size(s.q[s.call[c].target].jobs) > 0
  {
    assert Tallied(s.q[s.call[c].target], s.call, s.call[c].target);
  }

  /** A caller that is woken, refused or let in is not lost for the others of its queue. */
  lemma RelievedHere(s: State, c: CallId, a: CallAct)
    requires Sound(s) && FewReserved(s) && Unstuck(s) && CanCaller(s, c, a)
    ensures var q := s.call[c].target; var s' := DoCaller(s, c, a); Relieved(s'.q[q], s'.call, q)
  {
    var k := s.call[c];
    var q := k.target;
    var s' := DoCaller(s, c, a);
    if a.Refuse? || a.Park? {
      FullMeansWork(s, c);
    } else if a.Unpark? {
      assert c in s'.call && s'.call[c].target == q && s'.call[c].at.Unparked?;
    } else if !a.Enqueue? {
      assert Relieved(s.q[q], s.call, q);
      OthersParked(s.call, c, s'.call[c], q);
    }
    hide Sound, FewReserved, Unstuck;
  }

  /** A change to one call that neither parks it nor takes its wake-up. */
  lemma OthersParked(call: map<CallId, Call>, c: CallId, k: Call, q: Qid)
    requires c in call && (k.target == q ==> !k.at.Parked?) && (call[c].target == q ==> !call[c].at.Unparked?)
    ensures AnyParked(call[c := k], q) ==> AnyParked(call, q)
    ensures AnyUnparked(call, q) ==> AnyUnparked(call[c := k], q)
  {
    var call' := call[c := k];
    if AnyParked(call', q) {
      var d :| d in call' && ParkedOn(call'[d], q);
      assert d in call && ParkedOn(call[d], q);
    }
    if AnyUnparked(call, q) {
      var e :| e in call && call[e].target == q && call[e].at.Unparked?;
      assert e in call' && call'[e].target == q && call'[e].at.Unparked?;
    }
  }

  lemma RelievedCaller(s: State, c: CallId, a: CallAct)
    requires Sound(s) && FewReserved(s) && Unstuck(s) && CanCaller(s, c, a)
    ensures Unstuck(DoCaller(s, c, a))
  {
    var k := s.call[c];
    var s' := DoCaller(s, c, a);
    RelievedHere(s, c, a);
    assert s'.call[c].target == k.target;
    hide Sound, FewReserved, CallDo, QueueSees, CallCan, FateAfter;
    forall q | q in s'.q ensures Relieved(s'.q[q], s'.call, q) {
      if q != k.target {
        assert Relieved(s.q[q], s.call, q);
        OthersParked(s.call, c, s'.call[c], q);
      }
    }
  }

  /** Steps that park nobody, lose nothing and consume no wake-up. */
  lemma RelievedFrame(s: State, s': State)
    requires Unstuck(s)
    requires forall q :: q in s'.q && AnyParked(s'.call, q) ==>
      q in s.q && AnyParked(s.call, q) && (Size(s.q[q].jobs) > 0 || Signals(s.q[q].pc) ==> Size(s'.q[q].jobs) > 0 || Signals(s'.q[q].pc))
    requires forall q :: AnyUnparked(s.call, q) ==> AnyUnparked(s'.call, q)
    ensures Unstuck(s')
  {
    forall q | q in s'.q ensures Relieved(s'.q[q], s'.call, q) {
      if AnyParked(s'.call, q) {
        assert Relieved(s.q[q], s.call, q);
      }
    }
  }

  lemma SameParked(call: map<CallId, Call>, call': map<CallId, Call>)
    requires forall c :: c in call' && (call'[c].at.Parked? || call'[c].at.Unparked?) ==> c in call && call[c] == call'[c]
    requires forall c :: c in call && (call[c].at.Parked? || call[c].at.Unparked?) ==> c in call' && call'[c] == call[c]
    ensures forall q :: AnyParked(call', q) ==> AnyParked(call, q)
    ensures forall q :: AnyUnparked(call, q) ==> AnyUnparked(call', q)
  {
    forall q | AnyParked(call', q) ensures AnyParked(call, q) {
      var c :| c in call' && ParkedOn(call'[c], q);
      assert c in call && ParkedOn(call[c], q);
    }
    forall q | AnyUnparked(call, q) ensures AnyUnparked(call', q) {
      var c :| c in call && call[c].target == q && call[c].at.Unparked?;
      assert c in call' && call'[c].target == q && call'[c].at.Unparked?;
    }
  }

  lemma NobodyParked(s: State, q: Qid)
    requires Sound(s) && q !in s.q
    ensures !AnyParked(s.call, q)
  {
  }

  lemma RelievedWork(s: State, q: Qid, a: WorkAct)
    requires Sound(s) && Unstuck(s) && CanWork(s, q, a)
    ensures Unstuck(DoWork(s, q, a))
  {
    assert Local(s.q[q]);
    SameParked(s.call, s.call);
    hide Unstuck, AnyParked, AnyUnparked;
    RelievedFrame(s, DoWork(s, q, a));
  }

  lemma RelievedCreate(s: State, a: Action)
    requires Sound(s) && Unstuck(s) && a.Create? && Can(s, a)
    ensures Unstuck(Do(s, a))
  {
    SameParked(s.call, s.call);
    NobodyParked(s, a.q);
    hide Unstuck, AnyParked, AnyUnparked, Sound;
    RelievedFrame(s, Do(s, a));
  }

  lemma RelievedNew(s: State, a: Action)
    requires Unstuck(s) && Can(s, a) && (a.Begin? || a.Destroy? || a.Shrink?)
    ensures Unstuck(Do(s, a))
  {
    SameParked(s.call, Do(s, a).call);
    hide Unstuck, AnyParked, AnyUnparked;
    RelievedFrame(s, Do(s, a));
  }

  lemma RelievedPass(s: State, a: Action)
    requires Unstuck(s) && Can(s, a) && (a.PassOn? || a.Leave?)
    ensures Unstuck(Do(s, a))
  {
    SameParked(s.call, Do(s, a).call);
    hide Unstuck, AnyParked, AnyUnparked;
    RelievedFrame(s, Do(s, a));
  }

  lemma RelievedSleep(s: State, q: Qid, a: SleepAct)
    requires Unstuck(s) && CanSleep(s, q, a)
    ensures Unstuck(DoSleep(s, q, a))
  {
    SameParked(s.call, s.call);
    hide Unstuck, AnyParked, AnyUnparked, SleepPc, SleepBell;
    RelievedFrame(s, DoSleep(s, q, a));
  }

  lemma RelievedInvoke(s: State, q: Qid, live: bool)
    requires Sound(s) && Unstuck(s) && CanInvoke(s, q)
    ensures Unstuck(DoInvoke(s, q, live))
  {
    assert Local(s.q[q]);
    assert Size(Picked(s.q[q].jobs)) == Size(s.q[q].jobs);
    SameParked(s.call, s.call);
    hide Unstuck, AnyParked, AnyUnparked, Sound, Local, Size, Picked;
    RelievedFrame(s, DoInvoke(s, q, live));
  }

  lemma RelievedFree(s: State, q: Qid)
    requires Unstuck(s) && CanFreeHere(s, q)
    ensures Unstuck(DoFreeHere(s, q))
  {
    SameParked(s.call, s.call);
    hide Unstuck, AnyParked, AnyUnparked, Size;
    RelievedFrame(s, DoFreeHere(s, q));
  }

  lemma RelievedSignal(s: State, q: Qid, w: Option<CallId>)
    requires Sound(s) && Unstuck(s) && CanSignal(s, q, w)
    ensures Unstuck(DoSignal(s, q, w))
  {
    var s' := DoSignal(s, q, w);
    if w.Some? {
      assert w.value in s'.call && s'.call[w.value].target == q && s'.call[w.value].at.Unparked?;
      forall p | p in s'.q ensures Relieved(s'.q[p], s'.call, p) {
        assert Relieved(s.q[p], s.call, p);
        if p != q {
          OthersParked(s.call, w.value, s'.call[w.value], p);
        }
      }
    } else {
      NobodyWaits(s, q);
      assert Unstuck(s');
    }
  }

  lemma NobodyWaits(s: State, q: Qid)
    requires Sound(s) && CanSignal(s, q, None)
    ensures !AnyParked(s.call, q)
  {
    if AnyParked(s.call, q) {
      var d :| d in s.call && ParkedOn(s.call[d], q);
      ParkedCounted(s, q, d);
    }
  }

  lemma ParkedCounted(s: State, q: Qid, c: CallId)
    requires Sound(s) && q in s.q && c in s.call && ParkedOn(s.call[c], q)
    ensures s.q[q].waiting > 0
  {
    assert Tallied(s.q[q], s.call, q);
    assert c in Members(s.call, q, Waiters);
  }

  lemma UnstuckKept(s: State, a: Action)
    requires Sound(s) && FewReserved(s) && Unstuck(s) && Can(s, a)
    ensures Unstuck(Do(s, a))
  {
    hide Sound, FewReserved, Unstuck, CanCreate, CanBegin, CanDestroy, CanShrink, CanCaller, CanLeave, CanWork, CanSleep, CanInvoke, CanPassOn, CanFreeHere, CanSignal,
      DoCreate, DoBegin, DoDestroy, DoShrink, DoCaller, DoLeave, DoWork, DoSleep, DoInvoke, DoPassOn, DoFreeHere, DoSignal;
    match a
    case Caller(c, does) => RelievedCaller(s, c, does);
    case Work(q, act) => RelievedWork(s, q, act);
    case Signal(q, w) => RelievedSignal(s, q, w);
    case Create(_, _, _, _, _) => RelievedCreate(s, a);
    case PassOn(_, _) => RelievedPass(s, a);
    case Leave(_) => RelievedPass(s, a);
    case Sleep(q, act) => RelievedSleep(s, q, act);
    case Invoke(q, live) => RelievedInvoke(s, q, live);
    case FreeHere(q) => RelievedFree(s, q);
    case _ => RelievedNew(s, a);
  }

  // ---- Whole runs -------------------------------------------------------------------------------

  ghost predicate Always(s: State) {
    Sound(s) && AllKicked(s) && Bound(s) && JobBoard.Inv(BoardOf(s)) && Synced(s)
  }

  lemma AtStart()
    ensures Always(Nothing) && Unstuck(Nothing)
  {
    assert DeskMap(Nothing.q) == map[] && CarrierMap(Nothing.call) == map[];
  }

  lemma Preserved(s: State, a: Action)
    requires Always(s) && Can(s, a)
    ensures Always(Do(s, a))
  {
    hide Sound, AllKicked, Bound, Synced, BoardOf, Can, Do;
    SoundKept(s, a);
    KickedKept(s, a);
    RefinesBoard(s, a);
    Kept(BoardOf(s), MoveOf(s, a));
    SyncedKept(s, a);
    InvParts(BoardOf(s));
    BoundKept(s, a);
  }

  lemma {:induction false} Reached(states: seq<State>, actions: seq<Action>, i: nat)
    requires Run(states, actions) && i < |states|
    ensures Always(states[i])
  {
    hide Always;
    if i == 0 {
      AtStart();
    } else {
      Reached(states, actions, i - 1);
      Preserved(states[i - 1], actions[i - 1]);
    }
  }

  /**
   No kick is lost.  A queue that sleeps without a timeout although a function is
   queued or it was told to terminate can be woken by a kick that is already
   there, or a caller between its change and its kick sees need_kicking set.
   */
  lemma NoLostKick(states: seq<State>, actions: seq<Action>, i: nat, q: Qid)
    requires Run(states, actions) && i < |states| && q in states[i].q
    requires var x := states[i].q[q]; x.pc == Asleep(true) && (x.jobs.list != [] || x.life.terminated)
    ensures
      || Can(states[i], Sleep(q, WakeKicked))
      || (states[i].q[q].bell.need && exists c :: c in states[i].call && Committed(states[i].call[c], q))
  {
    Reached(states, actions, i);
    var s := states[i];
    assert Local(s.q[q]) && Kicked(s.q[q], Coming(s.call, q));
  }

  /** How many steps of a caller are left until its kick. */
  function ToKick(at: Stage): nat {
    match at
    case Linked => 4
    case Published => 3
    case SawNeed => 2
    case Kicking => 1
    case _ => 0
  }

  /** After this step the caller has kicked, is nearer to it, or was not needed. */
  ghost predicate Closer(s: State, c: CallId, a: CallAct, q: Qid)
    requires CanCaller(s, c, a) && q in s.q
  {
    var s' := DoCaller(s, c, a);
    (Committed(s'.call[c], q) && ToKick(s'.call[c].at) < ToKick(s.call[c].at)) || !s.q[q].bell.need || Pulse(s'.q[q].bell)
  }

  lemma CallCloser(x: Queue, c: CallId, k: Call, stop: bool, a: CallAct)
    requires CallCan(x, k, stop, a) && Committed(k, k.target)
    ensures var k' := CallDo(x, k, a);
      (Committed(k', k.target) && ToKick(k'.at) < ToKick(k.at)) || !x.bell.need || Pulse(QueueSees(x, c, k, a).bell)
  {
  }

  /** And the caller it depends on is never itself blocked: it can take a step, and whichever it takes brings the kick nearer. */
  lemma CommittedGoesOn(states: seq<State>, actions: seq<Action>, i: nat, c: CallId, q: Qid)
    requires Run(states, actions) && i < |states| && c in states[i].call && Committed(states[i].call[c], q)
    ensures q in states[i].q && exists a :: CanCaller(states[i], c, a)
    ensures forall a :: CanCaller(states[i], c, a) ==> Closer(states[i], c, a, q)
  {
    Reached(states, actions, i);
    var s := states[i];
    var k := s.call[c];
    AlwaysSound(s);
    CallFacts(s, c);
    hide Always, Sound, Run;
    var next := match k.at case Linked => Count case Published => ReadNeed case SawNeed => KickCount case _ => Kick;
    assert CanCaller(s, c, next);
    forall a | CanCaller(s, c, a) ensures Closer(s, c, a, q) {
      CallCloser(s.q[q], c, k, Stops(s, k), a);
    }
  }

  /** `count`, `usage`, `kick_q_count` and `wait_q_count` always say what they should. */
  lemma Conserved(states: seq<State>, actions: seq<Action>, i: nat, q: Qid)
    requires Run(states, actions) && i < |states| && q in states[i].q
    ensures var x, call := states[i].q[q], states[i].call;
      && x.count == |x.jobs.current| + |x.jobs.batch| + |x.jobs.list| - (if x.lock.Some? then 1 else 0) + N(call, q, Reserved)
      && x.usage == 1 + N(call, q, Refs) && x.waiting == N(call, q, Waiters)
      && (!x.bell.event ==> x.bell.kicks == x.bell.pipe + x.bell.got + N(call, q, Kickers))
  {
    Reached(states, actions, i);
    assert Tallied(states[i].q[q], states[i].call, q);
  }

  /** A queue starts functions in the order it accepted them, each once; the rest still wait, in order. */
  lemma FirstInFirstOut(states: seq<State>, actions: seq<Action>, i: nat, q: Qid)
    requires Run(states, actions) && i < |states| && q in states[i].q
    ensures var x := states[i].q[q];
      StartedOn(states[i].log, q) + Names(x.jobs.batch + x.jobs.list) == Names(x.jobs.accepted)
  {
    Reached(states, actions, i);
    var s := states[i];
    var x := s.q[q];
    DeskReads(s, q);
    assert Local(x);
    NamesAppend(x.jobs.retired + x.jobs.current, x.jobs.batch + x.jobs.list);
    assert x.jobs.accepted == (x.jobs.retired + x.jobs.current) + (x.jobs.batch + x.jobs.list);
  }

  lemma NamesAppend(a: seq<Job>, b: seq<Job>)
    ensures Names(a + b) == Names(a) + Names(b)
  {
  }

  /** The possible lives of a function: not run yet, run once, or run once and then exactly once more. */
  predicate ProperRuns(id: JobId, done: Option<Qid>, runs: seq<Event>) {
    || runs == []
    || (|runs| == 1 && runs[0] == Event(id, runs[0].on, runs[0].live, First))
    || (|runs| == 2 && done.Some? && runs[0] == Event(id, runs[0].on, true, First) &&
        (runs[1] == Event(id, done.value, runs[1].live, OnDone) || runs[1] == Event(id, runs[0].on, false, FreeOnly)))
  }

  lemma ExactlyOnce(states: seq<State>, actions: seq<Action>, i: nat, id: JobId)
    requires Run(states, actions) && i < |states|
    ensures id !in states[i].fate ==> Of(states[i].log, id) == []
    ensures id in states[i].fate ==> ProperRuns(id, states[i].fate[id].done, Of(states[i].log, id))
  {
    Reached(states, actions, i);
    InvParts(BoardOf(states[i]));
  }

  /** The list is empty when the queue is destroyed: everything accepted was executed, and nobody is left to add more. */
  lemma DrainedWhenGone(states: seq<State>, actions: seq<Action>, i: nat, q: Qid)
    requires Run(states, actions) && i < |states| && q in states[i].q && states[i].q[q].pc.Gone?
    ensures var x := states[i].q[q];
      && x.jobs.list == [] && x.jobs.batch == [] && x.jobs.current == [] && x.jobs.retired == x.jobs.accepted
      && x.count == 0 && x.usage == 1
    ensures forall c :: c in states[i].call ==> states[i].call[c].target != q
    ensures forall a :: Can(states[i], a) ==> q in Do(states[i], a).q && Do(states[i], a).q[q] == states[i].q[q]
  {
    Reached(states, actions, i);
    GoneFacts(states[i], q);
    forall a | Can(states[i], a) ensures q in Do(states[i], a).q && Do(states[i], a).q[q] == states[i].q[q] {
      GoneStays(states[i], a, q);
    }
  }

  lemma GoneFacts(s: State, q: Qid)
    requires Sound(s) && q in s.q && s.q[q].pc.Gone?
    ensures var x := s.q[q];
      && x.jobs.list == [] && x.jobs.batch == [] && x.jobs.current == [] && x.jobs.retired == x.jobs.accepted
      && x.count == 0 && x.usage == 1 && !x.life.installed && !x.life.pooled
    ensures forall c :: c in s.call ==> s.call[c].target != q
  {
    assert Local(s.q[q]) && Tallied(s.q[q], s.call, q);
    forall c | c in s.call ensures s.call[c].target != q {
      assert Fits(s.q[s.call[c].target], s.call[c]);
    }
    forall w ensures N(s.call, q, w) == 0 {
      assert forall c :: c in s.call ==> !In(s.call[c], q, w);
      assert Members(s.call, q, w) == {};
    }
  }

  lemma GoneIdle(x: Queue)
    requires x.pc.Gone?
    ensures forall a :: !WorkCan(x, a)
    ensures forall a :: !SleepCan(x.pc, x.bell, a)
  {
  }

  /** Nobody can get hold of a queue that is gone. */
  lemma GoneNew(s: State, c: CallId, k: Call, q: Qid)
    requires q in s.q && s.q[q].pc.Gone? && !s.q[q].life.installed && !s.q[q].life.pooled && MayCall(s, c, k)
    ensures k.target != q
  {
  }

  /** The queue a step changes is another one. */
  lemma GoneStaysCall(s: State, a: Action, q: Qid)
    requires q in s.q && s.q[q].pc.Gone? && !s.q[q].life.installed && !s.q[q].life.pooled && Can(s, a)
    requires forall c :: c in s.call ==> s.call[c].target != q
    requires a.Begin? || a.Destroy? || a.Shrink? || a.Caller? || a.Leave?
    ensures q in Do(s, a).q && Do(s, a).q[q] == s.q[q]
  {
    match a
    case Begin(c, k) => GoneNew(s, c, k, q);
    case Destroy(c, k) => GoneNew(s, c, k, q);
    case _ =>
    hide QueueSees, CallDo, CallCan, FateAfter, LetGo, Held, Busy, MayCall;
  }

  lemma GoneStaysPass(s: State, p: Qid, c: CallId, q: Qid)
    requires q in s.q && s.q[q].pc.Gone? && !s.q[q].life.installed && CanPassOn(s, p, c)
    ensures q in DoPassOn(s, p, c).q && DoPassOn(s, p, c).q[q] == s.q[q]
  {
    hide Held;
  }

  lemma GoneStaysThread(s: State, a: Action, q: Qid)
    requires q in s.q && s.q[q].pc.Gone? && Can(s, a) && (a.Work? || a.Sleep? || a.Invoke? || a.FreeHere? || a.Signal?)
    ensures q in Do(s, a).q && Do(s, a).q[q] == s.q[q]
  {
    GoneIdle(s.q[q]);
    hide WorkDo, WorkCan, SleepDo, SleepCan, RetiredFate, Busy;
  }

  lemma CreateElsewhere(s: State, p: Qid, x: Queue, q: Qid)
    requires p != q && q in s.q
    ensures q in DoCreate(s, p, x).q && DoCreate(s, p, x).q[q] == s.q[q]
  {
  }

  lemma GoneStays(s: State, a: Action, q: Qid)
    requires Sound(s) && q in s.q && s.q[q].pc.Gone? && Can(s, a)
    ensures q in Do(s, a).q && Do(s, a).q[q] == s.q[q]
  {
    GoneFacts(s, q);
    hide Sound, DoPassOn, CanPassOn, DoCreate;
    if a.PassOn? {
      GoneStaysPass(s, a.q, a.c, q);
    } else if a.Create? {
      CreateElsewhere(s, a.q, NewQueue(a.max, a.nonblock, a.event, a.pooled), q);
    } else {
      hide Can, Do;
      if a.Work? || a.Sleep? || a.Invoke? || a.FreeHere? || a.Signal? {
        GoneStaysThread(s, a, q);
      } else {
        GoneStaysCall(s, a, q);
      }
    }
  }

  lemma AllGone(s: State)
    requires Sound(s) && forall q :: q in s.q ==> s.q[q].pc.Gone?
    ensures s.call == map[] && forall q :: q in s.q ==> DeskOf(s.q[q]).act == [] && DeskOf(s.q[q]).wait == []
  {
    forall q | q in s.q ensures DeskOf(s.q[q]).act == [] && DeskOf(s.q[q]).wait == [] {
      GoneFacts(s, q);
    }
    forall c ensures c !in s.call {
      if c in s.call {
        GoneFacts(s, s.call[c].target);
      }
    }
  }

  /** On an empty board everything has ended. */
  lemma EmptyBoard(b: Board, id: JobId)
    requires Found(b) && Logged(b) && id in b.fate && b.carrier == map[]
    requires forall q :: q in b.desk ==> b.desk[q].act == [] && b.desk[q].wait == []
    ensures var f, runs := b.fate[id], Of(b.log, id);
      || (f.at.Refused? && runs == [])
      || (|runs| == 1 && (f.done.None? || !runs[0].live))
      || (|runs| == 2 && f.done.Some? && runs[0].live)
  {
    assert FoundAt(b, id, b.fate[id].at);
    hide Of;
  }

  /** Once every queue is gone, each accepted function has had all its runs. */
  lemma NothingLost(states: seq<State>, actions: seq<Action>, i: nat, id: JobId)
    requires Run(states, actions) && i < |states| && id in states[i].fate
    requires forall q :: q in states[i].q ==> states[i].q[q].pc.Gone?
    ensures var f, runs := states[i].fate[id], Of(states[i].log, id);
      || (f.at.Refused? && runs == [])
      || (|runs| == 1 && (f.done.None? || !runs[0].live))
      || (|runs| == 2 && f.done.Some? && runs[0].live)
  {
    Reached(states, actions, i);
    var s := states[i];
    hide Run, Of, Sound, AllKicked, Bound, Synced;
    InvParts(BoardOf(s));
    AllGone(s);
    assert CarrierMap(s.call) == map[];
    hide JobBoard.Inv, Found, Logged, CarrierMap;
    EmptyBoard(BoardOf(s), id);
  }

  /** When a synchronous call returns, its function was run by the queue it was sent to, unless it was refused. */
  lemma SyncRan(states: seq<State>, actions: seq<Action>, i: nat, c: CallId)
    requires Run(states, actions) && i < |actions| && actions[i] == Leave(c) && states[i].call[c].sync
    ensures var k := states[i].call[c];
      || (k.job.id in states[i].fate && states[i].fate[k.job.id].at.Refused?)
      || (exists e :: 0 <= e < |Of(states[i].log, k.job.id)| && Of(states[i].log, k.job.id)[e].on == k.target)
  {
    assert Can(states[i], actions[i]);
    Reached(states, actions, i);
    var s, k := states[i], states[i].call[c];
    InvParts(BoardOf(s));
    assert CallSynced(s, c, k);
    hide Sound, AllKicked, Bound, JobBoard.Inv, Synced, Run, InTurn;
    if k.job in s.q[k.target].jobs.retired {
      RetiredRan(s, k.target, k.job);
    }
  }

  /** The result of a synchronous call is written while the call is still there to be told, and after its function was executed. */
  lemma TellsTheWaiting(states: seq<State>, actions: seq<Action>, i: nat, q: Qid)
    requires Run(states, actions) && i < |actions| && actions[i] == Work(q, Tell)
    ensures var s, c := states[i], states[i].q[q].pc.to;
      c in s.call && s.call[c].sync && Inside(s.call[c].at) && s.call[c].target == q && c !in s.told && s.call[c].job in s.q[q].jobs.retired
  {
    assert Can(states[i], actions[i]);
    Reached(states, actions, i);
    assert TellAwaited(states[i].q[q], states[i].call, states[i].told, q);
  }

  /** And nobody waits in vain: until it is told, its queue still has the function, or is about to tell it. */
  lemma SyncServed(states: seq<State>, actions: seq<Action>, i: nat, c: CallId)
    requires Run(states, actions) && i < |states| && c in states[i].call && states[i].call[c].at.Syncing? && states[i].call[c].sync
    ensures var s, k := states[i], states[i].call[c];
      k.target in s.q && (Can(s, Caller(c, SyncDone)) || s.q[k.target].pc == Telling(c) || k.job in Line(s.q[k.target].jobs))
  {
    Reached(states, actions, i);
    var s, k := states[i], states[i].call[c];
    assert CallSynced(s, c, k);
    if c in s.told {
      assert Can(s, Caller(c, SyncDone));
    } else if s.q[k.target].pc != Telling(c) {
      var line := Line(s.q[k.target].jobs);
      var j :| 0 <= j < |line| && line[j].waiter == Some(c);
      assert LineAwaited(line, s.call, s.told, k.target);
      assert Waits(s.call, s.told, c, k.target, line[j]);
    }
  }

  // ---- When blocked callers can be forgotten ------------------------------------------------------

  /** In this run no queue has more than `bound` reservations, and all queues hold `max` functions. */
  ghost predicate Within(states: seq<State>, max: nat, bound: nat) {
    forall i, q :: 0 <= i < |states| && q in states[i].q ==> states[i].q[q].max == max && N(states[i].call, q, Reserved) <= bound
  }

  lemma {:induction false} NobodyForgotten(states: seq<State>, actions: seq<Action>, max: nat, bound: nat, i: nat)
    requires Run(states, actions) && Within(states, max, bound) && bound < max && i < |states|
    ensures Unstuck(states[i])
  {
    hide Always, Unstuck, Within, Can, Do;
    if i == 0 {
      AtStart();
    } else {
      NobodyForgotten(states, actions, max, bound, i - 1);
      Reached(states, actions, i - 1);
      AlwaysSound(states[i - 1]);
      WithinFew(states, max, bound, i - 1);
      hide Sound, FewReserved;
      UnstuckKept(states[i - 1], actions[i - 1]);
    }
  }

  lemma WithinFew(states: seq<State>, max: nat, bound: nat, i: nat)
    requires Within(states, max, bound) && bound < max && i < |states|
    ensures FewReserved(states[i])
  {
  }

  lemma AlwaysSound(s: State)
    requires Always(s)
    ensures Sound(s)
  {
  }

  /** A pool's caller: it reserves a place, then tries to queue. */
  function Reserver(c: CallId): Call {
    Call(0, None, Ref, true, false, false, false, Job(c, false, None, None), Entering)
  }

  function Crowded(max: nat, n: nat): State {
    State(map[0 := NewQueue(max, false, false, true).(usage := 1 + n, count := n)],
          map c | 0 <= c < n :: Reserver(c), {}, map c | 0 <= c < n :: Fate(None, Calling(c)), [])
  }

  lemma CrowdStarts(max: nat)
    requires max >= 1
    ensures var a := Create(0, max, false, false, true); Can(Nothing, a) && Do(Nothing, a) == Crowded(max, 0)
  {
  }

  lemma CrowdGrows(max: nat, n: nat)
    ensures var a := Begin(n, Reserver(n)); Can(Crowded(max, n), a) && Do(Crowded(max, n), a) == Crowded(max, n + 1)
  {
    var s, s' := Crowded(max, n), Crowded(max, n + 1);
    assert s.call[n := Reserver(n)] == s'.call;
    assert s.fate[n := Fate(None, Calling(n))] == s'.fate;
  }

  lemma CrowdReserved(max: nat, n: nat)
    ensures N(Crowded(max, n).call, 0, Reserved) == n
  {
    if n > 0 {
      CrowdReserved(max, n - 1);
      SetN(Crowded(max, n - 1).call, n - 1, Reserver(n - 1), 0, Reserved);
      assert Crowded(max, n - 1).call[n - 1 := Reserver(n - 1)] == Crowded(max, n).call;
    } else {
      assert Members(Crowded(max, 0).call, 0, Reserved) == {};
    }
  }

  function CrowdStates(max: nat, n: nat): seq<State> {
    if n == 0 then [Nothing, Crowded(max, 0)] else CrowdStates(max, n - 1) + [Crowded(max, n)]
  }

  function CrowdActions(max: nat, n: nat): seq<Action> {
    if n == 0 then [Create(0, max, false, false, true)] else CrowdActions(max, n - 1) + [Begin(n - 1, Reserver(n - 1))]
  }

  lemma Extend(states: seq<State>, actions: seq<Action>, a: Action, max: nat, bound: nat)
    requires Run(states, actions) && Within(states, max, bound) && Can(states[|actions|], a)
    requires forall q :: q in Do(states[|actions|], a).q ==>
      Do(states[|actions|], a).q[q].max == max && N(Do(states[|actions|], a).call, q, Reserved) <= bound
    ensures var states' := states + [Do(states[|actions|], a)]; Run(states', actions + [a]) && Within(states', max, bound)
  {
    hide Can, Do, N;
  }

  lemma {:induction false} CrowdRuns(max: nat, n: nat)
    requires 1 <= max && n <= max
    ensures |CrowdStates(max, n)| == n + 2 && CrowdStates(max, n)[n + 1] == Crowded(max, n)
    ensures Run(CrowdStates(max, n), CrowdActions(max, n)) && Within(CrowdStates(max, n), max, max)
  {
    hide Can, Do, N;
    CrowdReserved(max, n);
    if n == 0 {
      CrowdStarts(max);
      assert Run([Nothing], []) && Within([Nothing], max, max);
      Extend([Nothing], [], Create(0, max, false, false, true), max, max);
    } else {
      CrowdRuns(max, n - 1);
      CrowdGrows(max, n - 1);
      Extend(CrowdStates(max, n - 1), CrowdActions(max, n - 1), Begin(n - 1, Reserver(n - 1)), max, max);
    }
  }

  ghost predicate SafeWithin(max: nat, bound: nat) {
    forall states, actions, i :: Run(states, actions) && Within(states, max, bound) && 0 <= i < |states| ==> Unstuck(states[i])
  }

  /**
   Callers blocked on full queues are always woken again exactly when fewer
   reservations can be outstanding than a queue may hold functions: with as many,
   the reserving callers wait for each other on an empty queue.
   */
  lemma BlockedCallersServed(max: nat, bound: nat)
    requires max >= 1
    ensures SafeWithin(max, bound) <==> bound < max
  {
    if bound < max {
      forall states, actions, i | Run(states, actions) && Within(states, max, bound) && 0 <= i < |states| ensures Unstuck(states[i]) {
        NobodyForgotten(states, actions, max, bound, i);
      }
    } else {
      var states, actions := CrowdDeadlocks(max);
      assert Within(states, max, bound);
      assert !Unstuck(states[|actions|]);
    }
  }

  ghost function StuckState(max: nat): State
    requires max >= 1
  {
    var s := Crowded(max, max);
    s.(q := s.q[0 := s.q[0].(waiting := 1)], call := s.call[0 := Reserver(0).(at := Parked)])
  }

  lemma StuckStep(max: nat)
    requires max >= 1
    ensures Can(Crowded(max, max), Caller(0, Park)) && Do(Crowded(max, max), Caller(0, Park)) == StuckState(max)
    ensures N(StuckState(max).call, 0, Reserved) == max && !Unstuck(StuckState(max))
  {
    var s, s' := Crowded(max, max), StuckState(max);
    CrowdReserved(max, max);
    SetN(s.call, 0, Reserver(0).(at := Parked), 0, Reserved);
    assert 0 in s'.call && ParkedOn(s'.call[0], 0);
    assert !Relieved(s'.q[0], s'.call, 0);
  }

  lemma CrowdDeadlocks(max: nat) returns (states: seq<State>, actions: seq<Action>)
    requires max >= 1
    ensures Run(states, actions) && Within(states, max, max) && !Unstuck(states[|actions|])
  {
    CrowdRuns(max, max);
    StuckStep(max);
    hide Can, Do, N, Unstuck;
    Extend(CrowdStates(max, max), CrowdActions(max, max), Caller(0, Park), max, max);
    states, actions := CrowdStates(max, max) + [StuckState(max)], CrowdActions(max, max) + [Caller(0, Park)];
  }
}

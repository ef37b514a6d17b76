/** The message queues do what the board of functions says, step by step. */
module MpQueueJobs {
  import opened Common
  import opened JobBoard
  import opened MpQueue
  import opened MpQueueProof

  function DeskOf(x: Queue): Desk {
    Desk(x.jobs.retired + x.jobs.current, if x.pc == Counting(true) then [] else x.jobs.current, x.jobs.batch + x.jobs.list,
         if x.pc.Running? then Some(x.pc.live) else None)
  }

  ghost function DeskMap(q: map<Qid, Queue>): map<Qid, Desk> {
    map i | i in q :: DeskOf(q[i])
  }

  ghost function CarrierMap(call: map<CallId, Call>): map<CallId, Job> {
    map c | c in call && Carrying(call[c]) :: call[c].job
  }

  ghost function BoardOf(s: State): Board {
    Board(DeskMap(s.q), CarrierMap(s.call), s.fate, s.log)
  }

  /** A call with a second run goes to the done queue and cannot be refused. */
  predicate BoundCall(fate: map<JobId, Fate>, k: Call) {
    Carrying(k) && k.job.again ==> k.noFail && k.job.id in fate && fate[k.job.id].done == Some(k.target)
  }

  ghost predicate Bound(s: State) {
    forall c :: c in s.call ==> BoundCall(s.fate, s.call[c])
  }

  ghost function MoveOf(s: State, a: Action): Move
    requires Can(s, a)
  {
    match a
    case Create(q, _, _, _, _) => Open(q)
    case Begin(c, k) => Carry(c, k.job)
    case Caller(c, act) =>
      if !Carrying(s.call[c]) then Rest
      else if act.Enqueue? then Seat(c, s.call[c].target)
      else if act.Refuse? then TurnAway(c)
      else Rest
    case Work(q, act) =>
      if act.Return? && s.q[q].pc.Running? then Settle(q)
      else if act.Retire? && s.q[q].pc == Counting(false) then Finish(q)
      else Rest
    case Invoke(q, live) => Start(q, live)
    case PassOn(q, c) => Hand(q, c)
    case FreeHere(q) => FreeAgain(q)
    case _ => Rest
  }

  // ---- Maps -----------------------------------------------------------------------------

  lemma DeskSet(q: map<Qid, Queue>, i: Qid, x: Queue)
    ensures DeskMap(q[i := x]) == DeskMap(q)[i := DeskOf(x)]
  {
  }

  lemma DeskSame(q: map<Qid, Queue>, i: Qid, x: Queue)
    requires i in q && DeskOf(x) == DeskOf(q[i])
    ensures DeskMap(q[i := x]) == DeskMap(q)
  {
  }

  lemma CarrierSet(call: map<CallId, Call>, c: CallId, k: Call)
    ensures CarrierMap(call[c := k]) == if Carrying(k) then CarrierMap(call)[c := k.job] else CarrierMap(call) - {c}
  {
  }

  lemma CarrierKeep(call: map<CallId, Call>, c: CallId, k: Call)
    requires c in call && Carrying(k) == Carrying(call[c]) && k.job == call[c].job
    ensures CarrierMap(call[c := k]) == CarrierMap(call)
  {
  }

  lemma CarrierAdd(call: map<CallId, Call>, c: CallId, k: Call)
    requires c !in call && !Carrying(k)
    ensures CarrierMap(call[c := k]) == CarrierMap(call)
  {
  }

  lemma CarrierDrop(call: map<CallId, Call>, c: CallId)
    requires c in call && !Carrying(call[c])
    ensures CarrierMap(call - {c}) == CarrierMap(call)
  {
  }

  // ---- Refinement -------------------------------------------------------------------------

  /** `m` is a move on the board that takes `s` to `s'`. */
  ghost predicate Plays(s: State, m: Move, s': State) {
    May(BoardOf(s), m) && BoardOf(s') == Made(BoardOf(s), m)
  }

  /** Nothing on the board changes. */
  lemma PlaysRest(s: State, s': State)
    requires DeskMap(s'.q) == DeskMap(s.q) && CarrierMap(s'.call) == CarrierMap(s.call) && s'.fate == s.fate && s'.log == s.log
    ensures Plays(s, Rest, s')
  {
  }

  lemma RefineBegin(s: State, c: CallId, k: Call)
    requires CanBegin(s, c, k)
    ensures Plays(s, Carry(c, k.job), DoBegin(s, c, k))
  {
    DeskSame(s.q, k.target, Held(s.q[k.target], k));
    CarrierSet(s.call, c, k);
    assert c !in CarrierMap(s.call);
    hide DeskMap, CarrierMap, Held, MayCall;
  }

  lemma RefineDestroy(s: State, c: CallId, k: Call)
    requires CanDestroy(s, c, k)
    ensures Plays(s, Rest, DoDestroy(s, c, k))
  {
    DeskSame(s.q, k.target, Held(s.q[k.target], k));
    CarrierAdd(s.call, c, k);
    hide DeskMap, CarrierMap, Held, MayCall, Plays;
    PlaysRest(s, DoDestroy(s, c, k));
  }

  lemma RefineShrink(s: State, c: CallId, k: Call)
    requires CanShrink(s, c, k)
    ensures Plays(s, Rest, DoShrink(s, c, k))
  {
    DeskSame(s.q, k.target, OutOfPool(Held(s.q[k.target], k)));
    CarrierAdd(s.call, c, k);
    hide DeskMap, CarrierMap, Held, OutOfPool, Plays;
    PlaysRest(s, DoShrink(s, c, k));
  }

  lemma RefineEnqueue(s: State, c: CallId)
    requires Sound(s) && CanCaller(s, c, Enqueue) && Bound(s)
    ensures Carrying(s.call[c]) && Plays(s, Seat(c, s.call[c].target), DoCaller(s, c, Enqueue))
  {
    var k := s.call[c];
    var x := s.q[k.target];
    var x' := QueueSees(x, c, k, Enqueue);
    assert BoundCall(s.fate, k) && Fits(x, k);
    CarrierSet(s.call, c, CallDo(x, k, Enqueue));
    MapReads(s, c, k.target);
    DeskSet(s.q, k.target, x');
    assert DeskOf(x').wait == DeskOf(x).wait + [k.job];
    assert DeskOf(x') == DeskOf(x).(wait := DeskOf(x).wait + [k.job]);
    hide DeskMap, CarrierMap, Sound, Bound, Fits, QueueSees, DeskOf;
  }

  lemma RefineRefuse(s: State, c: CallId)
    requires Sound(s) && CanCaller(s, c, Refuse) && Bound(s)
    ensures Carrying(s.call[c]) && Plays(s, TurnAway(c), DoCaller(s, c, Refuse))
  {
    var k := s.call[c];
    var x := s.q[k.target];
    assert BoundCall(s.fate, k) && Fits(x, k);
    CarrierSet(s.call, c, CallDo(x, k, Refuse));
    MapReads(s, c, k.target);
    DeskSame(s.q, k.target, QueueSees(x, c, k, Refuse));
    hide DeskMap, CarrierMap, Sound, Bound, Fits, QueueSees, DeskOf;
  }

  lemma RefineCaller(s: State, c: CallId, a: CallAct)
    requires CanCaller(s, c, a) && !a.Enqueue? && !a.Refuse?
    ensures Plays(s, Rest, DoCaller(s, c, a))
  {
    var k := s.call[c];
    var x := s.q[k.target];
    CarrierKeep(s.call, c, CallDo(x, k, a));
    DeskSame(s.q, k.target, QueueSees(x, c, k, a));
    assert FateAfter(s.fate, k, a) == s.fate;
    hide DeskMap, CarrierMap, QueueSees, CallDo, CallCan, FateAfter, Plays;
    PlaysRest(s, DoCaller(s, c, a));
  }

  lemma MapReads(s: State, c: CallId, q: Qid)
    requires c in s.call && q in s.q
    ensures q in DeskMap(s.q) && DeskMap(s.q)[q] == DeskOf(s.q[q])
    ensures Carrying(s.call[c]) ==> c in CarrierMap(s.call) && CarrierMap(s.call)[c] == s.call[c].job
  {
  }

  lemma RefineLeave(s: State, c: CallId)
    requires CanLeave(s, c)
    ensures Plays(s, Rest, DoLeave(s, c))
  {
    var k := s.call[c];
    DeskSame(s.q, k.target, LetGo(s.q[k.target], k));
    CarrierDrop(s.call, c);
    hide DeskMap, CarrierMap, LetGo, Plays;
    PlaysRest(s, DoLeave(s, c));
  }

  lemma WorkDesk(x: Queue, a: WorkAct)
    requires Local(x) && WorkCan(x, a)
    ensures var d, d' := DeskOf(x), DeskOf(WorkDo(x, a));
      d' == if a.Return? && x.pc.Running? then d.(live := None) else if a.Retire? && x.pc == Counting(false) then d.(act := []) else d
  {
    hide Phased, Needing;
  }

  lemma DeskReads(s: State, q: Qid)
    requires q in s.q
    ensures q in DeskMap(s.q) && DeskMap(s.q)[q] == DeskOf(s.q[q])
  {
  }

  lemma RefineReturn(s: State, q: Qid)
    requires Sound(s) && CanWork(s, q, Return) && s.q[q].pc.Running?
    ensures Plays(s, Settle(q), DoWork(s, q, Return))
  {
    var x := s.q[q];
    assert Local(x);
    WorkDesk(x, Return);
    DeskSet(s.q, q, WorkDo(x, Return));
    DeskReads(s, q);
    hide DeskMap, CarrierMap, WorkDo, Sound, Local;
  }

  lemma RefineRetire(s: State, q: Qid)
    requires Sound(s) && CanWork(s, q, WorkAct.Retire) && s.q[q].pc == Counting(false)
    ensures Plays(s, Finish(q), DoWork(s, q, WorkAct.Retire))
  {
    var x := s.q[q];
    assert Local(x);
    WorkDesk(x, WorkAct.Retire);
    DeskSet(s.q, q, WorkDo(x, WorkAct.Retire));
    DeskReads(s, q);
    assert |x.jobs.current| == 1;
    hide DeskMap, CarrierMap, WorkDo, Sound, Local;
  }

  lemma RefineWork(s: State, q: Qid, a: WorkAct)
    requires Sound(s) && CanWork(s, q, a) && !(a.Return? && s.q[q].pc.Running?) && !(a.Retire? && s.q[q].pc == Counting(false))
    ensures Plays(s, Rest, DoWork(s, q, a))
  {
    var x := s.q[q];
    assert Local(x);
    WorkDesk(x, a);
    DeskSame(s.q, q, WorkDo(x, a));
    hide DeskMap, CarrierMap, WorkDo, WorkCan, Sound, Local, Plays;
    PlaysRest(s, DoWork(s, q, a));
  }

  lemma SleepDesk(x: Queue, a: SleepAct)
    requires SleepCan(x.pc, x.bell, a)
    ensures DeskOf(SleepDo(x, a)) == DeskOf(x)
  {
    hide SleepBell;
  }

  lemma RefineSleep(s: State, q: Qid, a: SleepAct)
    requires CanSleep(s, q, a)
    ensures Plays(s, Rest, DoSleep(s, q, a))
  {
    SleepDesk(s.q[q], a);
    DeskSame(s.q, q, SleepDo(s.q[q], a));
    hide DeskMap, CarrierMap, SleepDo, SleepCan, Plays;
    PlaysRest(s, DoSleep(s, q, a));
  }

  lemma PickedDesk(x: Queue, live: bool)
    requires Local(x) && x.pc == Picking && x.jobs.batch != []
    ensures var d, d' := DeskOf(x), DeskOf(x.(jobs := Picked(x.jobs), pc := Running(live)));
      d.act == [] && d.wait != [] && d.wait[0] == x.jobs.batch[0] && d' == Desk(d.seen + [d.wait[0]], [d.wait[0]], d.wait[1..], Some(live))
  {
    hide Phased, Needing;
  }

  lemma RefineInvoke(s: State, q: Qid, live: bool)
    requires Sound(s) && CanInvoke(s, q)
    ensures Plays(s, Start(q, live), DoInvoke(s, q, live))
  {
    var x := s.q[q];
    assert Local(x);
    PickedDesk(x, live);
    DeskSet(s.q, q, x.(jobs := Picked(x.jobs), pc := Running(live)));
    DeskReads(s, q);
    hide DeskMap, CarrierMap, Sound, Local, DeskOf, Picked;
  }

  lemma RefineFree(s: State, q: Qid)
    requires CanFreeHere(s, q)
    ensures Plays(s, FreeAgain(q), DoFreeHere(s, q))
  {
    DeskSet(s.q, q, s.q[q].(pc := Freeing));
    DeskReads(s, q);
    hide DeskMap, CarrierMap;
  }

  lemma RefinePass(s: State, q: Qid, c: CallId)
    requires CanPassOn(s, q, c)
    ensures Plays(s, Hand(q, c), DoPassOn(s, q, c))
  {
    var x := s.q[q];
    var x' := x.(pc := Counting(true));
    var k := Handing(q, x.jobs.current[0]);
    var q' := s.q[q := x'];
    DeskSet(s.q, q, x');
    DeskReads(s, q);
    DeskSame(q', k.target, Held(q'[k.target], k));
    CarrierSet(s.call, c, k);
    assert c !in CarrierMap(s.call);
    assert DeskOf(x') == DeskOf(x).(act := [], live := None) && DeskOf(x).act == x.jobs.current && DeskOf(x).live == Some(true);
    hide DeskMap, CarrierMap, Held, DeskOf;
  }

  lemma RefineSignal(s: State, q: Qid, w: Option<CallId>)
    requires CanSignal(s, q, w)
    ensures Plays(s, Rest, DoSignal(s, q, w))
  {
    DeskSame(s.q, q, s.q[q].(pc := Picking));
    if w.Some? {
      CarrierKeep(s.call, w.value, s.call[w.value].(at := Unparked));
    }
    hide DeskMap, CarrierMap, Plays;
    PlaysRest(s, DoSignal(s, q, w));
  }

  lemma RefineCreate(s: State, q: Qid, max: nat, nonblock: bool, event: bool, pooled: bool)
    requires CanCreate(s, q, max)
    ensures Plays(s, Open(q), DoCreate(s, q, NewQueue(max, nonblock, event, pooled)))
  {
    var x := NewQueue(max, nonblock, event, pooled);
    DeskSet(s.q, q, x);
    assert DeskOf(x) == Desk([], [], [], None);
    assert q !in DeskMap(s.q);
    hide DeskMap, CarrierMap, NewQueue, DeskOf;
  }

  lemma RefineThread(s: State, q: Qid, a: WorkAct)
    requires Sound(s) && CanWork(s, q, a)
    ensures Plays(s, MoveOf(s, Work(q, a)), DoWork(s, q, a))
  {
    hide Plays, Sound, DoWork;
    if a.Return? && s.q[q].pc.Running? {
      RefineReturn(s, q);
    } else if a.Retire? && s.q[q].pc == Counting(false) {
      RefineRetire(s, q);
    } else {
      RefineWork(s, q, a);
    }
  }

  lemma RefineCall(s: State, c: CallId, a: CallAct)
    requires Sound(s) && Bound(s) && CanCaller(s, c, a)
    ensures Plays(s, MoveOf(s, Caller(c, a)), DoCaller(s, c, a))
  {
    hide Plays, Sound, Bound, DoCaller;
    if a.Enqueue? {
      RefineEnqueue(s, c);
    } else if a.Refuse? {
      RefineRefuse(s, c);
    } else {
      RefineCaller(s, c, a);
    }
  }

  /** Every step is a move on the board, or none. */
  lemma RefinesBoard(s: State, a: Action)
    requires Sound(s) && Bound(s) && Can(s, a)
    ensures Plays(s, MoveOf(s, a), Do(s, a))
  {
    hide Plays, Sound, Bound, CanCreate, CanBegin, CanDestroy, CanShrink, CanCaller, CanLeave, CanWork, CanSleep, CanInvoke, CanPassOn, CanFreeHere, CanSignal,
      DoCreate, DoBegin, DoDestroy, DoShrink, DoCaller, DoLeave, DoWork, DoSleep, DoInvoke, DoPassOn, DoFreeHere, DoSignal;
    match a
    case Create(q, max, nonblock, event, pooled) => RefineCreate(s, q, max, nonblock, event, pooled);
    case Begin(c, k) => RefineBegin(s, c, k);
    case Destroy(c, k) => RefineDestroy(s, c, k);
    case Shrink(c, k) => RefineShrink(s, c, k);
    case Caller(c, does) => RefineCall(s, c, does);
    case Leave(c) => RefineLeave(s, c);
    case Work(q, act) => RefineThread(s, q, act);
    case Sleep(q, act) => RefineSleep(s, q, act);
    case Invoke(q, live) => RefineInvoke(s, q, live);
    case PassOn(q, c) => RefinePass(s, q, c);
    case FreeHere(q) => RefineFree(s, q);
    case Signal(q, w) => RefineSignal(s, q, w);
  }

  // ---- Second runs go where they should ------------------------------------------------------

  /** A call and its function's fate go on together. */
  lemma BoundOne(fate: map<JobId, Fate>, fate': map<JobId, Fate>, k: Call, k': Call)
    requires BoundCall(fate, k) && k'.job == k.job && k'.noFail == k.noFail && k'.target == k.target && (Carrying(k') ==> Carrying(k))
    requires forall id :: id in fate ==> id in fate' && fate'[id].done == fate[id].done
    ensures BoundCall(fate', k')
  {
  }

  /** No step changes where a known function is to be done. */
  lemma DoneFixed(s: State, a: Action)
    requires Can(s, a)
    ensures forall id :: id in s.fate ==> id in Do(s, a).fate && Do(s, a).fate[id].done == s.fate[id].done
  {
  }

  /** What a step may do to a call that was there before. */
  lemma CallsGoOn(s: State, a: Action, c: CallId)
    requires Can(s, a) && c in s.call && c in Do(s, a).call
    ensures var k, k' := s.call[c], Do(s, a).call[c];
      k'.job == k.job && k'.noFail == k.noFail && k'.target == k.target && (Carrying(k') ==> Carrying(k))
  {
    if a.Caller? && a.c == c {
      CallDoKeeps(s.q[s.call[c].target], s.call[c], Stops(s, s.call[c]), a.does);
    }
    hide CallDo, CallCan, QueueSees, WorkDo, WorkCan, SleepDo, SleepCan, Held, LetGo, FateAfter, RetiredFate, MayCall;
  }

  lemma CallDoKeeps(x: Queue, k: Call, stop: bool, a: CallAct)
    requires CallCan(x, k, stop, a)
    ensures var k' := CallDo(x, k, a); k'.job == k.job && k'.noFail == k.noFail && k'.target == k.target && (Carrying(k') ==> Carrying(k))
  {
  }

  lemma BoundNew(s: State, a: Action, c: CallId)
    requires Desks(BoardOf(s)) && Can(s, a) && c !in s.call && c in Do(s, a).call
    ensures BoundCall(Do(s, a).fate, Do(s, a).call[c])
  {
    if a.PassOn? {
      PassBound(s, a.q, c);
    }
  }

  lemma BoundKept(s: State, a: Action)
    requires Bound(s) && Desks(BoardOf(s)) && Can(s, a)
    ensures Bound(Do(s, a))
  {
    var s' := Do(s, a);
    DoneFixed(s, a);
    forall c | c in s'.call ensures BoundCall(s'.fate, s'.call[c]) {
      if c in s.call {
        CallsGoOn(s, a, c);
        assert BoundCall(s.fate, s.call[c]);
        hide Can, Do, BoundCall, Desks;
        BoundOne(s.fate, s'.fate, s.call[c], s'.call[c]);
      } else {
        BoundNew(s, a, c);
      }
    }
  }

  lemma PassBound(s: State, q: Qid, c: CallId)
    requires Desks(BoardOf(s)) && CanPassOn(s, q, c)
    ensures BoundCall(DoPassOn(s, q, c).fate, DoPassOn(s, q, c).call[c])
  {
    DeskReads(s, q);
    ActFacts(BoardOf(s), q);
  }
}

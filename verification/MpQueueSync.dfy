/** Synchronous calls: who waits for which function, and what the caller knows when it is let go. */
module MpQueueSync {
  import opened Common
  import opened JobBoard
  import opened MpQueue
  import opened MpQueueProof
  import opened MpQueueJobs

  ghost predicate Met(s: State, k: Call) {
    && k.target in s.q && k.job.id in s.fate
    && (k.job in s.q[k.target].jobs.retired || s.fate[k.job.id].at.Refused?)
  }

  /** What a queue has accepted and not yet done with. */
  function Line(j: Jobs): seq<Job> {
    j.current + j.batch + j.list
  }

  /** Behind the linking in, and not let go yet. */
  predicate Inside(at: Stage) {
    at.Linked? || at.Published? || at.SawNeed? || at.Kicking? || at.KickFailed? || at.Syncing?
  }

  /** Call `c` is there, waits for `job`, and has not been told. */
  ghost predicate Waits(call: map<CallId, Call>, told: set<CallId>, c: CallId, q: Qid, job: Job) {
    && c in call && c !in told && call[c].sync && call[c].target == q && call[c].job == job && Inside(call[c].at)
  }

  /** Every function in line that somebody waits for has its own caller waiting for it. */
  ghost predicate LineAwaited(line: seq<Job>, call: map<CallId, Call>, told: set<CallId>, q: Qid) {
    && (forall i :: 0 <= i < |line| && line[i].waiter.Some? ==> Waits(call, told, line[i].waiter.value, q, line[i]))
    && (forall i, k :: 0 <= i < k < |line| && line[i].waiter.Some? ==> line[i].waiter != line[k].waiter)
  }

  /** The one about to be told waits too, and its function was executed. */
  ghost predicate TellAwaited(x: Queue, call: map<CallId, Call>, told: set<CallId>, q: Qid) {
    x.pc.Telling? ==>
      && x.pc.to in call && Waits(call, told, x.pc.to, q, call[x.pc.to].job) && call[x.pc.to].job in x.jobs.retired
      && forall i :: 0 <= i < |Line(x.jobs)| ==> Line(x.jobs)[i].waiter != Some(x.pc.to)
  }

  ghost predicate Awaited(s: State) {
    forall q :: q in s.q ==> LineAwaited(Line(s.q[q].jobs), s.call, s.told, q) && TellAwaited(s.q[q], s.call, s.told, q)
  }

  /** The queue will still tell `c`. */
  predicate Owes(x: Queue, c: CallId) {
    x.pc == Telling(c) || exists i :: 0 <= i < |Line(x.jobs)| && Line(x.jobs)[i].waiter == Some(c)
  }

  ghost predicate CallSynced(s: State, c: CallId, k: Call) {
    && (Carrying(k) ==> k.job.waiter == (if k.sync then Some(c) else None) && (k.sync ==> c !in s.told))
    && (k.sync && (k.at.Leaving? || c in s.told) ==> Met(s, k))
    && (k.sync && Inside(k.at) && c !in s.told ==> k.target in s.q && Owes(s.q[k.target], c))
  }

  /** A synchronous call on its way out has been executed, or was never accepted; one that waits will be told. */
  ghost predicate Synced(s: State) {
    Awaited(s) && forall c :: c in s.call ==> CallSynced(s, c, s.call[c])
  }

  // ---- What stays ---------------------------------------------------------------------------

  lemma RefusedStays(b: Board, m: Move, id: JobId)
    requires JobBoard.Inv(b) && May(b, m) && id in b.fate && b.fate[id].at.Refused?
    ensures id in Made(b, m).fate && Made(b, m).fate[id].at.Refused?
  {
    match m
    case Seat(c, q) => assert CarriedBy(b.fate[b.carrier[c].id], b.carrier[c], c);
    case TurnAway(c) =>
    case Start(q, live) =>
      assert DeskOk(b.fate, q, b.desk[q]) && b.desk[q].wait[0] in b.desk[q].wait;
    case FreeAgain(q) => ActFacts(b, q);
    case Hand(q, c) => ActFacts(b, q);
    case Finish(q) => ActFacts(b, q);
    case _ =>
  }

  lemma MetStays(s: State, a: Action, k: Call)
    requires Sound(s) && Bound(s) && JobBoard.Inv(BoardOf(s)) && Can(s, a) && Met(s, k)
    ensures Met(Do(s, a), k)
  {
    DoneFixed(s, a);
    Goes(s, a, k.target);
    if k.job !in s.q[k.target].jobs.retired {
      RefinesBoard(s, a);
      hide JobBoard.Inv, Sound, Bound, Can, Do;
      RefusedStays(BoardOf(s), MoveOf(s, a), k.job.id);
    }
  }

  // ---- How one queue goes on ------------------------------------------------------------------

  /** The same functions in line, and the same one to be told. */
  predicate Same(x: Queue, x': Queue) {
    && Line(x'.jobs) == Line(x.jobs) && x'.jobs.retired == x.jobs.retired
    && (x.pc.Telling? || x'.pc.Telling? ==> x'.pc == x.pc)
  }

  lemma SameWork(x: Queue, a: WorkAct)
    requires Local(x) && WorkCan(x, a) && !a.Retire? && !a.Tell?
    ensures Same(x, WorkDo(x, a))
  {
    hide Phased, Needing;
  }

  lemma SameSleep(x: Queue, a: SleepAct)
    requires SleepCan(x.pc, x.bell, a)
    ensures Same(x, SleepDo(x, a))
  {
    hide SleepBell;
  }

  lemma SameSeen(x: Queue, c: CallId, k: Call, a: CallAct)
    requires !a.Enqueue?
    ensures Same(x, QueueSees(x, c, k, a))
  {
  }

  lemma SamePicked(x: Queue, live: bool)
    requires Local(x) && x.pc == Picking && x.jobs.batch != []
    ensures Same(x, x.(jobs := Picked(x.jobs), pc := Running(live)))
  {
    hide Phased, Needing;
  }

  /** The three steps that move functions or tell. */
  predicate Moves(s: State, a: Action, q: Qid) {
    || (a.Caller? && a.does.Enqueue? && a.c in s.call && s.call[a.c].target == q)
    || (a.Work? && a.q == q && (a.act.Retire? || a.act.Tell?))
  }

  lemma ThreadSame(s: State, a: Action, q: Qid)
    requires Sound(s) && Can(s, a) && q in s.q && !Moves(s, a, q) && (a.Work? || a.Sleep? || a.Invoke? || a.FreeHere? || a.Signal?)
    ensures q in Do(s, a).q && Same(s.q[q], Do(s, a).q[q])
  {
    assert Local(s.q[q]);
    hide WorkDo, WorkCan, SleepDo, SleepCan, Busy, RetiredFate, Local, Sound, Picked;
    if a.q != q {
      hide Same;
      ThreadElsewhere(s, a, q);
      hide Can, Do;
      SameSelf(s.q[q]);
    } else if a.Work? {
      SameWork(s.q[q], a.act);
    } else if a.Sleep? {
      SameSleep(s.q[q], a.lies);
    } else if a.Invoke? {
      SamePicked(s.q[q], a.live);
    }
  }

  lemma SameSelf(x: Queue)
    ensures Same(x, x)
  {
  }

  lemma ThreadElsewhere(s: State, a: Action, q: Qid)
    requires Can(s, a) && q in s.q && (a.Work? || a.Sleep? || a.Invoke? || a.FreeHere? || a.Signal?) && a.q != q
    ensures q in Do(s, a).q && Do(s, a).q[q] == s.q[q]
  {
    hide WorkDo, WorkCan, SleepDo, SleepCan, Busy, RetiredFate, Picked;
  }

  lemma CallSame(s: State, a: Action, q: Qid)
    requires Can(s, a) && q in s.q && !Moves(s, a, q) && !(a.Work? || a.Sleep? || a.Invoke? || a.FreeHere? || a.Signal?)
    ensures q in Do(s, a).q && Same(s.q[q], Do(s, a).q[q])
  {
    if a.Caller? && s.call[a.c].target == q {
      SameSeen(s.q[s.call[a.c].target], a.c, s.call[a.c], a.does);
    }
    hide QueueSees, CallDo, CallCan, FateAfter, Busy, MayCall;
  }

  /** Queues stay, and do not forget what they executed. */
  lemma Goes(s: State, a: Action, q: Qid)
    requires Sound(s) && Can(s, a) && q in s.q
    ensures q in Do(s, a).q && s.q[q].jobs.retired <= Do(s, a).q[q].jobs.retired
    ensures !Moves(s, a, q) ==> Same(s.q[q], Do(s, a).q[q])
  {
    if Moves(s, a, q) {
      hide Sound, FateAfter, Busy, Stops, CallCan, CallDo, RetiredFate;
    } else {
      hide Sound, Can, Do;
      if a.Work? || a.Sleep? || a.Invoke? || a.FreeHere? || a.Signal? {
        ThreadSame(s, a, q);
      } else {
        CallSame(s, a, q);
      }
    }
  }

  // ---- How one call goes on ---------------------------------------------------------------------

  /** The step that lets a waiting call go on. */
  predicate Tells(s: State, a: Action, c: CallId) {
    a.Work? && a.act.Tell? && a.q in s.q && s.q[a.q].pc == Telling(c)
  }

  lemma InsideStays(x: Queue, k: Call, stop: bool, a: CallAct)
    requires CallCan(x, k, stop, a) && k.sync && Inside(k.at) && !a.SyncDone?
    ensures var k' := CallDo(x, k, a); k'.sync && k'.target == k.target && k'.job == k.job && Inside(k'.at)
  {
  }

  lemma WaitsStays(s: State, a: Action, c: CallId, q: Qid, job: Job)
    requires Can(s, a) && Waits(s.call, s.told, c, q, job) && !Tells(s, a, c)
    ensures Waits(Do(s, a).call, Do(s, a).told, c, q, job)
  {
    if a.Caller? && a.c == c {
      InsideStays(s.q[s.call[c].target], s.call[c], Stops(s, s.call[c]), a.does);
    }
    hide CallDo, CallCan, QueueSees, WorkDo, WorkCan, SleepDo, SleepCan, FateAfter, RetiredFate, MayCall, Busy;
  }

  // ---- Lines ----------------------------------------------------------------------------------------

  /** Nobody who waits for this queue is let go. */
  ghost predicate Patient(call: map<CallId, Call>, told: set<CallId>, call': map<CallId, Call>, told': set<CallId>, q: Qid, but: Option<CallId>) {
    forall c, job :: Waits(call, told, c, q, job) && Some(c) != but ==> Waits(call', told', c, q, job)
  }

  lemma LineStays(line: seq<Job>, call: map<CallId, Call>, told: set<CallId>, call': map<CallId, Call>, told': set<CallId>, q: Qid, but: Option<CallId>)
    requires LineAwaited(line, call, told, q) && Patient(call, told, call', told', q, but)
    requires but.Some? ==> forall i :: 0 <= i < |line| ==> line[i].waiter != but
    ensures LineAwaited(line, call', told', q)
  {
    hide Waits;
    forall i | 0 <= i < |line| && line[i].waiter.Some? ensures Waits(call', told', line[i].waiter.value, q, line[i]) {
      assert Waits(call, told, line[i].waiter.value, q, line[i]);
    }
  }

  lemma LineLess(line: seq<Job>, call: map<CallId, Call>, told: set<CallId>, q: Qid)
    requires line != [] && LineAwaited(line, call, told, q)
    ensures LineAwaited(line[1..], call, told, q)
    ensures line[0].waiter.Some? ==>
      Waits(call, told, line[0].waiter.value, q, line[0]) && forall i :: 0 <= i < |line[1..]| ==> line[1..][i].waiter != line[0].waiter
  {
    hide Waits;
    assert forall i :: 0 <= i < |line[1..]| ==> line[1..][i] == line[i + 1];
  }

  lemma LineMore(line: seq<Job>, job: Job, call: map<CallId, Call>, told: set<CallId>, call': map<CallId, Call>, told': set<CallId>, q: Qid)
    requires LineAwaited(line, call, told, q) && Patient(call, told, call', told', q, None)
    requires job.waiter.Some? ==> Waits(call', told', job.waiter.value, q, job) && job.waiter.value in call && !Inside(call[job.waiter.value].at)
    ensures LineAwaited(line + [job], call', told', q)
  {
    LineStays(line, call, told, call', told', q, None);
    var line' := line + [job];
    forall i, k | 0 <= i < k < |line'| && line'[i].waiter.Some? ensures line'[i].waiter != line'[k].waiter {
      assert Waits(call, told, line[i].waiter.value, q, line[i]);
    }
    hide Waits;
    forall i | 0 <= i < |line'| && line'[i].waiter.Some? ensures Waits(call', told', line'[i].waiter.value, q, line'[i]) {
      assert i < |line| ==> line'[i] == line[i];
    }
  }

  // ---- Every step ----------------------------------------------------------------------------------

  ghost predicate AwaitedAt(s: State, q: Qid) {
    q in s.q && LineAwaited(Line(s.q[q].jobs), s.call, s.told, q) && TellAwaited(s.q[q], s.call, s.told, q)
  }

  lemma AllPatient(s: State, a: Action, q: Qid, but: Option<CallId>)
    requires Can(s, a) && forall c :: Tells(s, a, c) && Some(c) != but ==> forall job :: !Waits(s.call, s.told, c, q, job)
    ensures Patient(s.call, s.told, Do(s, a).call, Do(s, a).told, q, but)
  {
    forall c, job | Waits(s.call, s.told, c, q, job) && Some(c) != but
      ensures Waits(Do(s, a).call, Do(s, a).told, c, q, job)
    {
      WaitsStays(s, a, c, q, job);
    }
  }

  /** Telling one's own caller does not reach the callers of other queues. */
  lemma TellsOwn(s: State, a: Action, q: Qid)
    requires Awaited(s) && Can(s, a) && !(a.Work? && a.q == q && a.act.Tell?)
    ensures forall c, job :: Tells(s, a, c) ==> !Waits(s.call, s.told, c, q, job)
  {
    if a.Work? && a.act.Tell? {
      assert TellAwaited(s.q[a.q], s.call, s.told, a.q);
    }
  }

  lemma AwaitedSame(s: State, a: Action, q: Qid)
    requires Sound(s) && Awaited(s) && Can(s, a) && q in s.q && !Moves(s, a, q)
    ensures AwaitedAt(Do(s, a), q)
  {
    Goes(s, a, q);
    TellsOwn(s, a, q);
    AllPatient(s, a, q, None);
    var s', x := Do(s, a), s.q[q];
    assert LineAwaited(Line(x.jobs), s.call, s.told, q) && TellAwaited(x, s.call, s.told, q);
    LineStays(Line(x.jobs), s.call, s.told, s'.call, s'.told, q, None);
    if x.pc.Telling? {
      WaitsStays(s, a, x.pc.to, q, s.call[x.pc.to].job);
    }
    hide Sound, Awaited, Can, Do, LineAwaited, Patient;
  }

  lemma AwaitedEnqueue(s: State, c: CallId)
    requires Sound(s) && Synced(s) && CanCaller(s, c, Enqueue)
    ensures AwaitedAt(DoCaller(s, c, Enqueue), s.call[c].target)
  {
    var a, s', q, k := Caller(c, Enqueue), DoCaller(s, c, Enqueue), s.call[c].target, s.call[c];
    var x := s.q[q];
    assert CallSynced(s, c, k) && Fits(x, k);
    assert Can(s, a) && s' == Do(s, a) && Carrying(k);
    TellsOwn(s, a, q);
    AllPatient(s, a, q, None);
    assert LineAwaited(Line(x.jobs), s.call, s.told, q) && TellAwaited(x, s.call, s.told, q);
    assert Line(s'.q[q].jobs) == Line(x.jobs) + [k.job];
    if k.sync {
      assert Waits(s'.call, s'.told, c, q, k.job);
    }
    LineMore(Line(x.jobs), k.job, s.call, s.told, s'.call, s'.told, q);
    if x.pc.Telling? {
      WaitsStays(s, a, x.pc.to, q, s.call[x.pc.to].job);
      assert k.job.waiter != Some(x.pc.to);
    }
    hide Sound, Synced, Awaited, Can, Do, LineAwaited, Patient;
  }

  lemma RetireLine(x: Queue)
    requires Local(x) && WorkCan(x, WorkAct.Retire)
    ensures var x', line := WorkDo(x, WorkAct.Retire), Line(x.jobs);
      line != [] && Line(x'.jobs) == line[1..] && x'.pc == AfterCount([line[0]]) && x'.jobs.retired == x.jobs.retired + [line[0]]
  {
    hide Phased, Needing;
  }

  lemma AwaitedRetire(s: State, q: Qid)
    requires Sound(s) && Awaited(s) && CanWork(s, q, WorkAct.Retire)
    ensures AwaitedAt(DoWork(s, q, WorkAct.Retire), q)
  {
    var x := s.q[q];
    assert Local(x) && LineAwaited(Line(x.jobs), s.call, s.told, q);
    RetireLine(x);
    LineLess(Line(x.jobs), s.call, s.told, q);
    hide Sound, Awaited, WorkDo, WorkCan, LineAwaited;
  }

  lemma AwaitedTell(s: State, q: Qid)
    requires Awaited(s) && CanWork(s, q, Tell)
    ensures AwaitedAt(DoWork(s, q, Tell), q)
  {
    var x, a := s.q[q], Work(q, Tell);
    assert LineAwaited(Line(x.jobs), s.call, s.told, q) && TellAwaited(x, s.call, s.told, q);
    AllPatient(s, a, q, Some(x.pc.to));
    LineStays(Line(x.jobs), s.call, s.told, DoWork(s, q, Tell).call, DoWork(s, q, Tell).told, q, Some(x.pc.to));
    hide Awaited, LineAwaited, Patient;
  }

  lemma AwaitedKept(s: State, a: Action)
    requires Sound(s) && Synced(s) && Can(s, a)
    ensures Awaited(Do(s, a))
  {
    forall q | q in Do(s, a).q ensures AwaitedAt(Do(s, a), q) {
      if q !in s.q {
        NewQueueIdle(s, a, q);
      } else {
        hide Sound, Awaited, AwaitedAt, CallSynced, Do, CanCaller, CanWork;
        if !Moves(s, a, q) {
          AwaitedSame(s, a, q);
        } else if a.Caller? {
          AwaitedEnqueue(s, a.c);
        } else if a.act.Retire? {
          AwaitedRetire(s, q);
        } else {
          AwaitedTell(s, q);
        }
      }
    }
    hide Do;
  }

  lemma NewQueueIdle(s: State, a: Action, q: Qid)
    requires Can(s, a) && q in Do(s, a).q && q !in s.q
    ensures AwaitedAt(Do(s, a), q)
  {
  }

  // ---- Calls -------------------------------------------------------------------------------------------

  lemma InvParts(b: Board)
    requires JobBoard.Inv(b)
    ensures Desks(b) && Carriers(b) && Found(b) && Logged(b) && InTurn(b)
  {
  }

  /** What a queue retired, it ran. */
  lemma RetiredRan(s: State, q: Qid, job: Job)
    requires InTurn(BoardOf(s)) && q in s.q && job in s.q[q].jobs.retired
    ensures exists i :: 0 <= i < |Of(s.log, job.id)| && Of(s.log, job.id)[i].on == q && Of(s.log, job.id)[i].round == if job.again then OnDone else First
  {
    DeskReads(s, q);
    var seen := DeskOf(s.q[q]).seen;
    assert StartedOn(s.log, q) == Names(seen);
    var i :| 0 <= i < |s.q[q].jobs.retired| && s.q[q].jobs.retired[i] == job;
    assert seen[i] == job;
    assert Names(seen)[i] == (job.id, job.again);
    hide Names;
    StartedIsLogged(s.log, q, (job.id, job.again));
  }

  /** A function that was executed has a fate. */
  lemma RetiredKnown(s: State, q: Qid, job: Job)
    requires JobBoard.Inv(BoardOf(s)) && q in s.q && job in s.q[q].jobs.retired
    ensures job.id in s.fate
  {
    InvParts(BoardOf(s));
    RetiredRan(s, q, job);
    hide JobBoard.Inv, Desks, Carriers, Found, InTurn;
  }

  /** Being told means that the function was executed. */
  lemma ToldMet(s: State, a: Action, c: CallId)
    requires Sound(s) && Bound(s) && JobBoard.Inv(BoardOf(s)) && Awaited(s) && Can(s, a) && Tells(s, a, c)
    ensures c in s.call && Inside(s.call[c].at) && Met(Do(s, a), s.call[c]) && Do(s, a).call == s.call
  {
    assert TellAwaited(s.q[a.q], s.call, s.told, a.q);
    assert s.call[c].target == a.q;
    RetiredKnown(s, a.q, s.call[c].job);
    hide JobBoard.Inv, Sound, Bound, Awaited;
    MetStays(s, a, s.call[c]);
  }

  lemma RefusedMet(s: State, c: CallId)
    requires Sound(s) && JobBoard.Inv(BoardOf(s)) && CanCaller(s, c, Refuse)
    ensures Met(DoCaller(s, c, Refuse), s.call[c])
  {
    var k := s.call[c];
    assert Fits(s.q[k.target], k);
    MapReads(s, c, k.target);
    assert CarriedBy(s.fate[k.job.id], k.job, c);
  }

  /** What a step does to a call that is still there: nothing, a step of its own, or a wake-up. */
  lemma CallStays(s: State, a: Action, c: CallId)
    requires Can(s, a) && c in s.call && c in Do(s, a).call
    ensures var k, k' := s.call[c], Do(s, a).call[c];
      if a.Caller? && a.c == c then k' == CallDo(s.q[k.target], k, a.does) else k' == k || (k.at.Parked? && k' == k.(at := Unparked))
    ensures c in Do(s, a).told <==> c in s.told || Tells(s, a, c)
  {
    hide CallDo, CallCan, QueueSees, WorkDo, SleepDo, SleepCan, FateAfter, RetiredFate, Busy;
  }

  lemma OwnStep(x: Queue, k: Call, stop: bool, a: CallAct)
    requires CallCan(x, k, stop, a)
    ensures var k' := CallDo(x, k, a);
      && k' == k.(at := k'.at) && (Carrying(k') ==> Carrying(k)) && (Inside(k'.at) && !Inside(k.at) ==> a.Enqueue? || a.Condemn?)
      && (k.sync && k'.at.Leaving? ==> a.Refuse? || a.SyncDone?)
  {
  }

  /** One line, whatever the step. */
  lemma StepShape(s: State, a: Action, c: CallId)
    requires Can(s, a) && c in s.call && c in Do(s, a).call
    ensures var k, k' := s.call[c], Do(s, a).call[c];
      && k' == k.(at := k'.at) && (Carrying(k') ==> Carrying(k))
      && (Inside(k'.at) && !Inside(k.at) ==> a == Caller(c, Enqueue) || a == Caller(c, Condemn))
      && (k.sync && k'.at.Leaving? && !k.at.Leaving? ==> a == Caller(c, Refuse) || a == Caller(c, SyncDone))
    ensures c in Do(s, a).told <==> c in s.told || Tells(s, a, c)
  {
    CallStays(s, a, c);
    if a.Caller? && a.c == c {
      assert CanCaller(s, c, a.does);
      OwnStep(s.q[s.call[c].target], s.call[c], Stops(s, s.call[c]), a.does);
    }
    hide Can, Do, CallDo, CallCan;
  }

  lemma CallMet(s: State, a: Action, c: CallId)
    requires Sound(s) && Bound(s) && JobBoard.Inv(BoardOf(s)) && Synced(s) && Can(s, a) && c in s.call && c in Do(s, a).call
    ensures var s' := Do(s, a); var k' := s'.call[c]; k'.sync && (k'.at.Leaving? || c in s'.told) ==> Met(s', k')
  {
    StepShape(s, a, c);
    var s', k := Do(s, a), s.call[c];
    assert CallSynced(s, c, k);
    if k.sync && (s'.call[c].at.Leaving? || c in s'.told) {
      if k.at.Leaving? || c in s.told {
        hide JobBoard.Inv, Sound, Bound, Synced;
        MetStays(s, a, k);
      } else if Tells(s, a, c) {
        hide JobBoard.Inv, Sound, Bound;
        ToldMet(s, a, c);
      } else {
        assert a == Caller(c, Refuse);
        hide JobBoard.Inv, Sound, Bound, Synced;
        RefusedMet(s, c);
      }
    }
  }

  lemma OwesStays(s: State, a: Action, c: CallId, q: Qid)
    requires Sound(s) && Can(s, a) && q in s.q && Owes(s.q[q], c) && !Tells(s, a, c)
    ensures q in Do(s, a).q && Owes(Do(s, a).q[q], c)
  {
    Goes(s, a, q);
    var x, x' := s.q[q], Do(s, a).q[q];
    if Moves(s, a, q) && x.pc != Telling(c) {
      var i :| 0 <= i < |Line(x.jobs)| && Line(x.jobs)[i].waiter == Some(c);
      assert Local(x);
      if a.Caller? {
        assert Line(x'.jobs) == Line(x.jobs) + [s.call[a.c].job];
        assert Line(x'.jobs)[i].waiter == Some(c);
      } else if a.act.Retire? {
        RetireLine(x);
        assert i > 0 ==> Line(x'.jobs)[i - 1].waiter == Some(c);
      } else {
        assert Line(x'.jobs)[i].waiter == Some(c);
      }
    }
  }

  lemma CallOwed(s: State, a: Action, c: CallId)
    requires Sound(s) && Synced(s) && Can(s, a) && c in s.call && c in Do(s, a).call
    ensures var s' := Do(s, a); var k' := s'.call[c]; k'.sync && Inside(k'.at) && c !in s'.told ==> k'.target in s'.q && Owes(s'.q[k'.target], c)
  {
    StepShape(s, a, c);
    var s', k := Do(s, a), s.call[c];
    assert CallSynced(s, c, k) && k.target in s.q && Fits(s.q[k.target], k);
    if k.sync && Inside(s'.call[c].at) && c !in s'.told {
      if Inside(k.at) {
        hide Synced, Sound, CallSynced;
        OwesStays(s, a, c, k.target);
      } else {
        assert Line(s'.q[k.target].jobs) == Line(s.q[k.target].jobs) + [k.job];
        assert Line(s'.q[k.target].jobs)[|Line(s.q[k.target].jobs)|].waiter == Some(c);
      }
    }
  }

  lemma CallSyncedOld(s: State, a: Action, c: CallId)
    requires Sound(s) && Bound(s) && JobBoard.Inv(BoardOf(s)) && Synced(s) && Can(s, a) && c in s.call && c in Do(s, a).call
    ensures CallSynced(Do(s, a), c, Do(s, a).call[c])
  {
    CallMet(s, a, c);
    CallOwed(s, a, c);
    StepShape(s, a, c);
    assert CallSynced(s, c, s.call[c]);
    if Tells(s, a, c) {
      ToldMet(s, a, c);
    }
    hide Sound, Bound, JobBoard.Inv, Synced, Can, Do, Met, Owes, Tells;
  }

  lemma CallSyncedNew(s: State, a: Action, c: CallId)
    requires Can(s, a) && c !in s.call && c in Do(s, a).call
    ensures CallSynced(Do(s, a), c, Do(s, a).call[c])
  {
    hide Met, Owes, MayCall, Busy, Held;
  }

  lemma SyncedKept(s: State, a: Action)
    requires Sound(s) && Bound(s) && JobBoard.Inv(BoardOf(s)) && Synced(s) && Can(s, a)
    ensures Synced(Do(s, a))
  {
    var s' := Do(s, a);
    AwaitedKept(s, a);
    hide Sound, Bound, JobBoard.Inv, Synced, Can, Do, CallSynced, Awaited;
    forall c | c in s'.call ensures CallSynced(s', c, s'.call[c]) {
      if c in s.call {
        CallSyncedOld(s, a, c);
      } else {
        CallSyncedNew(s, a, c);
      }
    }
    SyncedAll(s');
  }

  lemma SyncedAll(s: State)
    requires Awaited(s) && forall c :: c in s.call ==> CallSynced(s, c, s.call[c])
    ensures Synced(s)
  {
  }
}

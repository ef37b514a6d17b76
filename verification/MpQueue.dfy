/**
 Message queues (kernel/mpq.c, kernel/osmp.c) as a state machine: any number of
 queues, each with its own thread, and any number of calls into them from other
 threads or from the callbacks the queues run.  Every access to a field that
 another thread can see is an action of its own; steps are sequentially
 consistent.
 */
module MpQueue {
  import opened Common
  import opened JobBoard

  /** What keeps a queue alive while a call works on it. */
  datatype Hold = Ref | Own | Pool     // a reference, being its thread, the pool's lock

  datatype Stage =
    | Entering       // ____add_f, about to take q->lock
    | Parked         // in k_cond_wait on q->wait_q
    | Unparked       // woken, about to take q->lock again
    | Linked         // linked in, owner of q->lock, q->count still to be incremented
    | Condemning     // __mpq_destroy, about to set q->terminated
    | Published      // about to read q->need_kicking
    | SawNeed        // about to increment q->kick_q_count
    | Kicking        // about to write to the pipe or pulse the event
    | KickFailed     // the pipe was full: about to decrement q->kick_q_count
    | Syncing        // waiting for the function to be executed
    | Leaving        // about to give up its hold

  datatype Call = Call(
    target: Qid, caller: Option<Qid>, hold: Hold, reserved: bool, noFail: bool, sync: bool, destroys: bool, job: Job, at: Stage)

  datatype Pc =
    | Top                          // __check_and_call_funcs, about to test q->head
    | Taking                       // about to take the list
    | Picking                      // in its loop
    | Running(live: bool)          // in the function
    | Freeing                      // in the function again, free only
    | Counting(passed: bool)       // about to decrement q->count; passed: a done queue has the function now
    | Telling(to: CallId)          // about to set the result of a synchronous call
    | Signalling                   // about to look for a blocked caller
    | Over                         // about to return from __check_and_call_funcs
    | Timers                       // running timers
    | AtTerminated                 // about to test q->terminated in the poll loop
    | Polling                      // os_poll_dispatch, first tests
    | Arming(forever: bool)        // about to set q->need_kicking; forever: the timeout is not zero
    | Armed(forever: bool)         // about to test q->terminated again
    | Recounting(forever: bool)    // about to test q->count
    | Disarming                    // found work: about to clear q->need_kicking
    | ToBed(forever: bool)         // about to set q->need_kicking for the wait
    | Asleep(forever: bool)        // waiting
    | Waking                       // about to clear q->need_kicking
    | Draining                     // about to read the pipe
    | Drained                      // about to subtract what was read
    | Dispatching                  // running fd callbacks
    | Retiring                     // __q_wait_destroy, about to uninstall the id
    | Watching                     // about to read q->usage
    | Gone                         // destroyed

  datatype Phase = Loop | Outwait | Last    // the poll loop, the loop on q->usage, the last loop

  /** The functions of a queue: q->head to q->tail, what its thread took, what it runs; and their history. */
  datatype Jobs = Jobs(list: seq<Job>, batch: seq<Job>, current: seq<Job>, accepted: seq<Job>, retired: seq<Job>)

  /** need_kicking, kick_q_count, the pipe or event, and what the last read of the pipe gave. */
  datatype Bell = Bell(event: bool, need: bool, kicks: int, pipe: nat, pulsed: bool, got: nat)

  /** terminated, the table entry, membership in a pool, and where the thread is in its life. */
  datatype Life = Life(terminated: bool, installed: bool, pooled: bool, phase: Phase, did: bool)

  datatype Queue = Queue(
    max: nat, nonblock: bool, jobs: Jobs, bell: Bell, life: Life,
    count: int, lock: Option<CallId>, waiting: int, usage: int, pc: Pc)

  /**
   `told`: the calls whose sync_obj.result says FO_EXECUTED.  `fate` and `log` are
   histories: what became of each function, and every invocation.
   */
  datatype State = State(q: map<Qid, Queue>, call: map<CallId, Call>, told: set<CallId>, fate: map<JobId, Fate>, log: seq<Event>)

  function NewQueue(max: nat, nonblock: bool, event: bool, pooled: bool): Queue {
    Queue(max, nonblock, Jobs([], [], [], [], []), Bell(event, false, 0, 0, false, 0), Life(false, true, pooled, Loop, false),
          0, None, 0, 1, Top)
  }

  /** Where a queue's thread runs user code, which may call into any queue. */
  predicate InCallback(pc: Pc) {
    pc.Running? || pc.Freeing? || pc.Timers? || pc.Dispatching?
  }

  /** The thread of `q` is inside a call. */
  ghost predicate Busy(s: State, q: Qid) {
    exists c :: c in s.call && s.call[c].caller == Some(q)
  }

  // ---- Steps of a call -------------------------------------------------------------

  datatype CallAct = Enqueue | Refuse | Park | Unpark | Count | Condemn | ReadNeed | KickCount | Kick | KickFail | KickUncount | SyncDone

  predicate Room(x: Queue, k: Call) {
    k.noFail || x.count < x.max
  }

  predicate WantsLock(x: Queue, k: Call) {
    (k.at.Entering? || k.at.Unparked?) && x.lock.None?
  }

  /** `stop`: the calling thread is that of a queue told to terminate. */
  predicate CallCan(x: Queue, k: Call, stop: bool, a: CallAct) {
    match a
    case Enqueue => WantsLock(x, k) && Room(x, k)
    case Refuse => WantsLock(x, k) && !Room(x, k) && (x.nonblock || stop)
    case Park => WantsLock(x, k) && !Room(x, k) && !x.nonblock && !stop
    case Unpark => k.at.Parked?                      // a broadcast, or for no reason
    case Count => k.at.Linked?
    case Condemn => k.at.Condemning?
    case ReadNeed => k.at.Published?
    case KickCount => k.at.SawNeed?
    case Kick => k.at.Kicking?
    case KickFail => k.at.Kicking? && !x.bell.event && x.bell.pipe > 0
    case KickUncount => k.at.KickFailed?
    case SyncDone => k.at.Syncing?                   // and its result is there
  }

  function AfterKick(k: Call): Stage {
    if k.sync then Syncing else Leaving
  }

  function CallDo(x: Queue, k: Call, a: CallAct): Call {
    match a
    case Enqueue => k.(at := Linked)
    case Refuse => k.(at := Leaving)
    case Park => k.(at := Parked)
    case Unpark => k.(at := Unparked)
    case Count => k.(at := Published)
    case Condemn => k.(at := Published)
    case ReadNeed => k.(at := if k.caller != Some(k.target) && x.bell.need then SawNeed else AfterKick(k))
    case KickCount => k.(at := Kicking)
    case Kick => k.(at := AfterKick(k))
    case KickFail => k.(at := KickFailed)
    case KickUncount => k.(at := AfterKick(k))
    case SyncDone => k.(at := Leaving)
  }

  /** The same step, as the queue sees it. */
  function QueueSees(x: Queue, c: CallId, k: Call, a: CallAct): Queue {
    var back := if k.at.Unparked? then x.(waiting := x.waiting - 1) else x;
    match a
    case Enqueue => back.(jobs := Appended(x.jobs, k.job), lock := Some(c))
    case Refuse => back
    case Park => back.(waiting := back.waiting + 1)
    case Count => x.(count := x.count + 1, lock := None)
    case Condemn => x.(life := x.life.(terminated := true))
    case KickCount => x.(bell := x.bell.(kicks := x.bell.kicks + 1))
    case Kick => x.(bell := Rung(x.bell))
    case KickUncount => x.(bell := x.bell.(kicks := x.bell.kicks - 1))
    case _ => x
  }

  function Appended(j: Jobs, job: Job): Jobs {
    j.(list := j.list + [job], accepted := j.accepted + [job])
  }

  function Rung(b: Bell): Bell {
    if b.event then b.(pulsed := true) else b.(pipe := b.pipe + 1)
  }

  // ---- Steps of a queue's thread: functions, and the end ----------------------------

  datatype WorkAct = TestHead | Take | PickNone | Return | Retire | Tell | EndFuncs | EndTimers | TestTerminated | Uninstall | TestUsage

  predicate WorkCan(x: Queue, a: WorkAct) {
    match a
    case TestHead => x.pc.Top?
    case Take => x.pc.Taking? && x.lock.None?
    case PickNone => x.pc.Picking? && x.jobs.batch == []
    case Return => (x.pc.Running? && |x.jobs.current| == 1 && (!x.pc.live || x.jobs.current[0].done.None?)) || x.pc.Freeing?
    case Retire => x.pc.Counting?
    case Tell => x.pc.Telling?
    case EndFuncs => x.pc.Over?
    case EndTimers => x.pc.Timers?
    case TestTerminated => x.pc.AtTerminated?
    case Uninstall => x.pc.Retiring?
    case TestUsage => x.pc.Watching?
  }

  function Taken(j: Jobs): Jobs {
    j.(batch := j.list, list := [])
  }

  function Retired(j: Jobs): Jobs {
    j.(retired := j.retired + j.current, current := [])
  }

  /** Whoever waits for the function is told after the count. */
  function AfterCount(current: seq<Job>): Pc {
    if |current| == 1 && current[0].waiter.Some? then Telling(current[0].waiter.value) else Signalling
  }

  function AtTop(x: Queue): Queue {
    x.(pc := Top, life := x.life.(did := false))
  }

  function WorkDo(x: Queue, a: WorkAct): Queue {
    match a
    case TestHead => x.(pc := if x.jobs.list == [] then Over else Taking)
    case Take => x.(jobs := Taken(x.jobs), life := x.life.(did := true), pc := Picking)
    case PickNone => x.(pc := Over)
    case Return => x.(pc := Counting(false))
    case Retire => x.(count := x.count - 1, jobs := Retired(x.jobs), pc := AfterCount(x.jobs.current))
    case Tell => x.(pc := Signalling)
    case EndFuncs =>
      (match x.life.phase
       case Loop => x.(pc := Timers)
       case Outwait => x.(pc := Watching)
       case Last => if x.life.did then AtTop(x) else x.(pc := Gone))
    case EndTimers => x.(pc := AtTerminated)
    case TestTerminated => x.(pc := if x.life.terminated then Retiring else Polling)
    case Uninstall => x.(life := x.life.(installed := false, phase := Outwait), pc := Watching)
    case TestUsage => AtTop(if x.usage > 1 then x else x.(life := x.life.(phase := Last)))
  }

  // ---- Steps of a queue's thread: os_poll_dispatch ----------------------------------

  datatype SleepAct =
    | Poll(forever: bool, fds: bool) | Arm | Retest | Recount | Disarm(fds: bool) | LieDown
    | WakeKicked | WakeOther | Rise | Read(n: nat) | Subtract(more: bool) | Skip | EndDispatch

  predicate Pulse(b: Bell) {
    if b.event then b.pulsed else b.pipe > 0
  }

  predicate SleepCan(pc: Pc, b: Bell, a: SleepAct) {
    match a
    case Poll(_, _) => pc.Polling?
    case Arm => pc.Arming?
    case Retest => pc.Armed?
    case Recount => pc.Recounting?
    case Disarm(_) => pc.Disarming?
    case LieDown => pc.ToBed?
    case WakeKicked => pc.Asleep? && Pulse(b)
    case WakeOther => pc.Asleep?                     // a timeout, another fd, or for no reason
    case Rise => pc.Waking?
    case Read(n) => pc.Draining? && n <= b.pipe && n <= 1024
    case Subtract(more) => pc.Drained? && (b.got == 1024 ==> more)
    case Skip => pc.Draining?                        // the pipe was not reported readable
    case EndDispatch => pc.Dispatching?
  }

  function SleepPc(pc: Pc, b: Bell, terminated: bool, count: int, a: SleepAct): Pc
    requires SleepCan(pc, b, a)
  {
    match a
    case Poll(forever, fds) => if !terminated && (b.kicks > 0 || fds || forever) then Arming(forever) else Top
    case Arm => Armed(pc.forever)
    case Retest => if terminated then Top else Recounting(pc.forever)
    case Recount => if count > 0 then Disarming else ToBed(pc.forever)
    case Disarm(fds) => if b.kicks == 0 && !fds then Top else ToBed(false)
    case LieDown => Asleep(pc.forever)
    case WakeKicked => Waking
    case WakeOther => Waking
    case Rise => if b.event then Top else Draining
    case Read(n) => Drained
    case Subtract(more) => if more then Draining else Dispatching
    case Skip => Dispatching
    case EndDispatch => Top
  }

  function SleepBell(pc: Pc, b: Bell, a: SleepAct): Bell
    requires SleepCan(pc, b, a)
  {
    match a
    case Arm => b.(need := true)
    case Disarm(_) => b.(need := false)
    case LieDown => b.(need := true)
    case WakeKicked => b.(pulsed := false)
    case WakeOther => b.(pulsed := false)
    case Rise => b.(need := false)
    case Read(n) => b.(pipe := b.pipe - n, got := n)
    case Subtract(_) => b.(kicks := b.kicks - b.got, got := 0)
    case _ => b
  }

  function SleepDo(x: Queue, a: SleepAct): Queue
    requires SleepCan(x.pc, x.bell, a)
  {
    x.(pc := SleepPc(x.pc, x.bell, x.life.terminated, x.count, a), bell := SleepBell(x.pc, x.bell, a), life := x.life.(did := false))
  }

  // ---- The system ------------------------------------------------------------------

  datatype Action =
    | Create(q: Qid, max: nat, nonblock: bool, event: bool, pooled: bool)
    | Begin(c: CallId, k: Call)                    // __mpq_get, __mpqp_best_q_get or THIS_MPQ, then ____add_f
    | Destroy(c: CallId, k: Call)                  // __mpq_get, then __mpq_destroy
    | Shrink(c: CallId, k: Call)                   // out of the pool, ____q_get, then __mpq_destroy
    | Caller(c: CallId, does: CallAct)
    | Leave(c: CallId)
    | Work(q: Qid, act: WorkAct)
    | Sleep(q: Qid, lies: SleepAct)
    | Invoke(q: Qid, live: bool)                   // next function of the batch
    | PassOn(q: Qid, c: CallId)                    // to the done queue
    | FreeHere(q: Qid)                             // the done queue is gone
    | Signal(q: Qid, w: Option<CallId>)            // wake one blocked caller

  predicate Stops(s: State, k: Call) {
    k.caller.Some? && k.caller.value in s.q && s.q[k.caller.value].life.terminated
  }

  /** A call may begin here: its thread is free to make it, and its hold can be had. */
  ghost predicate MayCall(s: State, c: CallId, k: Call) {
    && c !in s.call && k.target in s.q
    && (k.caller.Some? ==> k.caller.value in s.q && InCallback(s.q[k.caller.value].pc) && !Busy(s, k.caller.value))
    && (k.reserved ==> k.hold == Ref)
    && match k.hold
       case Ref => if k.reserved then s.q[k.target].life.pooled else s.q[k.target].life.installed
       case Own => k.caller == Some(k.target)
       case Pool => s.q[k.target].life.pooled
  }

  ghost predicate CanCreate(s: State, q: Qid, max: nat) {
    q !in s.q && max >= 1
  }

  ghost predicate CanBegin(s: State, c: CallId, k: Call) {
    && MayCall(s, c, k) && k.at == Entering && !k.destroys && !k.job.again && k.job.id !in s.fate
    && (k.sync ==> k.job.done.None? && k.caller != Some(k.target)) && k.job.waiter == (if k.sync then Some(c) else None)
    // a queue that is exiting cannot be asked to do the done part
    && (k.caller.Some? && s.q[k.caller.value].life.phase != Loop ==> k.job.done != k.caller)
  }

  predicate Destroying(k: Call) {
    k.at == Condemning && k.destroys && k.hold == Ref && !k.reserved && !k.sync
  }

  ghost predicate CanDestroy(s: State, c: CallId, k: Call) {
    MayCall(s, c, k) && Destroying(k) && !s.q[k.target].life.pooled
  }

  ghost predicate CanShrink(s: State, c: CallId, k: Call) {
    && c !in s.call && k.target in s.q && s.q[k.target].life.pooled && Destroying(k)
    && (k.caller.Some? ==> k.caller.value in s.q && InCallback(s.q[k.caller.value].pc) && !Busy(s, k.caller.value))
    && forall d :: d in s.call && s.call[d].target == k.target ==> s.call[d].hold != Pool
  }

  ghost predicate CanCaller(s: State, c: CallId, a: CallAct) {
    c in s.call && s.call[c].target in s.q && CallCan(s.q[s.call[c].target], s.call[c], Stops(s, s.call[c]), a) && (a.SyncDone? ==> c in s.told)
  }

  ghost predicate CanLeave(s: State, c: CallId) {
    c in s.call && s.call[c].target in s.q && s.call[c].at == Leaving
  }

  ghost predicate CanWork(s: State, q: Qid, a: WorkAct) {
    q in s.q && !Busy(s, q) && WorkCan(s.q[q], a)
  }

  ghost predicate CanSleep(s: State, q: Qid, a: SleepAct) {
    q in s.q && !Busy(s, q) && SleepCan(s.q[q].pc, s.q[q].bell, a)
  }

  ghost predicate CanInvoke(s: State, q: Qid) {
    q in s.q && !Busy(s, q) && s.q[q].pc == Picking && s.q[q].jobs.batch != []
  }

  /** The function has run with its object alive and names a done queue. */
  ghost predicate HasDone(s: State, q: Qid) {
    q in s.q && !Busy(s, q) && s.q[q].pc == Running(true) && |s.q[q].jobs.current| == 1 && s.q[q].jobs.current[0].done.Some?
  }

  /** __mpq_get finds the queue. */
  predicate Installed(s: State, q: Qid) {
    q in s.q && s.q[q].life.installed
  }

  ghost predicate CanPassOn(s: State, q: Qid, c: CallId) {
    HasDone(s, q) && Installed(s, s.q[q].jobs.current[0].done.value) && c !in s.call
  }

  ghost predicate CanFreeHere(s: State, q: Qid) {
    HasDone(s, q) && !Installed(s, s.q[q].jobs.current[0].done.value)
  }

  ghost predicate CanSignal(s: State, q: Qid, w: Option<CallId>) {
    && q in s.q && !Busy(s, q) && s.q[q].pc == Signalling && s.q[q].lock.None?
    && match w
       case Some(c) => s.q[q].waiting > 0 && c in s.call && s.call[c].target == q && s.call[c].at == Parked
       case None => s.q[q].waiting > 0 ==> forall c :: c in s.call && s.call[c].target == q ==> s.call[c].at != Parked
  }

  ghost predicate Can(s: State, a: Action) {
    match a
    case Create(q, max, _, _, _) => CanCreate(s, q, max)
    case Begin(c, k) => CanBegin(s, c, k)
    case Destroy(c, k) => CanDestroy(s, c, k)
    case Shrink(c, k) => CanShrink(s, c, k)
    case Caller(c, act) => CanCaller(s, c, act)
    case Leave(c) => CanLeave(s, c)
    case Work(q, act) => CanWork(s, q, act)
    case Sleep(q, act) => CanSleep(s, q, act)
    case Invoke(q, _) => CanInvoke(s, q)
    case PassOn(q, c) => CanPassOn(s, q, c)
    case FreeHere(q) => CanFreeHere(s, q)
    case Signal(q, w) => CanSignal(s, q, w)
  }

  /** What `s.q[k.target]` becomes when a call takes hold of it. */
  function Held(x: Queue, k: Call): Queue {
    if k.hold != Ref then x else if k.reserved then x.(usage := x.usage + 1, count := x.count + 1) else x.(usage := x.usage + 1)
  }

  function LetGo(x: Queue, k: Call): Queue {
    if k.hold != Ref then x else if k.reserved then x.(usage := x.usage - 1, count := x.count - 1) else x.(usage := x.usage - 1)
  }

  function OutOfPool(x: Queue): Queue {
    x.(life := x.life.(pooled := false))
  }

  function Picked(j: Jobs): Jobs
    requires j.batch != []
  {
    j.(current := [j.batch[0]], batch := j.batch[1..])
  }

  /** The call still has its function to link in. */
  predicate Carrying(k: Call) {
    !k.destroys && (k.at.Entering? || k.at.Parked? || k.at.Unparked?)
  }

  /** What the step of a call does to its function. */
  function FateAfter(fate: map<JobId, Fate>, k: Call, a: CallAct): map<JobId, Fate> {
    if !Carrying(k) then fate
    else
      match a
      case Enqueue => Moved(fate, k.job.id, SeatFate(AtOf(fate, k.job.id), k.target))
      case Refuse => Moved(fate, k.job.id, Refused)
      case _ => fate
  }

  /** The call that takes a finished function to its done queue. */
  function Handing(q: Qid, job: Job): Call {
    Call(if job.done.Some? then job.done.value else q, Some(q), Ref, false, true, false, false, Job(job.id, true, None, None), Entering)
  }

  ghost function DoCreate(s: State, q: Qid, x: Queue): State {
    s.(q := s.q[q := x])
  }

  ghost function DoBegin(s: State, c: CallId, k: Call): State
    requires CanBegin(s, c, k)
  {
    s.(q := s.q[k.target := Held(s.q[k.target], k)], call := s.call[c := k], told := s.told - {c},
       fate := s.fate[k.job.id := Fate(k.job.done, Calling(c))])
  }

  ghost function DoDestroy(s: State, c: CallId, k: Call): State
    requires CanDestroy(s, c, k)
  {
    s.(q := s.q[k.target := Held(s.q[k.target], k)], call := s.call[c := k])
  }

  ghost function DoShrink(s: State, c: CallId, k: Call): State
    requires CanShrink(s, c, k)
  {
    s.(q := s.q[k.target := OutOfPool(Held(s.q[k.target], k))], call := s.call[c := k])
  }

  ghost function DoCaller(s: State, c: CallId, a: CallAct): State
    requires CanCaller(s, c, a)
  {
    var k := s.call[c];
    s.(q := s.q[k.target := QueueSees(s.q[k.target], c, k, a)], call := s.call[c := CallDo(s.q[k.target], k, a)],
       fate := FateAfter(s.fate, k, a))
  }

  ghost function DoLeave(s: State, c: CallId): State
    requires CanLeave(s, c)
  {
    var k := s.call[c];
    s.(q := s.q[k.target := LetGo(s.q[k.target], k)], call := s.call - {c})
  }

  /** The fate of the function a thread has done with, unless a done queue has it now. */
  function RetiredFate(fate: map<JobId, Fate>, x: Queue, a: WorkAct): map<JobId, Fate> {
    if a.Retire? && x.pc == Counting(false) && x.jobs.current != [] then
      Moved(fate, x.jobs.current[0].id, EndFate(AtOf(fate, x.jobs.current[0].id)))
    else fate
  }

  ghost function DoWork(s: State, q: Qid, a: WorkAct): State
    requires CanWork(s, q, a)
  {
    s.(q := s.q[q := WorkDo(s.q[q], a)], told := if a.Tell? then s.told + {s.q[q].pc.to} else s.told, fate := RetiredFate(s.fate, s.q[q], a))
  }

  ghost function DoSleep(s: State, q: Qid, a: SleepAct): State
    requires CanSleep(s, q, a)
  {
    s.(q := s.q[q := SleepDo(s.q[q], a)])
  }

  ghost function DoInvoke(s: State, q: Qid, live: bool): State
    requires CanInvoke(s, q)
  {
    var x := s.q[q];
    s.(q := s.q[q := x.(jobs := Picked(x.jobs), pc := Running(live))],
       fate := Moved(s.fate, x.jobs.batch[0].id, StartFate(AtOf(s.fate, x.jobs.batch[0].id), live)),
       log := s.log + [StartEvent(x.jobs.batch[0], q, live)])
  }

  ghost function DoPassOn(s: State, q: Qid, c: CallId): State
    requires CanPassOn(s, q, c)
  {
    var x := s.q[q];
    var k := Handing(q, x.jobs.current[0]);
    var q' := s.q[q := x.(pc := Counting(true))];
    s.(q := q'[k.target := Held(q'[k.target], k)], call := s.call[c := k], fate := Moved(s.fate, k.job.id, Passing(q, c)))
  }

  ghost function DoFreeHere(s: State, q: Qid): State
    requires CanFreeHere(s, q)
  {
    var x := s.q[q];
    s.(q := s.q[q := x.(pc := Freeing)], fate := Moved(s.fate, x.jobs.current[0].id, ActiveFreed(q)),
       log := s.log + [Event(x.jobs.current[0].id, q, false, FreeOnly)])
  }

  ghost function DoSignal(s: State, q: Qid, w: Option<CallId>): State
    requires CanSignal(s, q, w)
  {
    s.(q := s.q[q := s.q[q].(pc := Picking)], call := if w.Some? then s.call[w.value := s.call[w.value].(at := Unparked)] else s.call)
  }

  ghost function Do(s: State, a: Action): State
    requires Can(s, a)
  {
    match a
    case Create(q, max, nonblock, event, pooled) => DoCreate(s, q, NewQueue(max, nonblock, event, pooled))
    case Begin(c, k) => DoBegin(s, c, k)
    case Destroy(c, k) => DoDestroy(s, c, k)
    case Shrink(c, k) => DoShrink(s, c, k)
    case Caller(c, act) => DoCaller(s, c, act)
    case Leave(c) => DoLeave(s, c)
    case Work(q, act) => DoWork(s, q, act)
    case Sleep(q, act) => DoSleep(s, q, act)
    case Invoke(q, live) => DoInvoke(s, q, live)
    case PassOn(q, c) => DoPassOn(s, q, c)
    case FreeHere(q) => DoFreeHere(s, q)
    case Signal(q, w) => DoSignal(s, q, w)
  }

  const Nothing: State := State(map[], map[], {}, map[], [])

  ghost predicate Run(states: seq<State>, actions: seq<Action>) {
    && |states| == |actions| + 1 && states[0] == Nothing
    && forall i :: 0 <= i < |actions| ==> Can(states[i], actions[i]) && states[i + 1] == Do(states[i], actions[i])
  }
}

/**
 Thread contexts of the ThreadX port (platform/src/asr3603/aosl_hal_thread.c):
 create, complete, join, detach, destroy and the reaper, with one action per
 section under the interrupt lock and one per call made outside it.
 */
module ThreadReaper {
  type Ctx = int
  type Cid = int

  /** How far the thread itself is: in its entry function, behind the locked part of aosl_thread_complete, behind all of it. */
  datatype Own = Running | Signalling | Over

  /**
   struct aosl_asr3603_thread.  `done` is the semaphore; `ended`: the native thread was
   terminated or ran out; `frees`: how often the context was freed.
   */
  datatype Context = Context(
    registered: bool, completed: bool, detached: bool, claimed: bool, enqueued: bool, reaping: bool, requested: bool,
    own: Own, done: nat, ended: bool, frees: nat)

  /** A call to the native system; a thread may have been stopped although its deletion failed. */
  datatype Outcome = Success | Failure(stopped: bool)

  datatype Pc =
    | JoinWait            // claimed, waits for `done`
    | JoinDelete          // about to terminate and delete the native thread
    | JoinUnregister      // about to take the context off the active list
    | JoinFree            // about to free it
    | DestroyTerminate    // requested, about to terminate the native thread without the lock
    | DestroyEnqueue      // about to enqueue the context, if it is still there

  /** A join or a destroy in progress; `detached`: the context was so when the destroy began. */
  datatype Client = Client(target: Ctx, pc: Pc, detached: bool)

  /** What aosl_reaper_entry is doing. */
  datatype Reaper = Idle | Deleting(x: Ctx) | Removing(x: Ctx) | Freeing(x: Ctx)

  datatype State = State(ctx: map<Ctx, Context>, queue: seq<Ctx>, reaper: Reaper, client: map<Cid, Client>, touched: bool)

  const Initial: State := State(map[], [], Idle, map[], false)

  datatype Action =
    | Create(x: Ctx)
    | Complete(x: Ctx)                     // the locked part of aosl_thread_complete, from the thread itself
    | Signal(x: Ctx)                       // and its tx_semaphore_put on `done`
    | Leave(x: Ctx)                        // the thread returns from its entry, or terminates itself
    | Join(c: Cid, x: Ctx) | JoinStep(c: Cid, r: Outcome)
    | Detach(x: Ctx)
    | DestroySelf(x: Ctx)                  // then aosl_hal_thread_exit
    | Destroy(c: Cid, x: Ctx) | DestroyStep(c: Cid, r: Outcome)
    | Reap(r: Outcome)

  predicate Found(s: State, x: Ctx) {
    x in s.ctx && s.ctx[x].registered
  }

  /** aosl_enqueue_reap_locked */
  function Enqueue(s: State, x: Ctx): State
    requires x in s.ctx
  {
    if s.ctx[x].enqueued || s.ctx[x].reaping then s
    else s.(ctx := s.ctx[x := s.ctx[x].(enqueued := true)], queue := s.queue + [x])
  }

  function Set(s: State, x: Ctx, k: Context): State {
    s.(ctx := s.ctx[x := k])
  }

  predicate Joinable(k: Context) {
    !k.detached && !k.claimed && !k.enqueued && !k.reaping && !k.requested
  }

  predicate Can(s: State, a: Action) {
    match a
    case Create(x) => x !in s.ctx
    case Complete(x) => x in s.ctx && !s.ctx[x].ended && s.ctx[x].own.Running?
    case Signal(x) => x in s.ctx && !s.ctx[x].ended && s.ctx[x].own.Signalling?
    case Leave(x) => x in s.ctx && !s.ctx[x].ended && s.ctx[x].own.Over?
    case Join(c, x) => c !in s.client && Found(s, x) && Joinable(s.ctx[x])
    case JoinStep(c, r) =>
      && c in s.client && s.client[c].target in s.ctx
      && (s.client[c].pc.JoinWait? || s.client[c].pc.JoinDelete? || s.client[c].pc.JoinUnregister? || s.client[c].pc.JoinFree?)
      && (s.client[c].pc.JoinWait? && r.Success? ==> s.ctx[s.client[c].target].done > 0)
    case Detach(x) => Found(s, x) && !s.ctx[x].claimed && !s.ctx[x].requested
    case DestroySelf(x) => Found(s, x) && !s.ctx[x].ended && s.ctx[x].own.Running? && Destroyable(s.ctx[x])
    case Destroy(c, x) => c !in s.client && Found(s, x) && Destroyable(s.ctx[x])
    case DestroyStep(c, _) => c in s.client && s.client[c].target in s.ctx && (s.client[c].pc.DestroyTerminate? || s.client[c].pc.DestroyEnqueue?)
    case Reap(_) =>
      match s.reaper
      case Idle => s.queue != [] && s.queue[0] in s.ctx
      case Deleting(x) => x in s.ctx
      case Removing(x) => x in s.ctx
      case Freeing(x) => x in s.ctx
  }

  predicate Destroyable(k: Context) {
    !k.claimed && !k.reaping && !k.enqueued && !k.requested
  }

  function Completed(s: State, x: Ctx): State
    requires x in s.ctx
  {
    var s' := Set(s, x, s.ctx[x].(completed := true, own := Signalling));
    if s.ctx[x].detached then Enqueue(s', x) else s'
  }

  /** aosl_delete_native_thread; the result of tx_thread_terminate alone. */
  function Stopped(k: Context, r: Outcome): Context {
    k.(ended := k.ended || r.Success? || r.stopped)
  }

  function JoinDo(s: State, c: Cid, r: Outcome): State
    requires Can(s, JoinStep(c, r))
  {
    var k := s.client[c];
    var y := s.ctx[k.target];
    match k.pc
    case JoinWait =>
      // the wait may fail, and the claim is given up
      if r.Failure? then Set(s, k.target, y.(claimed := false)).(client := s.client - {c})
      else Set(s, k.target, y.(done := y.done - 1)).(client := s.client[c := k.(pc := JoinDelete)])
    case JoinDelete =>
      if r.Failure? then Set(s, k.target, Stopped(y, r).(claimed := false)).(client := s.client - {c})
      else Set(s, k.target, Stopped(y, r)).(client := s.client[c := k.(pc := JoinUnregister)])
    case JoinUnregister => Set(s, k.target, y.(registered := false)).(client := s.client[c := k.(pc := JoinFree)])
    case JoinFree => Set(s, k.target, y.(frees := y.frees + 1)).(client := s.client - {c})
  }

  function DestroyDo(s: State, c: Cid, r: Outcome): State
    requires c in s.client && s.client[c].target in s.ctx
  {
    var k := s.client[c];
    var y := s.ctx[k.target];
    if k.pc.DestroyTerminate? then
      Set(s, k.target, Stopped(y, r)).(client := s.client[c := k.(pc := DestroyEnqueue)], touched := s.touched || y.frees > 0)
    else if y.registered && y.requested && !y.reaping && !y.enqueued then
      Enqueue(Set(s, k.target, y.(detached := true)), k.target).(client := s.client - {c})
    else s.(client := s.client - {c})
  }

  function ReapDo(s: State, r: Outcome): State
    requires Can(s, Reap(r))
  {
    match s.reaper
    case Idle =>
      var x := s.queue[0];
      Set(s, x, s.ctx[x].(enqueued := false, reaping := true)).(queue := s.queue[1..], reaper := Deleting(x))
    case Deleting(x) =>
      if r.Failure? then Enqueue(Set(s, x, Stopped(s.ctx[x], r).(reaping := false)), x).(reaper := Idle)
      else Set(s, x, Stopped(s.ctx[x], r)).(reaper := Removing(x))
    case Removing(x) => Set(s, x, s.ctx[x].(registered := false, reaping := false)).(reaper := Freeing(x))
    case Freeing(x) => Set(s, x, s.ctx[x].(frees := s.ctx[x].frees + 1)).(reaper := Idle)
  }

  function Do(s: State, a: Action): State
    requires Can(s, a)
  {
    match a
    case Create(x) => Set(s, x, Context(true, false, false, false, false, false, false, Running, 0, false, 0))
    case Complete(x) => Completed(s, x)
    case Signal(x) => Set(s, x, s.ctx[x].(done := s.ctx[x].done + 1, own := Over))
    case Leave(x) => Set(s, x, s.ctx[x].(ended := true))
    case Join(c, x) =>
      Set(s, x, s.ctx[x].(claimed := true)).(client := s.client[c := Client(x, if s.ctx[x].completed then JoinDelete else JoinWait, false)])
    case JoinStep(c, r) => JoinDo(s, c, r)
    case Detach(x) =>
      var s' := Set(s, x, s.ctx[x].(detached := true));
      if s.ctx[x].completed then Enqueue(s', x) else s'
    case DestroySelf(x) => Set(s, x, s.ctx[x].(requested := true, detached := true))
    case Destroy(c, x) => Set(s, x, s.ctx[x].(requested := true)).(client := s.client[c := Client(x, DestroyTerminate, s.ctx[x].detached)])
    case DestroyStep(c, r) => DestroyDo(s, c, r)
    case Reap(r) => ReapDo(s, r)
  }

  ghost predicate Run(states: seq<State>, actions: seq<Action>) {
    && |states| == |actions| + 1 && states[0] == Initial
    && forall i :: 0 <= i < |actions| ==> Can(states[i], actions[i]) && states[i + 1] == Do(states[i], actions[i])
  }
}

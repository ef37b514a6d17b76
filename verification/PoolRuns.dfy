/**
 The pool-wide barrier on running queues: one caller takes the pool's lock, sets the
 counter, and queues a promise on every queue of the pool, while all queues and all
 other callers go on as they like.
 */
module PoolRuns {
  import opened Common
  import opened JobBoard
  import opened MpQueueProof
  import opened MpQueueJobs
  import opened MpQueueSync
  import opened MpQueueRuns
  import Q = MpQueue
  import B = PoolBarrier

  /** `locked`: the caller of the barrier has qp->lock. */
  datatype State = State(m: Q.State, bar: Option<B.Barrier>, locked: bool)

  const Initial: State := State(Q.Nothing, None, false)

  datatype Action =
    | Queues(a: Q.Action)                                             // anything the queues and other callers do
    | Call(pool: set<Qid>)                                            // __mpqp_pool_tail_queue_argv, up to its loop
    | Post(c: CallId, q: Qid, id: JobId, caller: Option<Qid>)         // one turn of the loop
    | Unlock
    | CountDown(q: Qid)                                               // in ____each_pool_promise_f

  /** __mpq_queue_no_fail_argv under the pool's lock. */
  function PromiseCall(q: Qid, id: JobId, caller: Option<Qid>): Q.Call {
    Q.Call(q, caller, Q.Pool, false, true, false, false, B.Promise(id), Q.Entering)
  }

  /** The step takes the lock of the pool. */
  predicate TakesLock(a: Q.Action, pool: set<Qid>) {
    (a.Shrink? && a.k.target in pool) || (a.Begin? && a.k.target in pool && (a.k.hold.Pool? || a.k.reserved))
  }

  ghost predicate PoolFree(m: Q.State, pool: set<Qid>) {
    forall c :: c in m.call && m.call[c].target in pool ==> !m.call[c].hold.Pool?
  }

  /** The promise is in its function on `q`. */
  predicate Promising(m: Q.State, bar: B.Barrier, q: Qid) {
    && q in m.q && q in bar.promise && m.q[q].pc.Running? && |m.q[q].jobs.current| == 1 && m.q[q].jobs.current[0].id == bar.promise[q]
  }

  ghost predicate Can(s: State, a: Action) {
    match a
    case Queues(b) =>
      && Q.Can(s.m, b)
      && (s.bar.Some? && s.locked ==> !TakesLock(b, s.bar.value.pool))
      // the promise returns after its atomic_dec_and_test
      && (s.bar.Some? && b.Work? && b.act.Return? && Promising(s.m, s.bar.value, b.q) ==> b.q in s.bar.value.counted)
    case Call(pool) => s.bar.None? && pool != {} && (forall q :: q in pool ==> q in s.m.q && s.m.q[q].life.pooled) && PoolFree(s.m, pool)
    case Post(c, q, id, caller) =>
      && s.bar.Some? && s.locked && q in s.bar.value.pool && q !in s.bar.value.promise
      && Q.CanBegin(s.m, c, PromiseCall(q, id, caller))
    case Unlock => s.bar.Some? && s.locked && s.bar.value.promise.Keys == s.bar.value.pool && PoolFree(s.m, s.bar.value.pool)
    case CountDown(q) => s.bar.Some? && Promising(s.m, s.bar.value, q) && q !in s.bar.value.counted && !Q.Busy(s.m, q)
  }

  ghost function NewBarrier(m: Q.State, pool: set<Qid>): B.Barrier {
    B.Barrier(pool, map q | q in pool && q in m.q :: B.Line(DeskOf(m.q[q])), map[], {}, |pool|, 0)
  }

  ghost function Do(s: State, a: Action): State
    requires Can(s, a)
  {
    match a
    case Queues(b) => s.(m := Q.Do(s.m, b))
    case Call(pool) => s.(bar := Some(NewBarrier(s.m, pool)), locked := true)
    case Post(c, q, id, caller) =>
      s.(m := Q.DoBegin(s.m, c, PromiseCall(q, id, caller)), bar := Some(s.bar.value.(promise := s.bar.value.promise[q := id])))
    case Unlock => s.(locked := false)
    case CountDown(q) => s.(bar := Some(B.Do(Abs(s), B.CountDown(q)).bar))
  }

  /** The barrier as the board of functions sees it. */
  ghost function Abs(s: State): B.State
    requires s.bar.Some?
  {
    B.State(BoardOf(s.m), s.bar.value)
  }

  ghost predicate Run(states: seq<State>, actions: seq<Action>) {
    && |states| == |actions| + 1 && states[0] == Initial
    && forall i :: 0 <= i < |actions| ==> Can(states[i], actions[i]) && states[i + 1] == Do(states[i], actions[i])
  }

  // ---- The queues are unaware of it ---------------------------------------------------------------

  /** The queues' part of a step: one step of theirs, or none. */
  lemma QueuesStep(s: State, a: Action)
    requires Can(s, a)
    ensures Do(s, a).m == s.m || exists b :: Q.Can(s.m, b) && Do(s, a).m == Q.Do(s.m, b)
  {
    match a
    case Queues(b) => assert Q.Can(s.m, b) && Do(s, a).m == Q.Do(s.m, b);
    case Post(c, q, id, caller) =>
      var b := Q.Begin(c, PromiseCall(q, id, caller));
      assert Q.Can(s.m, b) && Do(s, a).m == Q.Do(s.m, b);
    case _ =>
  }

  /** Every run with a barrier is a run of the queues. */
  lemma {:induction false} Projected(states: seq<State>, actions: seq<Action>, i: nat) returns (ms: seq<Q.State>, bs: seq<Q.Action>)
    requires Run(states, actions) && i < |states|
    ensures Q.Run(ms, bs) && ms[|bs|] == states[i].m
  {
    hide Can, Do, Q.Can, Q.Do;
    if i == 0 {
      ms, bs := [Q.Nothing], [];
    } else {
      ms, bs := Projected(states, actions, i - 1);
      QueuesStep(states[i - 1], actions[i - 1]);
      var m, m' := states[i - 1].m, states[i].m;
      if m' != m {
        var b :| Q.Can(m, b) && m' == Q.Do(m, b);
        ms, bs := ms + [m'], bs + [b];
      }
    }
  }

  lemma QueuesReached(states: seq<State>, actions: seq<Action>, i: nat)
    requires Run(states, actions) && i < |states|
    ensures Always(states[i].m)
  {
    var ms, bs := Projected(states, actions, i);
    hide Always, Run;
    MpQueueRuns.Reached(ms, bs, |bs|);
  }

  // ---- Invariant -------------------------------------------------------------------------------------

  predicate IsPost(k: Q.Call, q: Qid, id: JobId) {
    Q.Carrying(k) && k.job.id == id ==> k.target == q && k.noFail
  }

  /** A call that still carries a promise carries it to its queue, and cannot be refused. */
  ghost predicate Posts(m: Q.State, bar: B.Barrier) {
    forall c, q :: c in m.call && q in bar.promise ==> IsPost(m.call[c], q, bar.promise[q])
  }

  ghost predicate StillPooled(m: Q.State, pool: set<Qid>) {
    forall q :: q in pool ==> q in m.q && m.q[q].life.pooled
  }

  ghost predicate Held(s: State) {
    s.bar.Some? ==>
      && Posts(s.m, s.bar.value)
      && if s.locked then StillPooled(s.m, s.bar.value.pool) else s.bar.value.promise.Keys == s.bar.value.pool
  }

  ghost predicate Inv(s: State) {
    Held(s) && (s.bar.Some? ==> B.Inv(Abs(s)))
  }

  // ---- Every step is one of the board's --------------------------------------------------------------

  /** A promise being seen to has no done queue, so it is neither handed on nor freed. */
  lemma NoDone(m: Q.State, bar: B.Barrier, p: Qid, q: Qid)
    requires Always(m) && B.Inv(B.State(BoardOf(m), bar)) && Q.HasDone(m, p) && q in bar.promise
    ensures m.q[p].jobs.current[0].id != bar.promise[q]
  {
    DeskReads(m, p);
    assert B.OnTrack(BoardOf(m), bar, q);
    InvParts(BoardOf(m));
    hide Always, B.Inv, JobBoard.Inv;
    ActFacts(BoardOf(m), p);
    hide Desks, Carriers, Found, Logged, InTurn;
  }

  lemma SeatGuard(m: Q.State, bar: B.Barrier, c: CallId, q: Qid)
    requires Posts(m, bar) && c in m.call && Q.Carrying(m.call[c]) && q in bar.promise && bar.promise[q] == m.call[c].job.id
    ensures m.call[c].target == q && m.call[c].noFail
  {
    assert IsPost(m.call[c], q, bar.promise[q]);
  }

  lemma CallerGuard(s: State, c: CallId, does: Q.CallAct)
    requires s.bar.Some? && Posts(s.m, s.bar.value) && Q.CanCaller(s.m, c, does) && May(BoardOf(s.m), MoveOf(s.m, Q.Caller(c, does)))
    ensures B.Can(Abs(s), B.Other(MoveOf(s.m, Q.Caller(c, does))))
  {
    var bar, k := s.bar.value, s.m.call[c];
    if Q.Carrying(k) {
      MapReads(s.m, c, k.target);
      forall q | q in bar.promise && bar.promise[q] == k.job.id ensures k.target == q && k.noFail {
        SeatGuard(s.m, bar, c, q);
      }
    }
    hide Posts, May, DeskMap;
  }

  lemma WorkGuard(s: State, q: Qid, act: Q.WorkAct)
    requires s.bar.Some? && Can(s, Queues(Q.Work(q, act))) && May(BoardOf(s.m), MoveOf(s.m, Q.Work(q, act)))
    ensures B.Can(Abs(s), B.Other(MoveOf(s.m, Q.Work(q, act))))
  {
    DeskReads(s.m, q);
    hide May, DeskMap, CarrierMap, Q.Busy;
  }

  /** What the board asks of a step holds of every step of the queues. */
  lemma Guards(s: State, b: Q.Action)
    requires s.bar.Some? && Posts(s.m, s.bar.value) && Can(s, Queues(b)) && May(BoardOf(s.m), MoveOf(s.m, b))
    ensures B.Can(Abs(s), B.Other(MoveOf(s.m, b)))
  {
    if b.Caller? {
      hide B.Can, May, Posts;
      CallerGuard(s, b.c, b.does);
    } else if b.Work? {
      hide B.Can, May, Posts;
      WorkGuard(s, b.q, b.act);
    } else {
      hide May, Posts, Q.Can;
    }
  }

  lemma BoardStep(s: State, b: Q.Action)
    requires Always(s.m) && Inv(s) && s.bar.Some? && Can(s, Queues(b))
    ensures B.Inv(Abs(Do(s, Queues(b))))
  {
    RefinesBoard(s.m, b);
    hide Always, B.Inv, B.Can, Posts, MoveOf;
    assert Plays(s.m, MoveOf(s.m, b), Q.Do(s.m, b));
    Guards(s, b);
    B.Preserved(Abs(s), B.Other(MoveOf(s.m, b)));
  }

  // ---- Every step keeps the invariant -----------------------------------------------------------------

  /** A new call that carries something carries a new function, or one that was handed on. */
  lemma NewCall(m: Q.State, b: Q.Action, c: CallId)
    requires Q.Can(m, b) && c !in m.call && c in Q.Do(m, b).call && Q.Carrying(Q.Do(m, b).call[c])
    ensures var id := Q.Do(m, b).call[c].job.id; id !in m.fate || (b.PassOn? && Q.HasDone(m, b.q) && id == m.q[b.q].jobs.current[0].id)
  {
    hide Q.MayCall, Q.Busy;
  }

  lemma PostsStep(m: Q.State, bar: B.Barrier, b: Q.Action)
    requires Always(m) && B.Inv(B.State(BoardOf(m), bar)) && Posts(m, bar) && Q.Can(m, b)
    ensures Posts(Q.Do(m, b), bar)
  {
    var m' := Q.Do(m, b);
    forall c, q | c in m'.call && q in bar.promise ensures IsPost(m'.call[c], q, bar.promise[q]) {
      assert B.OnTrack(BoardOf(m), bar, q);
      if c in m.call {
        CallsGoOn(m, b, c);
        assert IsPost(m.call[c], q, bar.promise[q]);
      } else if Q.Carrying(m'.call[c]) {
        NewCall(m, b, c);
        hide Always, B.Inv;
        if b.PassOn? {
          NoDone(m, bar, b.q, q);
        }
      }
    }
  }

  /** Only a shrinking pool loses queues. */
  lemma PooledStays(m: Q.State, b: Q.Action, q: Qid)
    requires Q.Can(m, b) && q in m.q && m.q[q].life.pooled && !(b.Shrink? && b.k.target == q)
    ensures q in Q.Do(m, b).q && Q.Do(m, b).q[q].life.pooled
  {
    match b
    case Caller(c, does) => PooledSeen(m.q[m.call[c].target], c, m.call[c], does);
    case Work(p, act) => PooledWork(m.q[p], act);
    case _ =>
    hide Q.MayCall, Q.Busy, Q.CallDo, Q.FateAfter, Q.RetiredFate, Q.SleepPc, Q.SleepBell, Q.CallCan, Q.SleepCan, Q.QueueSees, Q.WorkDo, Q.WorkCan;
  }

  lemma PooledSeen(x: Q.Queue, c: CallId, k: Q.Call, a: Q.CallAct)
    ensures Q.QueueSees(x, c, k, a).life.pooled == x.life.pooled
  {
  }

  lemma PooledWork(x: Q.Queue, a: Q.WorkAct)
    ensures Q.WorkDo(x, a).life.pooled == x.life.pooled
  {
  }

  lemma HeldStep(s: State, b: Q.Action)
    requires Always(s.m) && Inv(s) && s.bar.Some? && Can(s, Queues(b))
    ensures Held(Do(s, Queues(b)))
  {
    hide Always, B.Inv, Posts;
    PostsStep(s.m, s.bar.value, b);
    hide Q.Can, Q.Do;
    if s.locked {
      forall q | q in s.bar.value.pool ensures q in Q.Do(s.m, b).q && Q.Do(s.m, b).q[q].life.pooled {
        PooledStays(s.m, b, q);
      }
    }
  }

  lemma InStepDesk(x: Q.Queue)
    requires Local(x)
    ensures B.InStep(DeskOf(x)) && B.Line(DeskOf(x)) == x.jobs.accepted
  {
    hide Phased, Needing;
  }

  lemma CalledNow(m: Q.State, pool: set<Qid>)
    requires Locals(m) && JobBoard.Inv(BoardOf(m)) && pool != {} && forall q :: q in pool ==> q in m.q
    ensures B.Called(B.State(BoardOf(m), NewBarrier(m, pool)))
  {
    forall q | q in m.q ensures B.InStep(DeskOf(m.q[q])) {
      InStepDesk(m.q[q]);
    }
    hide JobBoard.Inv, Locals, DeskOf, B.Line, B.InStep;
    assert forall q :: q in DeskMap(m.q) ==> q in m.q && DeskMap(m.q)[q] == DeskOf(m.q[q]);
    var before := NewBarrier(m, pool).before;
    assert before.Keys == pool by { assert forall q :: q in before <==> q in pool; }
  }

  lemma CallStep(s: State, pool: set<Qid>)
    requires Always(s.m) && Can(s, Call(pool))
    ensures Inv(Do(s, Call(pool)))
  {
    hide Locals, Calls, Locks, Tallies, Bound, Synced, AllKicked, JobBoard.Inv, B.Called, B.Inv;
    CalledNow(s.m, pool);
    B.Begins(Abs(Do(s, Call(pool))));
  }

  lemma PostOnBoard(s: State, c: CallId, q: Qid, id: JobId, caller: Option<Qid>)
    requires Always(s.m) && Inv(s) && Can(s, Post(c, q, id, caller))
    ensures B.Inv(Abs(Do(s, Post(c, q, id, caller))))
  {
    var b := Q.Begin(c, PromiseCall(q, id, caller));
    var s' := Do(s, Post(c, q, id, caller));
    RefinesBoard(s.m, b);
    hide Always, B.Inv, Held, BoardOf, Q.CanBegin, Q.DoBegin;
    assert Plays(s.m, Carry(c, B.Promise(id)), s'.m);
    B.Preserved(Abs(s), B.Post(c, q, id));
  }

  lemma PostStep(s: State, c: CallId, q: Qid, id: JobId, caller: Option<Qid>)
    requires Always(s.m) && Inv(s) && Can(s, Post(c, q, id, caller))
    ensures Inv(Do(s, Post(c, q, id, caller)))
  {
    var b := Q.Begin(c, PromiseCall(q, id, caller));
    hide Always, B.Inv, Posts;
    PostOnBoard(s, c, q, id, caller);
    PostsStep(s.m, s.bar.value, b);
    NewPost(s.m, s.bar.value, c, q, id, caller);
  }

  lemma NewPost(m: Q.State, bar: B.Barrier, c: CallId, q: Qid, id: JobId, caller: Option<Qid>)
    requires Always(m) && Q.CanBegin(m, c, PromiseCall(q, id, caller)) && Posts(Q.DoBegin(m, c, PromiseCall(q, id, caller)), bar)
    ensures Posts(Q.DoBegin(m, c, PromiseCall(q, id, caller)), bar.(promise := bar.promise[q := id]))
  {
    var m' := Q.DoBegin(m, c, PromiseCall(q, id, caller));
    forall d | d in m'.call ensures IsPost(m'.call[d], q, id) {
      if d != c && Q.Carrying(m.call[d]) {
        CarriedKnown(m, d);
      }
    }
    hide Always, IsPost, Q.CanBegin, Q.DoBegin;
  }

  /** What a call carries is known. */
  lemma CarriedKnown(m: Q.State, c: CallId)
    requires Always(m) && c in m.call && Q.Carrying(m.call[c])
    ensures m.call[c].job.id in m.fate
  {
    InvParts(BoardOf(m));
    hide Always, JobBoard.Inv;
    assert c in CarrierMap(m.call) && CarrierMap(m.call)[c] == m.call[c].job;
  }

  lemma CountStep(s: State, q: Qid)
    requires Inv(s) && Can(s, CountDown(q))
    ensures Inv(Do(s, CountDown(q)))
  {
    hide B.Inv;
    B.Preserved(Abs(s), B.CountDown(q));
  }

  lemma Preserved(s: State, a: Action)
    requires Always(s.m) && Inv(s) && Can(s, a)
    ensures Inv(Do(s, a))
  {
    hide Always, B.Inv;
    match a
    case Queues(b) =>
      if s.bar.Some? {
        BoardStep(s, b);
        HeldStep(s, b);
      }
    case Call(pool) => CallStep(s, pool);
    case Post(c, q, id, caller) => PostStep(s, c, q, id, caller);
    case Unlock =>
    case CountDown(q) => CountStep(s, q);
  }

  lemma {:induction false} Reached(states: seq<State>, actions: seq<Action>, i: nat)
    requires Run(states, actions) && i < |states|
    ensures Always(states[i].m) && Inv(states[i])
  {
    hide Always, Can, Do, B.Inv;
    QueuesReached(states, actions, i);
    if i > 0 {
      Reached(states, actions, i - 1);
      hide Inv;
      Preserved(states[i - 1], actions[i - 1]);
    }
  }

  // ---- The barrier -----------------------------------------------------------------------------------

  lemma StepFixed(s: State, a: Action)
    requires Can(s, a) && s.bar.Some?
    ensures Do(s, a).bar.Some? && Do(s, a).bar.value.pool == s.bar.value.pool && Do(s, a).bar.value.before == s.bar.value.before
  {
    hide Q.Can, Q.Do;
  }

  /** What the barrier noted when it was called. */
  lemma {:induction false} Noted(states: seq<State>, actions: seq<Action>, j: nat, i: nat, pool: set<Qid>, q: Qid)
    requires Run(states, actions) && j < i < |states| && actions[j] == Call(pool) && q in pool
    ensures states[i].bar.Some? && q in states[j].m.q
    ensures var bar := states[i].bar.value; bar.pool == pool && q in bar.before && bar.before[q] == states[j].m.q[q].jobs.accepted
  {
    if i == j + 1 {
      assert Can(states[j], actions[j]);
      QueuesReached(states, actions, j);
      InStepDesk(states[j].m.q[q]);
      hide Always;
    } else {
      Noted(states, actions, j, i - 1, pool, q);
      hide Can, Do;
      StepFixed(states[i - 1], actions[i - 1]);
    }
  }

  /** When the promised function runs, everything queued earlier on any queue of the pool has been executed. */
  lemma OnlyAfterAll(states: seq<State>, actions: seq<Action>, j: nat, i: nat, pool: set<Qid>, q: Qid)
    requires Run(states, actions) && j < i < |states| && actions[j] == Call(pool) && q in pool
    requires states[i].bar.Some? && states[i].bar.value.fired > 0
    ensures q in states[j].m.q && q in states[i].m.q && states[j].m.q[q].jobs.accepted <= states[i].m.q[q].jobs.retired
  {
    Noted(states, actions, j, i, pool, q);
    Reached(states, actions, i);
    var m, bar := states[i].m, states[i].bar.value;
    DeskReads(m, q);
    assert B.Ordered(bar, q, BoardOf(m).desk[q]) && q in bar.counted && Local(m.q[q]);
    hide Always, Inv, Run;
    assert |bar.before[q]| <= |m.q[q].jobs.retired|;
    Cut(bar.before[q], m.q[q].jobs.retired, m.q[q].jobs.current, m.q[q].jobs.batch + m.q[q].jobs.list);
  }

  lemma Cut(pre: seq<Job>, a: seq<Job>, b: seq<Job>, c: seq<Job>)
    requires pre <= a + b + c && |pre| <= |a|
    ensures pre <= a
  {
    assert (a + b + c)[..|a|] == a;
  }

  /** It runs at most once; and once the promises are queued and the pool's queues are gone, it has. */
  lemma RunsOnce(states: seq<State>, actions: seq<Action>, i: nat)
    requires Run(states, actions) && i < |states| && states[i].bar.Some?
    ensures var m, bar := states[i].m, states[i].bar.value;
      bar.fired <= 1 && ((forall q :: q in bar.pool ==> q in m.q && m.q[q].pc.Gone?) ==> bar.fired == 1)
  {
    Reached(states, actions, i);
    var m, bar := states[i].m, states[i].bar.value;
    assert B.Tally(bar);
    hide Always, Inv, Run;
    if forall q :: q in bar.pool ==> q in m.q && m.q[q].pc.Gone? {
      NotLocked(states[i]);
      forall q | q in bar.pool ensures q in bar.counted {
        GoneCounted(states[i], q);
      }
      assert bar.counted == bar.pool;
    }
  }

  /** A queue in its pool is not gone. */
  lemma NotLocked(s: State)
    requires Always(s.m) && Inv(s) && s.bar.Some? && forall q :: q in s.bar.value.pool ==> q in s.m.q && s.m.q[q].pc.Gone?
    ensures !s.locked && s.bar.value.promise.Keys == s.bar.value.pool
  {
    var q := B.AnyOf(s.bar.value.pool);
    GoneFacts(s.m, q);
  }

  lemma GoneCounted(s: State, q: Qid)
    requires Always(s.m) && Inv(s) && s.bar.Some? && q in s.bar.value.promise && q in s.m.q && s.m.q[q].pc.Gone?
    ensures q in s.bar.value.counted
  {
    var bar, b := s.bar.value, BoardOf(s.m);
    GoneFacts(s.m, q);
    DeskReads(s.m, q);
    assert B.OnTrack(b, bar, q);
    var id := bar.promise[q];
    assert FoundAt(b, id, b.fate[id].at);
    if b.fate[id].at.Calling? {
      var c := b.fate[id].at.c;
      assert c in s.m.call && Q.Carrying(s.m.call[c]) && s.m.call[c].job.id == id;
      SeatGuard(s.m, bar, c, q);
    }
  }

  /** The counter is decremented by promises only, and reaches zero exactly when the function runs. */
  lemma CounterExact(states: seq<State>, actions: seq<Action>, i: nat)
    requires Run(states, actions) && i < |states| && states[i].bar.Some?
    ensures var bar := states[i].bar.value; bar.count == |bar.pool| - |bar.counted| && (bar.count == 0 <==> bar.fired == 1)
  {
    Reached(states, actions, i);
    var bar := states[i].bar.value;
    assert B.Tally(bar);
    hide Always, Inv, Run;
    if bar.counted != bar.pool {
      B.Smaller(bar.counted, bar.pool);
    }
  }

  /** While the lock is held, the next promise can always be queued: no queue of the pool goes away. */
  lemma PostReady(states: seq<State>, actions: seq<Action>, i: nat, q: Qid, c: CallId, id: JobId)
    requires Run(states, actions) && i < |states| && states[i].bar.Some? && states[i].locked
    requires q in states[i].bar.value.pool && q !in states[i].bar.value.promise && c !in states[i].m.call && id !in states[i].m.fate
    ensures Can(states[i], Post(c, q, id, None))
  {
    Reached(states, actions, i);
    hide Always, B.Inv;
    assert q in states[i].m.q && states[i].m.q[q].life.pooled;
  }
}

/**
 The pool-wide barrier of kernel/mpqp.c: a promise is queued on every queue of the
 pool, and the one that counts down to zero runs the promised function.  The
 queues are those of `JobBoard`, moving in any interleaving.
 */
module PoolBarrier {
  import opened Common
  import opened JobBoard

  datatype Barrier = Barrier(
    pool: set<Qid>,                    // the queues of the pool when the barrier was called
    before: map<Qid, seq<Job>>,        // what each had accepted by then
    promise: map<Qid, JobId>,          // ____each_pool_promise_f, where it was handed in so far
    counted: set<Qid>,                 // where the promise has decremented the counter
    count: int,                        // *count_p
    fired: nat)                        // runs of the promised function

  /** ____each_pool_promise_f as it is queued. */
  function Promise(id: JobId): Job {
    Job(id, false, None, None)
  }

  datatype State = State(b: Board, bar: Barrier)

  function Line(d: Desk): seq<Job> {
    d.seen + d.wait
  }

  /** The barrier is called: the counter is set before any promise is queued. */
  ghost predicate Called(s: State) {
    && JobBoard.Inv(s.b) && s.bar.pool != {} && s.bar.promise == map[] && s.bar.before.Keys == s.bar.pool
    && (forall q :: q in s.bar.pool ==> q in s.b.desk && s.bar.before[q] == Line(s.b.desk[q]))
    && (forall q :: q in s.b.desk ==> InStep(s.b.desk[q]))
    && s.bar.counted == {} && s.bar.count == |s.bar.pool| && s.bar.fired == 0
  }

  /** The one being seen to is the last that was started. */
  predicate InStep(d: Desk) {
    |d.act| <= 1 && (d.act != [] ==> d.seen != [] && d.seen[|d.seen| - 1] == d.act[0])
  }

  datatype Action =
    | Other(m: Move)                   // anything else the queues do
    | Post(c: CallId, q: Qid, id: JobId)   // __mpq_queue_no_fail_argv on one queue of the pool
    | CountDown(q: Qid)                // the promise runs on q

  ghost predicate IsPromise(bar: Barrier, id: JobId) {
    exists q :: q in bar.promise && bar.promise[q] == id
  }

  /** The promise on `q` is in its function. */
  predicate PromiseRuns(s: State, q: Qid) {
    && q in s.b.desk && |s.b.desk[q].act| == 1 && q in s.bar.promise && s.b.desk[q].act[0].id == s.bar.promise[q]
    && s.b.desk[q].live.Some?
  }

  ghost predicate Can(s: State, a: Action) {
    match a
    case Other(m) =>
      && May(s.b, m)
      // a promise goes to its own queue, is not refused, and returns only after counting down
      && (m.Seat? ==> forall q :: q in s.bar.promise && s.bar.promise[q] == s.b.carrier[m.c].id ==> m.q == q)
      && (m.TurnAway? ==> !IsPromise(s.bar, s.b.carrier[m.c].id))
      && (m.Settle? && PromiseRuns(s, m.q) ==> m.q in s.bar.counted)
    case Post(c, q, id) => q in s.bar.pool && q !in s.bar.promise && May(s.b, Carry(c, Promise(id)))
    case CountDown(q) => q !in s.bar.counted && PromiseRuns(s, q)
  }

  ghost function Do(s: State, a: Action): State
    requires Can(s, a)
  {
    match a
    case Other(m) => s.(b := Made(s.b, m))
    case Post(c, q, id) => State(Made(s.b, Carry(c, Promise(id))), s.bar.(promise := s.bar.promise[q := id]))
    case CountDown(q) =>
      // atomic_dec_and_test, and the function in the same run
      s.(bar := s.bar.(counted := s.bar.counted + {q}, count := s.bar.count - 1,
                       fired := if s.bar.count - 1 == 0 then s.bar.fired + 1 else s.bar.fired))
  }

  // ---- Invariant --------------------------------------------------------------------------

  /** What was queued before still comes first, and is behind the queue once it has counted down. */
  predicate Ordered(bar: Barrier, q: Qid, d: Desk) {
    && InStep(d)
    && (q in bar.before ==> bar.before[q] <= Line(d) && (q in bar.counted ==> |bar.before[q]| < |d.seen|))
  }

  ghost predicate Fixed(b: Board, bar: Barrier) {
    && bar.pool != {} && bar.promise.Keys <= bar.pool && bar.before.Keys == bar.pool && bar.counted <= bar.promise.Keys
    && (forall p, q :: p in bar.promise && q in bar.promise && p != q ==> bar.promise[p] != bar.promise[q])
    && (forall q, j :: q in bar.pool && j in bar.before[q] ==> j.id in b.fate)
    && (forall q, j :: q in bar.promise && j in bar.before[q] ==> j.id != bar.promise[q])
  }

  ghost predicate Tally(bar: Barrier) {
    && bar.counted <= bar.pool && bar.count == |bar.pool| - |bar.counted|
    && bar.fired == if bar.counted == bar.pool then 1 else 0
  }

  /** A promise is on its own queue, and has counted down when its run is over. */
  predicate OnTrack(b: Board, bar: Barrier, q: Qid)
    requires q in bar.promise
  {
    var id := bar.promise[q];
    && id in b.fate && b.fate[id].done.None?
    && match b.fate[id].at
       case Calling(_) => true
       case Queued(on) => on == q
       case Active(on, _) => on == q && (q in b.desk && b.desk[q].live.None? ==> q in bar.counted)
       case Ended(first, _) => first == q && q in bar.counted
       case _ => false
  }

  ghost predicate Inv(s: State) {
    && JobBoard.Inv(s.b) && Fixed(s.b, s.bar) && Tally(s.bar)
    && (forall q :: q in s.bar.pool ==> q in s.b.desk)
    && (forall q :: q in s.b.desk ==> Ordered(s.bar, q, s.b.desk[q]))
    && (forall q :: q in s.bar.promise ==> OnTrack(s.b, s.bar, q))
  }

  // ---- It begins --------------------------------------------------------------------------

  /** A function that a queue has accepted is known. */
  lemma LineKnown(b: Board, q: Qid, j: Job)
    requires JobBoard.Inv(b) && q in b.desk && j in Line(b.desk[q])
    ensures j.id in b.fate
  {
    var d := b.desk[q];
    assert DeskOk(b.fate, q, d);
    if j !in d.wait {
      var i :| 0 <= i < |d.seen| && d.seen[i] == j;
      assert Names(d.seen)[i] == (j.id, j.again);
      assert StartedOn(b.log, q) == Names(d.seen);
      hide Names;
      StartedIsLogged(b.log, q, (j.id, j.again));
    }
  }

  lemma Begins(s: State)
    requires Called(s)
    ensures Inv(s)
  {
    forall q, j | q in s.bar.pool && j in s.bar.before[q] ensures j.id in s.b.fate {
      LineKnown(s.b, q, j);
    }
    hide JobBoard.Inv;
  }

  // ---- The order is kept --------------------------------------------------------------------

  lemma OrderedMove(s: State, m: Move, q: Qid)
    requires Inv(s) && May(s.b, m) && q in Made(s.b, m).desk
    ensures Ordered(s.bar, q, Made(s.b, m).desk[q])
  {
    if q in s.b.desk {
      var d, d' := s.b.desk[q], Made(s.b, m).desk[q];
      assert Ordered(s.bar, q, d);
      LineGrows(s.b, m, q);
      hide JobBoard.Inv, Fixed, Tally;
    }
  }

  lemma LineGrows(b: Board, m: Move, q: Qid)
    requires May(b, m) && q in b.desk && InStep(b.desk[q])
    ensures var d, d' := b.desk[q], Made(b, m).desk[q]; Line(d) <= Line(d') && |d.seen| <= |d'.seen| && InStep(d')
  {
    var d, d' := b.desk[q], Made(b, m).desk[q];
    match m
    case Seat(c, p) =>
      if p == q {
        assert Line(d') == Line(d) + d'.wait[|d.wait|..];
      }
    case Start(p, live) =>
      if p == q {
        assert Line(d') == Line(d);
      }
    case _ =>
  }

  // ---- The promises are kept ------------------------------------------------------------------

  lemma TrackCarried(s: State, m: Move, q: Qid)
    requires Inv(s) && Can(s, Other(m)) && q in s.bar.promise && (m.Seat? || m.TurnAway? || m.Carry?)
    ensures OnTrack(Made(s.b, m), s.bar, q)
  {
    assert OnTrack(s.b, s.bar, q);
    if !m.Carry? {
      var job := s.b.carrier[m.c];
      assert CarriedBy(s.b.fate[job.id], job, m.c);
    }
    assert q in s.b.desk;
    hide Desks, Found, Logged, InTurn, Tally, Fixed;
  }

  lemma TrackStart(s: State, p: Qid, live: bool, q: Qid)
    requires Inv(s) && Can(s, Other(Start(p, live))) && q in s.bar.promise
    ensures OnTrack(Made(s.b, Start(p, live)), s.bar, q)
  {
    assert OnTrack(s.b, s.bar, q);
    var job := s.b.desk[p].wait[0];
    assert DeskOk(s.b.fate, p, s.b.desk[p]) && job in s.b.desk[p].wait;
    assert WaitsAt(s.b.fate[job.id], job, p);
    hide Desks, Found, Logged, InTurn, Tally, Fixed, DeskOk;
  }

  /** A promise that is being seen to is the only one at its desk. */
  lemma PromiseAtDesk(s: State, q: Qid)
    requires Inv(s) && q in s.bar.promise && s.bar.promise[q] in s.b.fate && s.b.fate[s.bar.promise[q]].at.Active?
    ensures q in s.b.desk && |s.b.desk[q].act| == 1 && s.b.desk[q].act[0].id == s.bar.promise[q]
  {
    var id := s.bar.promise[q];
    assert OnTrack(s.b, s.bar, q);
    assert FoundAt(s.b, id, s.b.fate[id].at);
    assert DeskOk(s.b.fate, q, s.b.desk[q]);
  }

  lemma TrackSettle(s: State, p: Qid, q: Qid)
    requires Inv(s) && Can(s, Other(Settle(p))) && q in s.bar.promise
    ensures OnTrack(Made(s.b, Settle(p)), s.bar, q)
  {
    assert OnTrack(s.b, s.bar, q);
    if s.bar.promise[q] in s.b.fate && s.b.fate[s.bar.promise[q]].at.Active? {
      PromiseAtDesk(s, q);
    }
    hide JobBoard.Inv, Tally, Fixed;
  }

  lemma TrackAct(s: State, m: Move, q: Qid)
    requires Inv(s) && Can(s, Other(m)) && q in s.bar.promise && (m.FreeAgain? || m.Hand? || m.Finish?)
    ensures OnTrack(Made(s.b, m), s.bar, q)
  {
    assert May(s.b, m) && m.q in s.b.desk;
    if m.Finish? {
      TrackFinish(s, m.q, q);
    } else {
      NotHanded(s, m.q, q);
      assert OnTrack(s.b, s.bar, q);
      hide Inv, Can;
    }
  }

  /** A function with a done queue is not a promise, and not at the desk of one being seen to. */
  lemma NotHanded(s: State, p: Qid, q: Qid)
    requires Inv(s) && q in s.bar.promise && p in s.b.desk && |s.b.desk[p].act| == 1 && s.b.desk[p].act[0].done.Some?
    ensures s.b.desk[p].act[0].id != s.bar.promise[q] && (s.b.fate[s.bar.promise[q]].at.Active? ==> p != q)
  {
    assert OnTrack(s.b, s.bar, q);
    ActFacts(s.b, p);
    if s.b.fate[s.bar.promise[q]].at.Active? {
      PromiseAtDesk(s, q);
    }
    hide Inv, Has;
  }

  lemma TrackFinish(s: State, p: Qid, q: Qid)
    requires Inv(s) && May(s.b, Finish(p)) && q in s.bar.promise
    ensures OnTrack(Made(s.b, Finish(p)), s.bar, q)
  {
    assert OnTrack(s.b, s.bar, q);
    ActFacts(s.b, p);
    if s.b.fate[s.bar.promise[q]].at.Active? {
      PromiseAtDesk(s, q);
    }
    hide Inv, Has;
  }

  lemma TrackMove(s: State, m: Move, q: Qid)
    requires Inv(s) && Can(s, Other(m)) && q in s.bar.promise
    ensures OnTrack(Made(s.b, m), s.bar, q)
  {
    assert OnTrack(s.b, s.bar, q);
    match m
    case Rest =>
    case Open(_) => assert q in s.b.desk;
    case Carry(_, _) => TrackCarried(s, m, q);
    case Seat(_, _) => TrackCarried(s, m, q);
    case TurnAway(_) => TrackCarried(s, m, q);
    case Start(p, live) => TrackStart(s, p, live, q);
    case Settle(p) => TrackSettle(s, p, q);
    case _ => TrackAct(s, m, q);
  }

  lemma FatesStay(b: Board, m: Move)
    requires May(b, m)
    ensures b.fate.Keys <= Made(b, m).fate.Keys && b.desk.Keys <= Made(b, m).desk.Keys
  {
  }

  lemma InvMove(s: State, m: Move)
    requires Inv(s) && Can(s, Other(m))
    ensures Inv(Do(s, Other(m)))
  {
    JobBoard.Kept(s.b, m);
    forall q | q in Made(s.b, m).desk ensures Ordered(s.bar, q, Made(s.b, m).desk[q]) {
      OrderedMove(s, m, q);
    }
    forall q | q in s.bar.promise ensures OnTrack(Made(s.b, m), s.bar, q) {
      TrackMove(s, m, q);
    }
    FatesStay(s.b, m);
    hide JobBoard.Inv, Tally, Ordered, OnTrack;
  }

  lemma TrackPost(s: State, c: CallId, p: Qid, id: JobId, q: Qid)
    requires Inv(s) && Can(s, Post(c, p, id)) && (q == p || q in s.bar.promise)
    ensures OnTrack(Do(s, Post(c, p, id)).b, Do(s, Post(c, p, id)).bar, q)
  {
    if q != p {
      assert OnTrack(s.b, s.bar, q);
    }
    hide Inv;
  }

  lemma FixedPost(s: State, c: CallId, p: Qid, id: JobId)
    requires Inv(s) && Can(s, Post(c, p, id))
    ensures Fixed(Do(s, Post(c, p, id)).b, Do(s, Post(c, p, id)).bar)
  {
    forall q | q in s.bar.promise ensures s.bar.promise[q] in s.b.fate {
      assert OnTrack(s.b, s.bar, q);
    }
    hide JobBoard.Inv, Tally, Ordered, OnTrack;
  }

  lemma TallyPost(s: State, c: CallId, p: Qid, id: JobId)
    requires Tally(s.bar) && Can(s, Post(c, p, id))
    ensures Tally(Do(s, Post(c, p, id)).bar)
  {
  }

  lemma InvPost(s: State, c: CallId, p: Qid, id: JobId)
    requires Inv(s) && Can(s, Post(c, p, id))
    ensures Inv(Do(s, Post(c, p, id)))
  {
    var s' := Do(s, Post(c, p, id));
    hide JobBoard.Inv, Fixed, OnTrack, Tally, Line;
    JobBoard.Kept(s.b, Carry(c, Promise(id)));
    FixedPost(s, c, p, id);
    TallyPost(s, c, p, id);
    forall q | q in s'.bar.promise ensures OnTrack(s'.b, s'.bar, q) {
      TrackPost(s, c, p, id, q);
    }
    forall q | q in s'.b.desk ensures Ordered(s'.bar, q, s'.b.desk[q]) {
      assert Ordered(s.bar, q, s.b.desk[q]);
    }
  }

  lemma CountDownOrdered(s: State, p: Qid)
    requires Inv(s) && Can(s, CountDown(p))
    ensures |s.bar.before[p]| < |s.b.desk[p].seen|
  {
    var d, pre := s.b.desk[p], s.bar.before[p];
    assert Ordered(s.bar, p, d);
    assert Line(d)[|d.seen| - 1] == d.act[0];
    assert forall i :: 0 <= i < |pre| ==> pre[i] in pre;
  }

  lemma InvCountDown(s: State, p: Qid)
    requires Inv(s) && Can(s, CountDown(p))
    ensures Inv(Do(s, CountDown(p)))
  {
    var s' := Do(s, CountDown(p));
    CountDownOrdered(s, p);
    forall q | q in s.b.desk ensures Ordered(s'.bar, q, s.b.desk[q]) {
      assert Ordered(s.bar, q, s.b.desk[q]);
    }
    forall q | q in s.bar.promise ensures OnTrack(s.b, s'.bar, q) {
      assert OnTrack(s.b, s.bar, q);
    }
    assert Tally(s'.bar) by {
      var n, n' := s.bar.counted, s'.bar.counted;
      assert |n'| == |n| + 1;
      if n' != s.bar.pool {
        Smaller(n', s.bar.pool);
      }
      assert n != s.bar.pool;
    }
    hide JobBoard.Inv, Tally, Ordered, OnTrack;
  }

  lemma AnyOf(pool: set<Qid>) returns (q: Qid)
    requires pool != {}
    ensures q in pool
  {
    if forall q :: q !in pool {
      assert false;
    }
    q :| q in pool;
  }

  lemma Smaller(a: set<Qid>, b: set<Qid>)
    requires a <= b && a != b
    ensures |a| < |b|
  {
    assert b == a + (b - a);
  }

  lemma Preserved(s: State, a: Action)
    requires Inv(s) && Can(s, a)
    ensures Inv(Do(s, a))
  {
    match a
    case Other(m) => InvMove(s, m);
    case Post(c, q, id) => InvPost(s, c, q, id);
    case CountDown(q) => InvCountDown(s, q);
  }
}

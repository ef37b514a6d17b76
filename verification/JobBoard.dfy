/**
 What queueing a function promises, without threads: functions wait at desks, are
 started in turn, and end after one run, or after one more on the done queue, or
 after one more that only frees.
 */
module JobBoard {
  import opened Common

  type Qid = int
  type CallId = int
  type JobId = int

  /** A queued function: `again` is its run on the done queue, after the first one; `waiter`: the call that waits for it. */
  datatype Job = Job(id: JobId, again: bool, done: Option<Qid>, waiter: Option<CallId>)

  datatype Round = First | OnDone | FreeOnly

  /** A function was invoked on a queue; `live`: not with the free-only object. */
  datatype Event = Event(id: JobId, on: Qid, live: bool, round: Round)

  /** What became of a function. */
  datatype Fate = Fate(done: Option<Qid>, at: FateAt)

  datatype FateAt =
    | Calling(c: CallId)                         // in a call that has not linked it in
    | Refused
    | Queued(on: Qid)
    | Active(on: Qid, live: bool)
    | Passing(first: Qid, c: CallId)             // ran, and its done queue was found
    | QueuedAgain(first: Qid, on: Qid)
    | ActiveAgain(first: Qid, on: Qid, live: bool)
    | ActiveFreed(first: Qid)                    // ran, its done queue was gone, runs free only
    | Ended(first: Qid, live: bool)
    | EndedAgain(first: Qid, on: Qid, live: bool)
    | EndedFreed(first: Qid)

  /** One queue: started so far, the one being seen to, those waiting, and whether user code is in a first run. */
  datatype Desk = Desk(seen: seq<Job>, act: seq<Job>, wait: seq<Job>, live: Option<bool>)

  datatype Board = Board(desk: map<Qid, Desk>, carrier: map<CallId, Job>, fate: map<JobId, Fate>, log: seq<Event>)

  // ---- How fates change ----------------------------------------------------------------

  function Moved(fate: map<JobId, Fate>, id: JobId, at: FateAt): map<JobId, Fate> {
    if id in fate then fate[id := fate[id].(at := at)] else fate
  }

  function SeatFate(f: FateAt, q: Qid): FateAt {
    if f.Passing? then QueuedAgain(f.first, q) else Queued(q)
  }

  function StartFate(f: FateAt, live: bool): FateAt {
    match f
    case Queued(on) => Active(on, live)
    case QueuedAgain(first, on) => ActiveAgain(first, on, live)
    case _ => f
  }

  function EndFate(f: FateAt): FateAt {
    match f
    case Active(on, live) => Ended(on, live)
    case ActiveAgain(first, on, live) => EndedAgain(first, on, live)
    case ActiveFreed(first) => EndedFreed(first)
    case _ => f
  }

  function AtOf(fate: map<JobId, Fate>, id: JobId): FateAt {
    if id in fate then fate[id].at else Refused
  }

  function StartEvent(job: Job, q: Qid, live: bool): Event {
    Event(job.id, q, live, if job.again then OnDone else First)
  }

  // ---- Moves -----------------------------------------------------------------------------

  datatype Move =
    | Rest
    | Open(q: Qid)
    | Carry(c: CallId, job: Job)
    | Seat(c: CallId, q: Qid)
    | TurnAway(c: CallId)
    | Start(q: Qid, live: bool)
    | Settle(q: Qid)                     // user code returned, nothing more to run
    | FreeAgain(q: Qid)
    | Hand(q: Qid, c: CallId)
    | Finish(q: Qid)

  predicate May(b: Board, m: Move) {
    match m
    case Rest => true
    case Open(q) => q !in b.desk
    case Carry(c, job) => c !in b.carrier && job.id !in b.fate && !job.again
    case Seat(c, q) => c in b.carrier && q in b.desk && (b.carrier[c].again ==> BoundFor(b, b.carrier[c].id, q))
    case TurnAway(c) => c in b.carrier && !b.carrier[c].again
    case Start(q, live) => q in b.desk && b.desk[q].act == [] && b.desk[q].wait != []
    case Settle(q) => q in b.desk && |b.desk[q].act| == 1 && (b.desk[q].live == Some(true) ==> b.desk[q].act[0].done.None?)
    case FreeAgain(q) => q in b.desk && b.desk[q].live == Some(true) && |b.desk[q].act| == 1 && b.desk[q].act[0].done.Some?
    case Hand(q, c) => q in b.desk && b.desk[q].live == Some(true) && |b.desk[q].act| == 1 && b.desk[q].act[0].done.Some? && c !in b.carrier
    case Finish(q) => q in b.desk && |b.desk[q].act| == 1 && b.desk[q].live.None?
  }

  predicate BoundFor(b: Board, id: JobId, q: Qid) {
    id in b.fate && b.fate[id].done == Some(q)
  }

  function Made(b: Board, m: Move): Board
    requires May(b, m)
  {
    match m
    case Rest => b
    case Open(q) => b.(desk := b.desk[q := Desk([], [], [], None)])
    case Carry(c, job) => b.(carrier := b.carrier[c := job], fate := b.fate[job.id := Fate(job.done, Calling(c))])
    case Seat(c, q) =>
      var job := b.carrier[c];
      b.(carrier := b.carrier - {c}, desk := b.desk[q := b.desk[q].(wait := b.desk[q].wait + [job])],
         fate := Moved(b.fate, job.id, SeatFate(AtOf(b.fate, job.id), q)))
    case TurnAway(c) => b.(carrier := b.carrier - {c}, fate := Moved(b.fate, b.carrier[c].id, Refused))
    case Start(q, live) =>
      var d := b.desk[q];
      var job := d.wait[0];
      b.(desk := b.desk[q := Desk(d.seen + [job], [job], d.wait[1..], Some(live))],
         fate := Moved(b.fate, job.id, StartFate(AtOf(b.fate, job.id), live)), log := b.log + [StartEvent(job, q, live)])
    case Settle(q) => b.(desk := b.desk[q := b.desk[q].(live := None)])
    case FreeAgain(q) =>
      var job := b.desk[q].act[0];
      b.(desk := b.desk[q := b.desk[q].(live := None)], fate := Moved(b.fate, job.id, ActiveFreed(q)),
         log := b.log + [Event(job.id, q, false, FreeOnly)])
    case Hand(q, c) =>
      var job := b.desk[q].act[0];
      b.(desk := b.desk[q := b.desk[q].(act := [], live := None)], carrier := b.carrier[c := Job(job.id, true, None, None)],
         fate := Moved(b.fate, job.id, Passing(q, c)))
    case Finish(q) =>
      var job := b.desk[q].act[0];
      b.(desk := b.desk[q := b.desk[q].(act := [])], fate := Moved(b.fate, job.id, EndFate(AtOf(b.fate, job.id))))
  }

  // ---- What the log says of one function, and of one queue --------------------------------

  /** The runs of one function, in order. */
  function Of(log: seq<Event>, id: JobId): seq<Event> {
    if log == [] then []
    else
      var e := log[|log| - 1];
      if e.id == id then Of(log[..|log| - 1], id) + [e] else Of(log[..|log| - 1], id)
  }

  /** What a queue started, in order; runs that only free are not starts. */
  function StartedOn(log: seq<Event>, q: Qid): seq<(JobId, bool)> {
    if log == [] then []
    else
      var e := log[|log| - 1];
      if e.on == q && e.round != FreeOnly then StartedOn(log[..|log| - 1], q) + [(e.id, e.round == OnDone)] else StartedOn(log[..|log| - 1], q)
  }

  function Names(s: seq<Job>): seq<(JobId, bool)> {
    seq(|s|, i requires 0 <= i < |s| => (s[i].id, s[i].again))
  }

  lemma OfPush(log: seq<Event>, e: Event, id: JobId)
    ensures Of(log + [e], id) == if e.id == id then Of(log, id) + [e] else Of(log, id)
  {
    assert (log + [e])[..|log|] == log;
  }

  lemma StartedPush(log: seq<Event>, e: Event, q: Qid)
    ensures StartedOn(log + [e], q) ==
      if e.on == q && e.round != FreeOnly then StartedOn(log, q) + [(e.id, e.round == OnDone)] else StartedOn(log, q)
  {
    assert (log + [e])[..|log|] == log;
  }

  // ---- The invariant ------------------------------------------------------------------------

  /** The runs a function must have behind it. */
  function Trace(id: JobId, f: FateAt): seq<Event> {
    match f
    case Calling(_) => []
    case Refused => []
    case Queued(_) => []
    case Active(on, live) => [Event(id, on, live, First)]
    case Ended(first, live) => [Event(id, first, live, First)]
    case Passing(first, _) => [Event(id, first, true, First)]
    case QueuedAgain(first, _) => [Event(id, first, true, First)]
    case ActiveAgain(first, on, live) => [Event(id, first, true, First), Event(id, on, live, OnDone)]
    case EndedAgain(first, on, live) => [Event(id, first, true, First), Event(id, on, live, OnDone)]
    case ActiveFreed(first) => [Event(id, first, true, First), Event(id, first, false, FreeOnly)]
    case EndedFreed(first) => [Event(id, first, true, First), Event(id, first, false, FreeOnly)]
  }

  predicate Legit(f: Fate) {
    match f.at
    case Passing(_, _) => f.done.Some?
    case QueuedAgain(_, on) => f.done == Some(on)
    case ActiveAgain(_, on, _) => f.done == Some(on)
    case EndedAgain(_, on, _) => f.done == Some(on)
    case ActiveFreed(_) => f.done.Some?
    case EndedFreed(_) => f.done.Some?
    case Ended(_, live) => f.done.None? || !live
    case _ => true
  }

  /** A function and its fate agree on where it is to be done. */
  predicate SameJob(job: Job, f: Fate) {
    if job.again then job.done.None? else job.done == f.done
  }

  predicate WaitsAt(f: Fate, job: Job, q: Qid) {
    SameJob(job, f) && if job.again then f.at.QueuedAgain? && f.at.on == q else f.at == Queued(q)
  }

  predicate ActsAt(f: Fate, job: Job, q: Qid, live: Option<bool>) {
    && SameJob(job, f)
    && (if job.again then f.at.ActiveAgain? && f.at.on == q else (f.at.Active? && f.at.on == q) || f.at == ActiveFreed(q))
    && (live.Some? ==> !f.at.ActiveFreed? && f.at.live == live.value)
    && (live.None? && f.at.Active? ==> !f.at.live || f.done.None?)
  }

  predicate DeskOk(fate: map<JobId, Fate>, q: Qid, d: Desk) {
    && |d.act| <= 1 && (d.live.Some? ==> |d.act| == 1)
    && (forall j :: j in d.act ==> j.id in fate && ActsAt(fate[j.id], j, q, d.live))
    && (forall j :: j in d.wait ==> j.id in fate && WaitsAt(fate[j.id], j, q))
    && (forall i, k :: 0 <= i < k < |d.wait| ==> d.wait[i].id != d.wait[k].id)
  }

  ghost predicate Desks(b: Board) {
    forall q :: q in b.desk ==> DeskOk(b.fate, q, b.desk[q])
  }

  predicate CarriedBy(f: Fate, job: Job, c: CallId) {
    SameJob(job, f) && if job.again then f.at.Passing? && f.at.c == c else f.at == Calling(c)
  }

  ghost predicate Carriers(b: Board) {
    forall c :: c in b.carrier ==> b.carrier[c].id in b.fate && CarriedBy(b.fate[b.carrier[c].id], b.carrier[c], c)
  }

  predicate Has(s: seq<Job>, id: JobId) {
    exists i :: 0 <= i < |s| && s[i].id == id
  }

  /** A function that has not ended is where its fate says. */
  ghost predicate FoundAt(b: Board, id: JobId, f: FateAt) {
    match f
    case Calling(c) => c in b.carrier && b.carrier[c].id == id
    case Passing(_, c) => c in b.carrier && b.carrier[c].id == id
    case Queued(on) => on in b.desk && Has(b.desk[on].wait, id)
    case QueuedAgain(_, on) => on in b.desk && Has(b.desk[on].wait, id)
    case Active(on, _) => on in b.desk && Has(b.desk[on].act, id)
    case ActiveAgain(_, on, _) => on in b.desk && Has(b.desk[on].act, id)
    case ActiveFreed(first) => first in b.desk && Has(b.desk[first].act, id)
    case _ => true
  }

  ghost predicate Found(b: Board) {
    forall id :: id in b.fate ==> FoundAt(b, id, b.fate[id].at)
  }

  ghost predicate Logged(b: Board) {
    && (forall id :: id in b.fate ==> Of(b.log, id) == Trace(id, b.fate[id].at) && Legit(b.fate[id]))
    && (forall id :: id !in b.fate ==> Of(b.log, id) == [])
  }

  ghost predicate InTurn(b: Board) {
    && (forall q :: q in b.desk ==> StartedOn(b.log, q) == Names(b.desk[q].seen))
    && (forall q :: q !in b.desk ==> StartedOn(b.log, q) == [])
  }

  ghost predicate Inv(b: Board) {
    Desks(b) && Carriers(b) && Found(b) && Logged(b) && InTurn(b)
  }

  // ---- Every move keeps it ---------------------------------------------------------------------

  /** Desks that do not know a function do not notice its fate. */
  lemma DeskFrame(fate: map<JobId, Fate>, id: JobId, f: Fate, q: Qid, d: Desk)
    requires DeskOk(fate, q, d) && !Has(d.act, id) && !Has(d.wait, id)
    ensures DeskOk(fate[id := f], q, d)
  {
    forall j | j in d.act || j in d.wait ensures j.id != id {
      if j in d.act {
        var i :| 0 <= i < |d.act| && d.act[i] == j;
      } else {
        var i :| 0 <= i < |d.wait| && d.wait[i] == j;
      }
    }
  }

  /** A desk knows only functions whose fate names it. */
  lemma KnownBy(fate: map<JobId, Fate>, id: JobId, q: Qid, d: Desk)
    requires DeskOk(fate, q, d) && id in fate
    ensures Has(d.wait, id) ==> (fate[id].at.Queued? || fate[id].at.QueuedAgain?) && fate[id].at.on == q
    ensures Has(d.act, id) ==> ((fate[id].at.Active? || fate[id].at.ActiveAgain?) && fate[id].at.on == q) || fate[id].at == ActiveFreed(q)
  {
    if Has(d.wait, id) {
      var i :| 0 <= i < |d.wait| && d.wait[i].id == id;
      assert d.wait[i] in d.wait;
    }
    if Has(d.act, id) {
      var i :| 0 <= i < |d.act| && d.act[i].id == id;
      assert d.act[i] in d.act;
    }
  }

  lemma UnknownBy(fate: map<JobId, Fate>, id: JobId, q: Qid, d: Desk)
    requires DeskOk(fate, q, d) && id !in fate
    ensures !Has(d.act, id) && !Has(d.wait, id)
  {
    assert forall i :: 0 <= i < |d.wait| ==> d.wait[i] in d.wait;
    assert forall i :: 0 <= i < |d.act| ==> d.act[i] in d.act;
  }

  lemma DesksCarry(b: Board, c: CallId, job: Job)
    requires Desks(b) && May(b, Carry(c, job))
    ensures Desks(Made(b, Carry(c, job)))
  {
    var b' := Made(b, Carry(c, job));
    forall q | q in b'.desk ensures DeskOk(b'.fate, q, b'.desk[q]) {
      UnknownBy(b.fate, job.id, q, b.desk[q]);
      DeskFrame(b.fate, job.id, b'.fate[job.id], q, b.desk[q]);
    }
  }

  lemma SeatDesk(fate: map<JobId, Fate>, q: Qid, d: Desk, job: Job, f: Fate)
    requires DeskOk(fate, q, d) && !Has(d.act, job.id) && !Has(d.wait, job.id) && WaitsAt(f, job, q)
    ensures DeskOk(fate[job.id := f], q, d.(wait := d.wait + [job]))
  {
    DeskFrame(fate, job.id, f, q, d);
    var w := d.wait + [job];
    forall i, k | 0 <= i < k < |w| ensures w[i].id != w[k].id {
      if k == |d.wait| {
        assert w[i] == d.wait[i];
      }
    }
  }

  lemma DesksSeat(b: Board, c: CallId, q: Qid)
    requires Desks(b) && Carriers(b) && May(b, Seat(c, q))
    ensures Desks(Made(b, Seat(c, q)))
  {
    var b' := Made(b, Seat(c, q));
    var job := b.carrier[c];
    assert CarriedBy(b.fate[job.id], job, c);
    forall p | p in b'.desk ensures DeskOk(b'.fate, p, b'.desk[p]) {
      KnownBy(b.fate, job.id, p, b.desk[p]);
      if p == q {
        SeatDesk(b.fate, q, b.desk[q], job, b'.fate[job.id]);
      } else {
        DeskFrame(b.fate, job.id, b'.fate[job.id], p, b.desk[p]);
      }
    }
  }

  lemma DesksTurnAway(b: Board, c: CallId)
    requires Desks(b) && Carriers(b) && May(b, TurnAway(c))
    ensures Desks(Made(b, TurnAway(c)))
  {
    var b' := Made(b, TurnAway(c));
    var job := b.carrier[c];
    assert CarriedBy(b.fate[job.id], job, c);
    forall p | p in b'.desk ensures DeskOk(b'.fate, p, b'.desk[p]) {
      KnownBy(b.fate, job.id, p, b.desk[p]);
      DeskFrame(b.fate, job.id, b'.fate[job.id], p, b.desk[p]);
    }
  }

  lemma StartDesk(fate: map<JobId, Fate>, q: Qid, d: Desk, live: bool, f: Fate)
    requires DeskOk(fate, q, d) && d.act == [] && d.wait != [] && ActsAt(f, d.wait[0], q, Some(live))
    ensures DeskOk(fate[d.wait[0].id := f], q, Desk(d.seen + [d.wait[0]], [d.wait[0]], d.wait[1..], Some(live)))
  {
    var rest := d.(wait := d.wait[1..], live := None);
    assert forall j :: j in rest.wait ==> j in d.wait;
    assert DeskOk(fate, q, rest);
    assert forall i :: 0 <= i < |rest.wait| ==> rest.wait[i] == d.wait[i + 1];
    DeskFrame(fate, d.wait[0].id, f, q, rest);
  }

  lemma DesksStart(b: Board, q: Qid, live: bool)
    requires Desks(b) && May(b, Start(q, live))
    ensures Desks(Made(b, Start(q, live)))
  {
    var b' := Made(b, Start(q, live));
    var job := b.desk[q].wait[0];
    assert DeskOk(b.fate, q, b.desk[q]);
    assert job in b.desk[q].wait;
    assert WaitsAt(b.fate[job.id], job, q);
    forall p | p in b'.desk ensures DeskOk(b'.fate, p, b'.desk[p]) {
      KnownBy(b.fate, job.id, p, b.desk[p]);
      if p == q {
        StartDesk(b.fate, q, b.desk[q], live, b'.fate[job.id]);
      } else {
        DeskFrame(b.fate, job.id, b'.fate[job.id], p, b.desk[p]);
      }
    }
  }

  /** The function being seen to, as the invariant knows it. */
  lemma ActFacts(b: Board, q: Qid)
    requires Desks(b) && q in b.desk && |b.desk[q].act| == 1
    ensures var job := b.desk[q].act[0];
      && job.id in b.fate && ActsAt(b.fate[job.id], job, q, b.desk[q].live)
      && !Has(b.desk[q].wait, job.id)
      && forall p :: p in b.desk && p != q ==> !Has(b.desk[p].act, job.id) && !Has(b.desk[p].wait, job.id)
  {
    var job := b.desk[q].act[0];
    assert DeskOk(b.fate, q, b.desk[q]);
    assert job in b.desk[q].act;
    KnownBy(b.fate, job.id, q, b.desk[q]);
    forall p | p in b.desk && p != q ensures !Has(b.desk[p].act, job.id) && !Has(b.desk[p].wait, job.id) {
      KnownBy(b.fate, job.id, p, b.desk[p]);
    }
  }

  lemma DesksAct(b: Board, m: Move)
    requires Desks(b) && (m.Settle? || m.FreeAgain? || m.Hand? || m.Finish?) && May(b, m)
    ensures Desks(Made(b, m))
  {
    var b' := Made(b, m);
    var q := m.q;
    var job := b.desk[q].act[0];
    ActFacts(b, q);
    forall p | p in b'.desk ensures DeskOk(b'.fate, p, b'.desk[p]) {
      assert DeskOk(b.fate, p, b.desk[p]);
      if p != q {
        DeskFrame(b.fate, job.id, b'.fate[job.id], p, b.desk[p]);
        assert b.fate[job.id := b'.fate[job.id]] == b'.fate;
      } else {
        ActDesk(b.fate, q, b.desk[q], b'.fate[job.id], b'.desk[q]);
        assert b.fate[job.id := b'.fate[job.id]] == b'.fate;
      }
    }
  }

  lemma ActDesk(fate: map<JobId, Fate>, q: Qid, d: Desk, f: Fate, d': Desk)
    requires DeskOk(fate, q, d) && |d.act| == 1 && !Has(d.wait, d.act[0].id)
    requires d'.wait == d.wait && d'.live.None? && (d'.act == [] || (d'.act == d.act && ActsAt(f, d.act[0], q, None)))
    ensures DeskOk(fate[d.act[0].id := f], q, d')
  {
    DeskFrame(fate, d.act[0].id, f, q, d.(act := [], live := None));
  }

  lemma DesksKept(b: Board, m: Move)
    requires Desks(b) && Carriers(b) && May(b, m)
    ensures Desks(Made(b, m))
  {
    match m
    case Rest =>
    case Open(q) =>
    case Carry(c, job) => DesksCarry(b, c, job);
    case Seat(c, q) => DesksSeat(b, c, q);
    case TurnAway(c) => DesksTurnAway(b, c);
    case Start(q, live) => DesksStart(b, q, live);
    case _ => DesksAct(b, m);
  }

  // ---- Carriers

  /** A function at a desk is in no call. */
  lemma NotCarried(b: Board, id: JobId)
    requires Carriers(b) && id in b.fate && !b.fate[id].at.Calling? && !b.fate[id].at.Passing?
    ensures forall c :: c in b.carrier ==> b.carrier[c].id != id
  {
    forall c | c in b.carrier ensures b.carrier[c].id != id {
      assert CarriedBy(b.fate[b.carrier[c].id], b.carrier[c], c);
    }
  }

  lemma CarriersKept(b: Board, m: Move)
    requires Desks(b) && Carriers(b) && May(b, m)
    ensures Carriers(Made(b, m))
  {
    match m
    case Seat(c, q) => CarriersDrop(b, c);
    case TurnAway(c) => CarriersDrop(b, c);
    case Start(q, live) =>
      var job := b.desk[q].wait[0];
      assert DeskOk(b.fate, q, b.desk[q]) && job in b.desk[q].wait;
      NotCarried(b, job.id);
    case FreeAgain(q) =>
      ActFacts(b, q);
      NotCarried(b, b.desk[q].act[0].id);
    case Hand(q, c) =>
      ActFacts(b, q);
      NotCarried(b, b.desk[q].act[0].id);
    case Finish(q) =>
      ActFacts(b, q);
      NotCarried(b, b.desk[q].act[0].id);
    case _ =>
  }

  lemma CarriersDrop(b: Board, c: CallId)
    requires Carriers(b) && c in b.carrier
    ensures forall d :: d in b.carrier && d != c ==> b.carrier[d].id != b.carrier[c].id
  {
    forall d | d in b.carrier && d != c ensures b.carrier[d].id != b.carrier[c].id {
      assert CarriedBy(b.fate[b.carrier[d].id], b.carrier[d], d);
      assert CarriedBy(b.fate[b.carrier[c].id], b.carrier[c], c);
    }
  }

  // ---- Nothing is lost

  lemma HasMore(s: seq<Job>, job: Job, id: JobId)
    ensures Has(s + [job], id) <==> Has(s, id) || job.id == id
  {
    var t := s + [job];
    if Has(s, id) {
      var i :| 0 <= i < |s| && s[i].id == id;
      assert t[i].id == id;
    }
    if job.id == id {
      assert t[|s|].id == id;
    }
  }

  lemma HasRest(s: seq<Job>, id: JobId)
    requires s != []
    ensures Has(s, id) ==> s[0].id == id || Has(s[1..], id)
  {
    if Has(s, id) && s[0].id != id {
      var i :| 0 <= i < |s| && s[i].id == id;
      assert s[1..][i - 1].id == id;
    }
  }

  lemma FoundKept(b: Board, m: Move)
    requires Inv(b) && May(b, m)
    ensures Found(Made(b, m))
  {
    var b' := Made(b, m);
    forall id | id in b'.fate ensures FoundAt(b', id, b'.fate[id].at) {
      FoundOne(b, m, id);
    }
  }

  lemma FoundCarried(b: Board, m: Move, id: JobId)
    requires Carriers(b) && Found(b) && May(b, m) && (m.Seat? || m.TurnAway? || m.Carry?) && id in Made(b, m).fate
    ensures FoundAt(Made(b, m), id, Made(b, m).fate[id].at)
  {
    if id in b.fate {
      assert FoundAt(b, id, b.fate[id].at);
    }
    if !m.Carry? {
      assert CarriedBy(b.fate[b.carrier[m.c].id], b.carrier[m.c], m.c);
    }
    if m.Seat? {
      HasMore(b.desk[m.q].wait, b.carrier[m.c], id);
    }
    hide Has;
  }

  /** What happens to the function at a desk does not hide another one. */
  lemma FoundElse(b: Board, b': Board, q: Qid, job: Job, id: JobId, f: FateAt)
    requires q in b.desk && b.desk[q].act == [job] && id != job.id && FoundAt(b, id, f)
    requires b'.desk.Keys == b.desk.Keys && (forall p :: p in b.desk && p != q ==> b'.desk[p] == b.desk[p]) && b'.desk[q].wait == b.desk[q].wait
    requires forall c :: c in b.carrier ==> c in b'.carrier && b'.carrier[c] == b.carrier[c]
    ensures FoundAt(b', id, f)
  {
    assert !Has(b.desk[q].act, id);
  }

  lemma FoundFinish(b: Board, q: Qid, id: JobId)
    requires Desks(b) && Found(b) && May(b, Finish(q)) && id in b.fate
    ensures FoundAt(Made(b, Finish(q)), id, Made(b, Finish(q)).fate[id].at)
  {
    assert FoundAt(b, id, b.fate[id].at);
    ActFacts(b, q);
    if id != b.desk[q].act[0].id {
      hide Desks, Found, Has, FoundAt;
      FoundElse(b, Made(b, Finish(q)), q, b.desk[q].act[0], id, b.fate[id].at);
    }
  }

  lemma FoundHand(b: Board, q: Qid, c: CallId, id: JobId)
    requires Desks(b) && Found(b) && May(b, Hand(q, c)) && id in b.fate
    ensures FoundAt(Made(b, Hand(q, c)), id, Made(b, Hand(q, c)).fate[id].at)
  {
    assert FoundAt(b, id, b.fate[id].at);
    ActFacts(b, q);
    if id != b.desk[q].act[0].id {
      hide Desks, Found, Has, FoundAt;
      FoundElse(b, Made(b, Hand(q, c)), q, b.desk[q].act[0], id, b.fate[id].at);
    }
  }

  lemma FoundFreeAgain(b: Board, m: Move, id: JobId)
    requires Desks(b) && Found(b) && May(b, m) && (m.FreeAgain? || m.Settle?) && id in b.fate
    ensures FoundAt(Made(b, m), id, Made(b, m).fate[id].at)
  {
    assert FoundAt(b, id, b.fate[id].at);
    assert Has(b.desk[m.q].act, b.desk[m.q].act[0].id);
    hide Has, Desks, Found, ActsAt;
    ActFacts(b, m.q);
  }

  lemma FoundOne(b: Board, m: Move, id: JobId)
    requires Inv(b) && May(b, m) && id in Made(b, m).fate
    ensures FoundAt(Made(b, m), id, Made(b, m).fate[id].at)
  {
    match m
    case Carry(_, _) => FoundCarried(b, m, id);
    case Seat(_, _) => FoundCarried(b, m, id);
    case TurnAway(_) => FoundCarried(b, m, id);
    case Start(q, live) => FoundStart(b, q, live, id);
    case Rest => assert FoundAt(b, id, b.fate[id].at);
    case Open(_) => assert FoundAt(b, id, b.fate[id].at);
    case Finish(q) => FoundFinish(b, q, id);
    case Hand(q, c) => FoundHand(b, q, c, id);
    case _ => FoundFreeAgain(b, m, id);
  }

  lemma FoundStart(b: Board, q: Qid, live: bool, id: JobId)
    requires Inv(b) && May(b, Start(q, live)) && id in b.fate
    ensures var b' := Made(b, Start(q, live)); id in b'.fate && FoundAt(b', id, b'.fate[id].at)
  {
    var b' := Made(b, Start(q, live));
    var job := b.desk[q].wait[0];
    assert FoundAt(b, id, b.fate[id].at);
    assert DeskOk(b.fate, q, b.desk[q]) && job in b.desk[q].wait;
    assert WaitsAt(b.fate[job.id], job, q);
    HasRest(b.desk[q].wait, id);
    assert b'.desk[q].act[0] == job;
  }

  // ---- The log

  ghost predicate LoggedAt(b: Board, id: JobId) {
    if id in b.fate then Of(b.log, id) == Trace(id, b.fate[id].at) && Legit(b.fate[id]) else Of(b.log, id) == []
  }

  lemma LoggedKept(b: Board, m: Move)
    requires Inv(b) && May(b, m)
    ensures Logged(Made(b, m))
  {
    var b' := Made(b, m);
    forall id ensures LoggedAt(b', id) {
      assert LoggedAt(b, id);
      LoggedOne(b, m, id);
    }
    hide Inv, Desks, Carriers, Found;
    forall id | id in b'.fate ensures Of(b'.log, id) == Trace(id, b'.fate[id].at) && Legit(b'.fate[id]) {
      assert LoggedAt(b', id);
    }
    forall id | id !in b'.fate ensures Of(b'.log, id) == [] {
      assert LoggedAt(b', id);
    }
  }

  lemma LoggedRun(log: seq<Event>, f: Fate, job: Job, q: Qid, live: bool)
    requires WaitsAt(f, job, q) && Of(log, job.id) == Trace(job.id, f.at) && Legit(f)
    ensures var f' := f.(at := StartFate(f.at, live));
      Of(log + [StartEvent(job, q, live)], job.id) == Trace(job.id, f'.at) && Legit(f')
  {
    OfPush(log, StartEvent(job, q, live), job.id);
    hide Of;
  }

  lemma LoggedStart(b: Board, q: Qid, live: bool, id: JobId)
    requires Desks(b) && LoggedAt(b, id) && May(b, Start(q, live))
    ensures LoggedAt(Made(b, Start(q, live)), id)
  {
    var job := b.desk[q].wait[0];
    assert DeskOk(b.fate, q, b.desk[q]) && job in b.desk[q].wait;
    if id == job.id {
      LoggedRun(b.log, b.fate[id], job, q, live);
    } else {
      OfPush(b.log, StartEvent(job, q, live), id);
    }
    hide Of, DeskOk, Desks, WaitsAt, Trace, Legit;
  }

  lemma LoggedFree(b: Board, q: Qid, id: JobId)
    requires Desks(b) && LoggedAt(b, id) && May(b, FreeAgain(q))
    ensures LoggedAt(Made(b, FreeAgain(q)), id)
  {
    ActFacts(b, q);
    OfPush(b.log, Event(b.desk[q].act[0].id, q, false, FreeOnly), id);
    hide Of, DeskOk, Has;
  }

  lemma LoggedFinish(b: Board, m: Move, id: JobId)
    requires Desks(b) && LoggedAt(b, id) && May(b, m) && (m.Finish? || m.Hand?)
    ensures LoggedAt(Made(b, m), id)
  {
    ActFacts(b, m.q);
    hide Of, DeskOk, Has;
  }

  lemma LoggedCarried(b: Board, m: Move, id: JobId)
    requires Carriers(b) && LoggedAt(b, id) && May(b, m) && (m.Seat? || m.TurnAway?)
    ensures LoggedAt(Made(b, m), id)
  {
    assert CarriedBy(b.fate[b.carrier[m.c].id], b.carrier[m.c], m.c);
    hide Of;
  }

  lemma LoggedOne(b: Board, m: Move, id: JobId)
    requires Inv(b) && LoggedAt(b, id) && May(b, m)
    ensures LoggedAt(Made(b, m), id)
  {
    hide Of, Desks, Carriers, Found, Logged, InTurn;
    match m
    case Seat(c, q) => LoggedCarried(b, m, id);
    case TurnAway(c) => LoggedCarried(b, m, id);
    case Start(q, live) => LoggedStart(b, q, live, id);
    case FreeAgain(q) => LoggedFree(b, q, id);
    case Hand(q, c) => LoggedFinish(b, m, id);
    case Finish(q) => LoggedFinish(b, m, id);
    case _ =>
  }

  lemma NamesPush(s: seq<Job>, job: Job)
    ensures Names(s + [job]) == Names(s) + [(job.id, job.again)]
  {
  }

  ghost predicate TurnAt(b: Board, q: Qid) {
    StartedOn(b.log, q) == if q in b.desk then Names(b.desk[q].seen) else []
  }

  lemma TurnStart(b: Board, q: Qid, live: bool, p: Qid)
    requires TurnAt(b, p) && May(b, Start(q, live))
    ensures TurnAt(Made(b, Start(q, live)), p)
  {
    StartedPush(b.log, StartEvent(b.desk[q].wait[0], q, live), p);
    NamesPush(b.desk[q].seen, b.desk[q].wait[0]);
    hide StartedOn, Names;
  }

  lemma TurnFree(b: Board, q: Qid, p: Qid)
    requires TurnAt(b, p) && May(b, FreeAgain(q))
    ensures TurnAt(Made(b, FreeAgain(q)), p)
  {
    StartedPush(b.log, Event(b.desk[q].act[0].id, q, false, FreeOnly), p);
    hide StartedOn, Names;
  }

  lemma TurnOne(b: Board, m: Move, p: Qid)
    requires TurnAt(b, p) && May(b, m)
    ensures TurnAt(Made(b, m), p)
  {
    assert Names([]) == [];
    hide StartedOn, Names;
    match m
    case Start(q, live) => TurnStart(b, q, live, p);
    case FreeAgain(q) => TurnFree(b, q, p);
    case _ =>
  }

  lemma InTurnKept(b: Board, m: Move)
    requires InTurn(b) && May(b, m)
    ensures InTurn(Made(b, m))
  {
    forall p ensures TurnAt(Made(b, m), p) {
      assert TurnAt(b, p);
      TurnOne(b, m, p);
    }
    hide Made, May;
    assert forall p :: TurnAt(Made(b, m), p) ==> StartedOn(Made(b, m).log, p) == if p in Made(b, m).desk then Names(Made(b, m).desk[p].seen) else [];
  }

  lemma Kept(b: Board, m: Move)
    requires Inv(b) && May(b, m)
    ensures Inv(Made(b, m))
  {
    DesksKept(b, m);
    CarriersKept(b, m);
    FoundKept(b, m);
    LoggedKept(b, m);
    InTurnKept(b, m);
  }

  lemma {:induction false} StartedIsLogged(log: seq<Event>, q: Qid, e: (JobId, bool))
    requires e in StartedOn(log, q)
    ensures exists i :: 0 <= i < |Of(log, e.0)| && Of(log, e.0)[i].on == q && Of(log, e.0)[i].round == if e.1 then OnDone else First
  {
    var last := log[|log| - 1];
    if last.on == q && last.round != FreeOnly && (last.id, last.round == OnDone) == e {
      assert Of(log, e.0)[|Of(log, e.0)| - 1] == last;
    } else {
      var rest := log[..|log| - 1];
      StartedIsLogged(rest, q, e);
      var i :| 0 <= i < |Of(rest, e.0)| && Of(rest, e.0)[i].on == q && Of(rest, e.0)[i].round == if e.1 then OnDone else First;
      assert Of(log, e.0)[i] == Of(rest, e.0)[i];
    }
  }
}

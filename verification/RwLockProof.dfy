/**
 What every interleaving of the reader/writer lock keeps: the meaning of the
 counter, exclusion, and that no wake-up is lost.
 */
module RwLockProof {
  import opened RwLock
  import opened RawLock

  // ---- The meaning of the word -------------------------------------------------

  /** Counted in `count` as one active or attempting locker. */
  predicate Active(p: Pc) {
    match p
    case ReadFailed => true
    case WriteFailed => true
    case WriteHeld => true
    case _ => ReadHolder(p)
  }

  /** Holds the lock for reading; a granted reader holds it before it knows. */
  predicate ReadHolder(p: Pc) {
    match p
    case ReadHeld => true
    case DowngradePending => true
    case ReadCheck(granted) => granted
    case ReadSleep(granted) => granted
    case _ => false
  }

  predicate Writer(p: Pc) {
    p == WriteFailed || p == WriteHeld
  }

  /** Queued and not holding the lock. */
  predicate Parked(p: Pc, kind: Kind) {
    match p
    case ReadCheck(granted) => kind == ForRead && !granted
    case ReadSleep(granted) => kind == ForRead && !granted
    case WriteQueued => kind == ForWrite
    case WriteSleep => kind == ForWrite
    case WriteAwake => kind == ForWrite
    case _ => false
  }

  ghost function ActiveThreads(pc: map<Tid, Pc>): set<Tid> {
    set t | t in pc && Active(pc[t])
  }

  ghost function WriterThreads(pc: map<Tid, Pc>): set<Tid> {
    set t | t in pc && Writer(pc[t])
  }

  /** Units of `count` that a waker has added for readers it has not told yet. */
  function Tokens(c: Section): int {
    match c
    case Undo(_) => 1
    case Grant(_, owned) => if owned then 0 else 1
    case Clear(_, woken, done) => woken - done
    case Pulse(_, woken, done) => woken - done - 1
    case _ => 0
  }

  /** How many waiters at the front of the list have been told already. */
  function Told(c: Section): nat {
    match c
    case Clear(_, _, done) => done
    case Pulse(_, _, done) => done + 1
    case _ => 0
  }

  /** How many waiters the section is going to unlink from the front. */
  function Leaving(c: Section): nat {
    match c
    case Clear(_, woken, _) => woken
    case Pulse(_, woken, _) => woken
    case _ => 0
  }

  /** `RWLOCK_WAITING_BIAS` is in the word. */
  predicate Biased(s: State) {
    match s.section
    case Enqueued(_, _, wasEmpty) => !wasEmpty
    case _ => Leaving(s.section) < |s.queue|
  }

  ghost function Actives(s: State): int {
    |ActiveThreads(s.pc)| + Tokens(s.section)
  }

  ghost function Biases(s: State): int {
    |WriterThreads(s.pc)| + (if Biased(s) then 1 else 0)
  }

  ghost predicate CountInv(s: State) {
    s.count == Actives(s) - Weight(Biases(s))
  }

  // ---- Queue and owner ---------------------------------------------------------

  predicate FailedAs(p: Pc, kind: Kind) {
    if kind == ForRead then p == ReadFailed else p == WriteFailed
  }

  predicate Listed(s: State, w: Waiter) {
    w.tid in s.pc &&
    (Parked(s.pc[w.tid], w.kind) ||
     (s.section.Enqueued? && s.section.owner == w.tid && s.section.kind == w.kind && FailedAs(s.pc[w.tid], w.kind)))
  }

  ghost predicate QueueInv(s: State) {
    && Told(s.section) <= Leaving(s.section) <= |s.queue|
    && (forall i :: Told(s.section) <= i < |s.queue| ==> Listed(s, s.queue[i]))
    && (forall i, j :: Told(s.section) <= i < j < |s.queue| ==> s.queue[i].tid != s.queue[j].tid)
  }

  /** Every thread that waits is in the list, so nobody is forgotten. */
  ghost predicate NobodyForgotten(s: State) {
    Told(s.section) <= |s.queue| &&
    forall t, k :: t in s.pc && Parked(s.pc[t], k) ==> Waiter(t, k) in s.queue[Told(s.section)..]
  }

  /** A reader that sleeps on although it was granted the lock has a pulse, or is about to get one. */
  ghost predicate PulseInv(s: State) {
    forall t :: t in s.pc && s.pc[t] == ReadSleep(true) ==>
      t in s.pulsed || (s.section.Pulse? && s.section.done < |s.queue| && s.queue[s.section.done].tid == t)
  }

  predicate WakerPc(p: Pc) {
    p == ReadCheck(false) || p == WriteQueued || p == Waking
  }

  ghost predicate OwnerInv(s: State) {
    && (forall t :: t in s.pc && (s.pc[t] == WriteQueued || s.pc[t] == Waking) ==> IsOwner(s, t))
    && (s.section.Free? ||
        (s.section.owner in s.pc &&
         var p := s.pc[s.section.owner];
         match s.section
         case Enqueued(o, k, e) => s.queue != [] && s.queue[|s.queue| - 1] == Waiter(o, k) && e == (|s.queue| == 1) && FailedAs(p, k)
         case Wake(_, m) =>
           && s.queue != []
           && (m == ReadOwned ==> p == DowngradePending)
           && (m == Readers ==> p == WriteQueued && Masked(s.local))
           && (m == Any ==> p == ReadCheck(false) || p == Waking)
         case TryGrant(_) => s.queue != [] && s.queue[0].kind == ForRead && WakerPc(p) && (p == WriteQueued ==> Masked(s.local))
         case Undo(_) => s.queue != [] && s.queue[0].kind == ForRead && WakerPc(p) && (p == WriteQueued ==> Masked(s.local))
         case Grant(_, owned) =>
           && s.queue != [] && s.queue[0].kind == ForRead
           && (if owned then p == DowngradePending else WakerPc(p) && (p == WriteQueued ==> Masked(s.local)))
         case Clear(_, w, d) => ClearInv(s, p, w)
         case Pulse(_, w, d) => d < w && ClearInv(s, p, w)
         case Reread(_) => p == WriteQueued
         case WriteTry(_) => p == WriteQueued
         case Leave(_) => p.ReadCheck? || p == WriteQueued || p == Waking || p == WriteHeld || p == DowngradePending))
  }

  ghost predicate ClearInv(s: State, p: Pc, w: nat) {
    && 1 <= w <= |s.queue|
    && (forall j :: 0 <= j < w ==> s.queue[j].kind == ForRead)
    && (w < |s.queue| ==> s.queue[w].kind == ForWrite)
    && (p.ReadCheck? || p == Waking || p == DowngradePending || (p == WriteQueued && Masked(s.local)))
  }

  // ---- Exclusion ---------------------------------------------------------------

  predicate Granting(c: Section) {
    match c
    case Grant(_, _) => true
    case Clear(_, w, d) => d < w
    case Pulse(_, w, d) => d + 1 < w
    case _ => false
  }

  ghost predicate Exclusive(s: State) {
    && (forall t, u :: t in s.pc && u in s.pc && s.pc[t] == WriteHeld && (s.pc[u] == WriteHeld || ReadHolder(s.pc[u])) ==> t == u)
    && (Granting(s.section) ==> forall t :: t in s.pc ==> s.pc[t] != WriteHeld)
  }

  // ---- No lost wake-up ---------------------------------------------------------

  /** The owner of `wait_lock` is itself going to look after the head of the list. */
  predicate Responsible(s: State) {
    match s.section
    case Wake(_, mode) => mode == Any
    case TryGrant(_) => true
    case Reread(_) => true
    case WriteTry(_) => !Masked(s.local)
    case _ => false
  }

  /** The waiter that will be at the head is a writer that is about to look at the lock again. */
  predicate HeadAwake(s: State) {
    var n := Leaving(s.section);
    n < |s.queue| && s.queue[n].kind == ForWrite && s.queue[n].tid in s.pc &&
    (s.queue[n].tid in s.pulsed || s.pc[s.queue[n].tid] == WriteAwake)
  }

  ghost predicate WakeComing(s: State) {
    exists t :: t in s.pc && s.pc[t] == WakePending
  }

  ghost predicate Covered(s: State) {
    || |s.queue| <= Leaving(s.section)
    || Actives(s) > 0
    || WakeComing(s)
    || HeadAwake(s)
    || Responsible(s)
  }

  ghost predicate Inv(s: State) {
    && |s.pc| < THREAD_LIMIT
    && QueueInv(s)
    && OwnerInv(s)
    && CountInv(s)
    && NobodyForgotten(s)
    && PulseInv(s)
    && Exclusive(s)
    && Covered(s)
  }

  // ---- Counting ----------------------------------------------------------------

  lemma Resized(a: set<Tid>, b: set<Tid>, t: Tid)
    requires a - {t} == b - {t}
    ensures |b| == |a| - (if t in a then 1 else 0) + (if t in b then 1 else 0)
  {
    assert a == if t in a then (a - {t}) + {t} else a - {t};
    assert b == if t in b then (b - {t}) + {t} else b - {t};
  }

  lemma Moved(pc: map<Tid, Pc>, t: Tid, p: Pc)
    requires t in pc
    ensures |ActiveThreads(pc[t := p])| == |ActiveThreads(pc)| - (if Active(pc[t]) then 1 else 0) + (if Active(p) then 1 else 0)
    ensures |WriterThreads(pc[t := p])| == |WriterThreads(pc)| - (if Writer(pc[t]) then 1 else 0) + (if Writer(p) then 1 else 0)
    ensures |pc[t := p]| == |pc|
  {
    Resized(ActiveThreads(pc), ActiveThreads(pc[t := p]), t);
    Resized(WriterThreads(pc), WriterThreads(pc[t := p]), t);
    assert pc[t := p].Keys == pc.Keys;
  }

  ghost function Tids(q: seq<Waiter>): set<Tid> {
    set w | w in q :: w.tid
  }

  lemma {:induction false} TidsCount(q: seq<Waiter>)
    requires forall i, j :: 0 <= i < j < |q| ==> q[i].tid != q[j].tid
    ensures |Tids(q)| == |q|
  {
    if q != [] {
      TidsCount(q[1..]);
      assert Tids(q) == Tids(q[1..]) + {q[0].tid};
      assert q[0].tid !in Tids(q[1..]);
    }
  }

  lemma TokensFit(s: State)
    requires QueueInv(s) && OwnerInv(s)
    ensures 0 <= Tokens(s.section) && Told(s.section) + Tokens(s.section) <= |s.queue|
  {
  }

  lemma WaitersIdle(s: State, lo: nat, hi: nat)
    requires QueueInv(s) && Told(s.section) <= lo <= hi <= |s.queue|
    requires !s.section.Enqueued?
    ensures Tids(s.queue[lo..hi]) <= s.pc.Keys
    ensures ActiveThreads(s.pc) !! Tids(s.queue[lo..hi])
  {
    forall w | w in s.queue[lo..hi] ensures w.tid in s.pc && !Active(s.pc[w.tid]) {
      var i :| lo <= i < hi && s.queue[i] == w;
      assert Listed(s, w);
    }
  }

  /** Each token stands for a queued thread that is not active. */
  lemma TokensBound(s: State, lo: nat, hi: nat)
    requires QueueInv(s) && Told(s.section) <= lo <= hi <= |s.queue| && !s.section.Enqueued?
    ensures |ActiveThreads(s.pc)| + (hi - lo) <= |s.pc|
  {
    var part := s.queue[lo..hi];
    WaitersIdle(s, lo, hi);
    TidsCount(part);
    hide QueueInv, Tids;
    assert ActiveThreads(s.pc) <= s.pc.Keys;
    hide ActiveThreads;
    assert |ActiveThreads(s.pc) + Tids(part)| == |ActiveThreads(s.pc)| + |Tids(part)|;
    Subset(ActiveThreads(s.pc) + Tids(part), s.pc.Keys);
  }

  lemma Bounds(s: State)
    requires |s.pc| < THREAD_LIMIT && QueueInv(s) && OwnerInv(s)
    ensures 0 <= Tokens(s.section) && 0 <= Actives(s) <= |s.pc|
    ensures 0 <= Biases(s) <= |s.pc| + 1
  {
    TokensFit(s);
    var n, told := Tokens(s.section), Told(s.section);
    hide OwnerInv;
    if n > 0 {
      TokensBound(s, told, told + n);
    }
    hide QueueInv;
    Subset(ActiveThreads(s.pc), s.pc.Keys);
    Subset(WriterThreads(s.pc), s.pc.Keys);
  }

  lemma Subset(a: set<Tid>, b: set<Tid>)
    requires a <= b
    ensures |a| <= |b|
  {
    assert b == a + (b - a);
  }

  /** Active holders and biases can be read back from the word. */
  lemma Decode(s: State)
    requires |s.pc| < THREAD_LIMIT && QueueInv(s) && OwnerInv(s) && CountInv(s)
    ensures 0 <= Actives(s) <= |s.pc| && 0 <= Biases(s)
    ensures s.count >= 0 <==> Biases(s) == 0
    ensures s.count >= WAITING_BIAS <==> Biases(s) <= 1
    ensures s.count == WAITING_BIAS <==> Biases(s) == 1 && Actives(s) == 0
    ensures s.count == WRITE_BIAS <==> Biases(s) == 1 && Actives(s) == 1
    ensures s.count == 0 <==> Biases(s) == 0 && Actives(s) == 0
    ensures Masked(s.count) <==> Actives(s) != 0
  {
    Bounds(s);
  }

  // ---- Preservation ------------------------------------------------------------

  /** Only thread `t` moves, and it was not and is not waiting: the list stays in order. */
  lemma QueueFrame(s: State, s': State, t: Tid, p: Pc)
    requires QueueInv(s) && NobodyForgotten(s) && t in s.pc
    requires s'.queue == s.queue && s'.section == s.section && s'.pc == s.pc[t := p]
    requires forall k :: Parked(s.pc[t], k) == Parked(p, k)
    requires s.section.Enqueued? ==> s.section.owner != t
    ensures QueueInv(s') && NobodyForgotten(s')
  {
    forall i | Told(s.section) <= i < |s.queue| ensures Listed(s', s.queue[i]) {
      assert Listed(s, s.queue[i]);
    }
    forall u, k | u in s'.pc && Parked(s'.pc[u], k) ensures Waiter(u, k) in s.queue[Told(s.section)..] {
      assert u in s.pc && Parked(s.pc[u], k);
    }
  }

  /** A thread outside the section moves between states the section does not look at. */
  lemma OwnerFrame(s: State, s': State, t: Tid, p: Pc)
    requires OwnerInv(s) && t in s.pc && !IsOwner(s, t)
    requires s'.queue == s.queue && s'.section == s.section && s'.pc == s.pc[t := p] && s'.local == s.local
    requires p != WriteQueued && p != Waking
    ensures OwnerInv(s')
  {
  }

  /** The word of a state in which one thread has moved. */
  lemma CountFrame(s: State, s': State, t: Tid, p: Pc)
    requires CountInv(s) && t in s.pc && s'.pc == s.pc[t := p]
    requires s'.section == s.section && s'.queue == s.queue
    requires s'.count - s.count ==
      (if Active(p) then 1 else 0) - (if Active(s.pc[t]) then 1 else 0)
      - Weight((if Writer(p) then 1 else 0) - (if Writer(s.pc[t]) then 1 else 0))
    ensures CountInv(s') && |s'.pc| == |s.pc|
    ensures Actives(s') == Actives(s) + (if Active(p) then 1 else 0) - (if Active(s.pc[t]) then 1 else 0)
    ensures Biases(s') == Biases(s) + (if Writer(p) then 1 else 0) - (if Writer(s.pc[t]) then 1 else 0)
  {
    Moved(s.pc, t, p);
  }

  lemma NoWriters(s: State)
    requires |WriterThreads(s.pc)| == 0
    ensures forall t :: t in s.pc ==> !Writer(s.pc[t])
  {
    forall t | t in s.pc ensures !Writer(s.pc[t]) {
      assert t !in WriterThreads(s.pc);
    }
  }

  lemma OnlyActive(pc: map<Tid, Pc>, t: Tid)
    requires t in pc && Active(pc[t]) && |ActiveThreads(pc)| == 1
    ensures forall u :: u in pc && Active(pc[u]) ==> u == t
  {
    assert |ActiveThreads(pc) - {t}| == 0;
    forall u | u in pc && Active(pc[u]) ensures u == t {
      assert u in ActiveThreads(pc) && u !in ActiveThreads(pc) - {t};
    }
  }

  /** A granting section holds units of the word, so nothing else can see it empty. */
  lemma GrantingIsActive(s: State)
    requires QueueInv(s) && OwnerInv(s) && Granting(s.section)
    ensures Actives(s) > 0
    ensures forall t :: t in s.pc && !ReadHolder(s.pc[t]) && Active(s.pc[t]) ==> Actives(s) > 1
  {
    TokensFit(s);
    var o := s.section.owner;
    if Tokens(s.section) == 0 {
      assert s.pc[o] == DowngradePending;
      assert o in ActiveThreads(s.pc);
    }
    forall t | t in s.pc && !ReadHolder(s.pc[t]) && Active(s.pc[t]) ensures Actives(s) > 1 {
      assert t in ActiveThreads(s.pc);
      if Tokens(s.section) == 0 {
        assert {t, o} <= ActiveThreads(s.pc);
        Subset({t, o}, ActiveThreads(s.pc));
      }
    }
  }

  /** Thread `t` came out holding the lock for writing, and the word says nobody else is active. */
  lemma WriterAlone(s: State, t: Tid)
    requires QueueInv(s) && OwnerInv(s) && CountInv(s) && |s.pc| < THREAD_LIMIT
    requires t in s.pc && s.pc[t] == WriteHeld && Actives(s) == 1
    ensures Exclusive(s)
  {
    Bounds(s);
    assert t in ActiveThreads(s.pc);
    OnlyActive(s.pc, t);
    if Granting(s.section) {
      GrantingIsActive(s);
    }
  }

  /** Thread `t` came out as a reader, or took nothing, while no writer held the lock. */
  lemma ExclusionFrame(s: State, s': State, t: Tid, p: Pc)
    requires Exclusive(s) && t in s.pc && s'.pc == s.pc[t := p] && s'.section == s.section
    requires p != WriteHeld
    requires ReadHolder(p) ==> s.pc[t] == WriteHeld || ReadHolder(s.pc[t]) || forall u :: u in s.pc ==> s.pc[u] != WriteHeld
    ensures Exclusive(s')
  {
  }

  /** A move that lowers nobody's activity to zero keeps every waiter looked after. */
  lemma CoverFrame(s: State, s': State, t: Tid, p: Pc)
    requires Covered(s) && t in s.pc && s'.pc == s.pc[t := p]
    requires s'.section == s.section && s'.queue == s.queue && s'.local == s.local && s'.pulsed == s.pulsed
    requires s.pc[t] != WakePending && s.pc[t] != WriteAwake
    requires Actives(s) <= 0 || Actives(s') > 0 || p == WakePending || |s.queue| <= Leaving(s.section)
    ensures Covered(s')
  {
    assert At(s', t, p);
    if WakeComing(s) {
      var u :| u in s.pc && s.pc[u] == WakePending;
      assert At(s', u, WakePending);
    }
  }

  lemma PulseFrame(s: State, s': State, t: Tid, p: Pc)
    requires PulseInv(s) && t in s.pc && s'.pc == s.pc[t := p] && p != ReadSleep(true)
    requires s'.section == s.section && s'.queue == s.queue && s'.pulsed == s.pulsed
    ensures PulseInv(s')
  {
  }

  lemma NotInside(s: State, t: Tid)
    requires OwnerInv(s) && t in s.pc
    requires s.pc[t] == Idle || s.pc[t] == ReadHeld || s.pc[t].ReadSleep? || s.pc[t] == WriteSleep
    ensures !IsOwner(s, t)
  {
  }

  lemma EnqueuedIsActive(s: State)
    requires QueueInv(s) && OwnerInv(s)
    ensures s.section.Enqueued? ==> Actives(s) > 0
  {
    if s.section.Enqueued? {
      assert s.section.owner in ActiveThreads(s.pc);
    }
  }

  /** When nobody is active the word says just whether somebody waits. */
  lemma Quiet(s: State)
    requires |s.pc| < THREAD_LIMIT && QueueInv(s) && OwnerInv(s) && CountInv(s) && Actives(s) == 0
    ensures s.count == if Leaving(s.section) < |s.queue| then WAITING_BIAS else 0
  {
    Bounds(s);
    EnqueuedIsActive(s);
    assert ActiveThreads(s.pc) == {} && WriterThreads(s.pc) <= ActiveThreads(s.pc);
  }

  lemma LockFast(s: State, a: Action)
    requires Inv(s) && Enabled(s, a) && (a.RdLock? || a.TryRdLock? || a.WrLock? || a.TryWrLock?)
    ensures Inv(Apply(s, a))
  {
    hide QueueInv, OwnerInv, NobodyForgotten, PulseInv, Exclusive, Covered, CountInv;
    var s', t := Apply(s, a), a.t;
    if s' != s {
      Decode(s);
      NotInside(s, t);
      var p := s'.pc[t];
      QueueFrame(s, s', t, p);
      OwnerFrame(s, s', t, p);
      CountFrame(s, s', t, p);
      Decode(s');
      PulseFrame(s, s', t, p);
      CoverFrame(s, s', t, p);
      if p == WriteHeld {
        WriterAlone(s', t);
      } else {
        if p == ReadHeld {
          NoWriters(s);
        }
        ExclusionFrame(s, s', t, p);
      }
    }
  }

  lemma Release(s: State, a: Action)
    requires Inv(s) && Enabled(s, a) && (a.RdUnlock? || a.WrUnlock? || a.Downgrade?)
    ensures Inv(Apply(s, a))
  {
    hide QueueInv, OwnerInv, NobodyForgotten, PulseInv, Exclusive, Covered, CountInv, Actives, Biases;
    var s', t := Apply(s, a), a.t;
    var p := s'.pc[t];
    if a.RdUnlock? {
      NotInside(s, t);
    }
    QueueFrame(s, s', t, p);
    OwnerFrame(s, s', t, p);
    ReleaseCount(s, a);
    PulseFrame(s, s', t, p);
    ExclusionFrame(s, s', t, p);
    ReleaseWakes(s', a, p);
    CoverFrame(s, s', t, p);
  }

  lemma ReleaseCount(s: State, a: Action)
    requires CountInv(s) && Enabled(s, a) && (a.RdUnlock? || a.WrUnlock? || a.Downgrade?)
    ensures CountInv(Apply(s, a)) && |Apply(s, a).pc| == |s.pc|
  {
    hide CountInv, Actives, Biases;
    CountFrame(s, Apply(s, a), a.t, Apply(s, a).pc[a.t]);
  }

  /** Whoever leaves the lock to nobody wakes those who wait. */
  lemma ReleaseWakes(s': State, a: Action, p: Pc)
    requires |s'.pc| < THREAD_LIMIT && QueueInv(s') && OwnerInv(s') && CountInv(s')
    requires a.RdUnlock? ==> p == if s'.count < -1 && !Masked(s'.count) then WakePending else Idle
    requires a.WrUnlock? ==> p == if s'.count < 0 then WakePending else Idle
    requires a.Downgrade? ==> p == if s'.count < 0 then DowngradePending else ReadHeld
    requires a.RdUnlock? || a.WrUnlock? || (a.Downgrade? && a.t in s'.pc && s'.pc[a.t] == p)
    ensures Actives(s') > 0 || p == WakePending || |s'.queue| <= Leaving(s'.section)
  {
    Decode(s');
    if Actives(s') == 0 {
      Quiet(s');
    }
    if a.Downgrade? {
      assert a.t in ActiveThreads(s'.pc);
      TokensFit(s');
    }
    hide QueueInv, OwnerInv, CountInv, Biases;
  }

  /** A queued thread goes to sleep or comes back from its event. */
  lemma SleepStep(s: State, a: Action)
    requires Inv(s) && Enabled(s, a) && (a.TestEvent? || a.ReadWoken? || a.WriteWoken?)
    ensures Inv(Apply(s, a))
  {
    hide QueueInv, OwnerInv, NobodyForgotten, PulseInv, Exclusive, Covered, CountInv;
    var s', t := Apply(s, a), a.t;
    var p := s'.pc[t];
    if !a.TestEvent? {
      NotInside(s, t);
    }
    QueueFrame(s, s', t, p);
    OwnerFrame(s, s', t, p);
    CountFrame(s, s', t, p);
    ExclusionFrame(s, s', t, p);
    SleepPulse(s, a);
    SleepCover(s, a);
  }

  lemma SleepPulse(s: State, a: Action)
    requires PulseInv(s) && Enabled(s, a) && (a.TestEvent? || a.ReadWoken? || a.WriteWoken?)
    ensures PulseInv(Apply(s, a))
  {
  }

  lemma SleepCover(s: State, a: Action)
    requires QueueInv(s) && Covered(s) && Enabled(s, a) && (a.TestEvent? || a.ReadWoken? || a.WriteWoken?)
    requires Actives(Apply(s, a)) == Actives(s)
    ensures Covered(Apply(s, a))
  {
    var s' := Apply(s, a);
    if WakeComing(s) {
      var u :| u in s.pc && s.pc[u] == WakePending;
      assert At(s', u, WakePending);
    }
    if HeadAwake(s) {
      assert Listed(s, s.queue[Leaving(s.section)]);
      assert HeadAwake(s');
    }
  }

  // ---- Entering and leaving wait_lock ------------------------------------------

  /** The section changes, the list and the waiting threads do not. */
  lemma SectionFrame(s: State, s': State)
    requires QueueInv(s) && NobodyForgotten(s) && PulseInv(s) && s'.queue == s.queue && s'.pulsed == s.pulsed
    requires Told(s.section) == 0 && Told(s'.section) == 0 && Leaving(s'.section) <= |s'.queue|
    requires s.pc.Keys == s'.pc.Keys
    requires forall t, k :: t in s.pc ==> Parked(s.pc[t], k) == Parked(s'.pc[t], k)
    requires forall t :: t in s.pc && s'.pc[t] == ReadSleep(true) ==> s.pc[t] == ReadSleep(true)
    requires !s.section.Enqueued? && !s.section.Pulse?
    ensures QueueInv(s') && NobodyForgotten(s') && PulseInv(s')
  {
    forall i | 0 <= i < |s.queue| ensures Listed(s', s.queue[i]) {
      assert Listed(s, s.queue[i]);
    }
  }

  lemma EnqueueQueue(s: State, t: Tid)
    requires QueueInv(s) && Enabled(s, Enqueue(t))
    ensures QueueInv(Apply(s, Enqueue(t)))
  {
    var s' := Apply(s, Enqueue(t));
    forall i | 0 <= i < |s.queue| ensures Listed(s', s'.queue[i]) && s'.queue[i].tid != t {
      assert Listed(s, s.queue[i]);
    }
  }

  lemma EnqueueOthers(s: State, t: Tid)
    requires NobodyForgotten(s) && PulseInv(s) && OwnerInv(s) && Enabled(s, Enqueue(t))
    ensures var s' := Apply(s, Enqueue(t)); NobodyForgotten(s') && PulseInv(s') && OwnerInv(s')
  {
    var s' := Apply(s, Enqueue(t));
    assert s'.queue[0..] == s.queue[0..] + [s'.queue[|s.queue|]];
  }

  lemma EnqueueStep(s: State, t: Tid)
    requires Inv(s) && Enabled(s, Enqueue(t))
    ensures Inv(Apply(s, Enqueue(t)))
  {
    hide QueueInv, OwnerInv, NobodyForgotten, PulseInv, Exclusive;
    var s' := Apply(s, Enqueue(t));
    EnqueueQueue(s, t);
    EnqueueOthers(s, t);
    EnqueueCount(s, t);
    assert Exclusive(s') by { ExclusiveSame(s, s'); }
    hide CountInv, Actives;
  }

  lemma EnqueueCount(s: State, t: Tid)
    requires CountInv(s) && Enabled(s, Enqueue(t))
    ensures var s' := Apply(s, Enqueue(t)); CountInv(s') && Actives(s') > 0 && s'.pc == s.pc
  {
    assert t in ActiveThreads(s.pc);
    hide ActiveThreads, WriterThreads, Weight;
  }

  lemma ExclusiveSame(s: State, s': State)
    requires Exclusive(s) && s.pc == s'.pc && (Granting(s'.section) ==> Granting(s.section))
    ensures Exclusive(s')
  {
  }

  lemma EnterOwner(s: State, a: Action)
    requires OwnerInv(s) && Enabled(s, a) && (a.EnterWake? || a.EnterDowngrade? || a.Relock?)
    ensures OwnerInv(Apply(s, a))
  {
  }

  lemma EnterCover(s: State, a: Action)
    requires Covered(s) && Enabled(s, a) && (a.EnterWake? || a.EnterDowngrade? || a.Relock?)
    requires Actives(Apply(s, a)) == Actives(s)
    ensures Covered(Apply(s, a))
  {
    var s' := Apply(s, a);
    if a.EnterDowngrade? {
      assert a.t in ActiveThreads(s'.pc);
    }
  }

  lemma EnterExclusive(s: State, a: Action)
    requires Exclusive(s) && Enabled(s, a) && (a.EnterWake? || a.EnterDowngrade? || a.Relock?)
    ensures Exclusive(Apply(s, a))
  {
    var s' := Apply(s, a);
    var mid := s.(pc := s'.pc);
    ExclusionFrame(s, mid, a.t, s'.pc[a.t]);
    ExclusiveSame(mid, s');
    hide Exclusive;
  }

  lemma EnterCounts(s: State, a: Action)
    requires CountInv(s) && Enabled(s, a) && (a.EnterWake? || a.EnterDowngrade? || a.Relock?)
    ensures CountInv(Apply(s, a)) && Actives(Apply(s, a)) == Actives(s) && |Apply(s, a).pc| == |s.pc|
  {
    var s' := Apply(s, a);
    Moved(s.pc, a.t, s'.pc[a.t]);
    assert s'.pc == s.pc[a.t := s'.pc[a.t]];
    hide ActiveThreads, WriterThreads, Enabled, Weight;
  }

  lemma EnterStep(s: State, a: Action)
    requires Inv(s) && Enabled(s, a) && (a.EnterWake? || a.EnterDowngrade? || a.Relock?)
    ensures Inv(Apply(s, a))
  {
    hide QueueInv, OwnerInv, NobodyForgotten, PulseInv, Exclusive, Covered, CountInv;
    EnterCounts(s, a);
    EnterOwner(s, a);
    EnterCover(s, a);
    EnterExclusive(s, a);
    SectionFrame(s, Apply(s, a));
  }

  // ---- Inside wait_lock --------------------------------------------------------

  lemma LeaveCount(s: State)
    requires CountInv(s) && s.section.Leave? && SectionDefined(s)
    requires var p := s.pc[s.section.owner]; p.ReadCheck? || p == WriteQueued || p == Waking || p == WriteHeld || p == DowngradePending
    ensures var s' := Continue(s); CountInv(s') && Actives(s') == Actives(s) && |s'.pc| == |s.pc|
  {
    var s', o := Continue(s), s.section.owner;
    Moved(s.pc, o, s'.pc[o]);
    hide ActiveThreads, WriterThreads, Weight;
  }

  lemma LeaveStep(s: State)
    requires Inv(s) && s.section.Leave? && SectionDefined(s)
    ensures Inv(Continue(s))
  {
    hide QueueInv, OwnerInv, NobodyForgotten, PulseInv, Exclusive, Covered, CountInv, Actives;
    LeaveOwner(s);
    LeaveCount(s);
    SectionFrame(s, Continue(s));
    LeaveCover(s);
    LeaveExclusive(s);
  }

  lemma LeaveOwner(s: State)
    requires OwnerInv(s) && s.section.Leave? && SectionDefined(s)
    ensures OwnerInv(Continue(s))
    ensures var p := s.pc[s.section.owner]; p.ReadCheck? || p == WriteQueued || p == Waking || p == WriteHeld || p == DowngradePending
  {
  }

  lemma LeaveExclusive(s: State)
    requires Exclusive(s) && s.section.Leave? && SectionDefined(s)
    ensures Exclusive(Continue(s))
  {
  }

  lemma LeaveCover(s: State)
    requires Covered(s) && OwnerInv(s) && s.section.Leave? && SectionDefined(s)
    requires Actives(Continue(s)) == Actives(s)
    ensures Covered(Continue(s))
  {
    var s' := Continue(s);
    if WakeComing(s) {
      var u :| u in s.pc && s.pc[u] == WakePending;
      assert At(s', u, WakePending);
    }
  }

  /** A writer at the head of nothing but its own decision: it takes its copy, tries, and gives way. */
  lemma WriteGiveWay(s: State)
    requires Inv(s) && !s.section.Free? && SectionDefined(s)
    requires s.section.Reread? || (s.section.WriteTry? && (Masked(s.local) || s.count != WAITING_BIAS))
    ensures Inv(Continue(s))
  {
    hide QueueInv, OwnerInv, NobodyForgotten, PulseInv, Exclusive;
    var s' := Continue(s);
    Decode(s);
    SectionFrame(s, s');
    ExclusiveSame(s, s');
    assert OwnerInv(s') by { GiveWayOwner(s); }
    if Actives(s) == 0 {
      Quiet(s);
    }
    CoverSame(s, s');
  }

  lemma GiveWayOwner(s: State)
    requires OwnerInv(s) && (s.section.Reread? || (s.section.WriteTry? && (Masked(s.local) || s.count != WAITING_BIAS)))
    requires SectionDefined(s)
    ensures OwnerInv(Continue(s))
  {
  }

  lemma CoverSame(s: State, s': State)
    requires Covered(s) && s'.pc == s.pc && s'.queue == s.queue && s'.pulsed == s.pulsed
    requires Leaving(s'.section) == Leaving(s.section)
    requires Actives(s) > 0 ==> Actives(s') > 0
    requires Responsible(s) ==> Responsible(s') || Actives(s') > 0 || |s.queue| <= Leaving(s.section)
    ensures Covered(s')
  {
  }

  /** The compare-and-swap succeeds: the writer leaves the list, from wherever it stands. */
  lemma WriteStolen(s: State)
    requires Inv(s) && s.section.WriteTry? && SectionDefined(s) && !Masked(s.local) && s.count == WAITING_BIAS
    ensures Inv(Continue(s))
  {
    hide QueueInv, OwnerInv, NobodyForgotten, PulseInv, Exclusive, Covered;
    var s', o := Continue(s), s.section.owner;
    Decode(s);
    StolenQueue(s);
    Moved(s.pc, o, WriteHeld);
    EnqueuedIsActive(s);
    assert Actives(s') == 1;
    assert |WriterThreads(s.pc)| == 0 by {
      assert ActiveThreads(s.pc) == {} && WriterThreads(s.pc) <= ActiveThreads(s.pc);
    }
    WriterAlone(s', o);
    CoverActive(s');
  }

  lemma CoverActive(s: State)
    requires Actives(s) > 0
    ensures Covered(s)
  {
  }

  lemma StolenOwner(s: State)
    requires OwnerInv(s) && PulseInv(s) && s.section.WriteTry? && SectionDefined(s) && !Masked(s.local) && s.count == WAITING_BIAS
    ensures OwnerInv(Continue(s)) && PulseInv(Continue(s)) && s.pc[s.section.owner] == WriteQueued
  {
  }

  lemma StolenQueue(s: State)
    requires QueueInv(s) && OwnerInv(s) && NobodyForgotten(s) && PulseInv(s)
    requires s.section.WriteTry? && SectionDefined(s) && !Masked(s.local) && s.count == WAITING_BIAS
    ensures var s' := Continue(s);
      QueueInv(s') && OwnerInv(s') && NobodyForgotten(s') && PulseInv(s') && |s'.queue| == |s.queue| - 1
    ensures s.pc[s.section.owner] == WriteQueued
  {
    var s', o := Continue(s), s.section.owner;
    StolenOwner(s);
    assert Parked(s.pc[o], ForWrite);
    assert Waiter(o, ForWrite) in s.queue[0..];
    hide OwnerInv, PulseInv;
    var i :| 0 <= i < |s.queue| && s.queue[i] == Waiter(o, ForWrite);
    WithoutSplits(s.queue, i);
    hide QueueInv, NobodyForgotten;
    Unlinked(s, s', i);
  }

  lemma Unlinked(s: State, s': State, i: nat)
    requires QueueInv(s) && NobodyForgotten(s) && s.section.WriteTry? && s'.section.Leave?
    requires i < |s.queue| && s'.queue == s.queue[..i] + s.queue[i + 1..]
    requires s.queue[i].tid in s.pc && s'.pc == s.pc[s.queue[i].tid := WriteHeld]
    ensures QueueInv(s') && NobodyForgotten(s')
  {
    forall j | 0 <= j < |s'.queue| ensures Listed(s', s'.queue[j]) {
      assert Listed(s, s.queue[if j < i then j else j + 1]);
    }
    forall t, k | t in s'.pc && Parked(s'.pc[t], k) ensures Waiter(t, k) in s'.queue {
      assert Waiter(t, k) in s.queue[0..];
      var j :| 0 <= j < |s.queue| && s.queue[j] == Waiter(t, k);
      assert s'.queue[if j < i then j else j - 1] == Waiter(t, k);
    }
    assert s'.queue[0..] == s'.queue;
  }

  /** The new waiter gives up its attempt: the word and the counts. */
  lemma UpdateCount(s: State, calm: State)
    requires Inv(s) && s.section.Enqueued? && SectionDefined(s) && calm == Continue(s).(section := Leave(s.section.owner))
    ensures CountInv(calm) && |calm.pc| == |s.pc| && Actives(Continue(s)) == Actives(calm) && Biases(Continue(s)) == Biases(calm)
  {
    hide QueueInv, OwnerInv, NobodyForgotten, PulseInv, Exclusive, Covered;
    var s', o := Continue(s), s.section.owner;
    UpdateQueue(s, calm);
    Moved(s.pc, o, s'.pc[o]);
  }

  lemma UpdateExclusive(s: State)
    requires Exclusive(s) && s.section.Enqueued? && SectionDefined(s)
    ensures Exclusive(Continue(s))
  {
    var s', o := Continue(s), s.section.owner;
    ExclusionFrame(s, s.(pc := s'.pc), o, s'.pc[o]);
    ExclusiveSame(s.(pc := s'.pc), s');
    hide Exclusive;
  }

  lemma UpdateCover(s: State)
    requires s.section.Enqueued? && SectionDefined(s) && |Continue(s).pc| < THREAD_LIMIT && s.queue != []
    requires QueueInv(Continue(s)) && OwnerInv(Continue(s)) && CountInv(Continue(s)) && 0 <= Actives(Continue(s))
    ensures Covered(Continue(s))
  {
    hide QueueInv, OwnerInv, NobodyForgotten, PulseInv, Exclusive, Covered, CountInv;
    var s' := Continue(s);
    if Actives(s') == 0 {
      Quiet(s');
      CoverResponsible(s');
    } else {
      CoverActive(s');
    }
  }

  /** What the word becomes decides who wakes whom. */
  lemma UpdateStep(s: State)
    requires Inv(s) && s.section.Enqueued? && SectionDefined(s)
    ensures Inv(Continue(s))
  {
    hide QueueInv, OwnerInv, NobodyForgotten, PulseInv, Exclusive, Covered;
    var s', o := Continue(s), s.section.owner;
    var calm := s'.(section := Leave(o));
    UpdateQueue(s, calm);
    UpdateCount(s, calm);
    Decode(calm);
    UpdateOwner(s);
    SectionFrame(calm, s');
    UpdateExclusive(s);
    assert CountInv(s');
    UpdateCover(s);
  }

  lemma CoverResponsible(s: State)
    requires Responsible(s)
    ensures Covered(s)
  {
  }

  lemma CalmOwner(s: State, calm: State)
    requires OwnerInv(s) && s.section.Enqueued? && SectionDefined(s) && calm == Continue(s).(section := Leave(s.section.owner))
    ensures OwnerInv(calm) && s.queue != [] && s.queue[|s.queue| - 1] == Waiter(s.section.owner, s.section.kind)
    ensures s.section.wasEmpty == (|s.queue| == 1) && s.section.owner in s.pc && FailedAs(s.pc[s.section.owner], s.section.kind)
  {
  }

  lemma UpdateQueue(s: State, calm: State)
    requires QueueInv(s) && OwnerInv(s) && NobodyForgotten(s) && PulseInv(s) && s.section.Enqueued? && SectionDefined(s)
    requires calm == Continue(s).(section := Leave(s.section.owner))
    ensures QueueInv(calm) && OwnerInv(calm) && NobodyForgotten(calm) && PulseInv(calm)
    ensures s.queue != [] && s.section.wasEmpty == (|s.queue| == 1) && FailedAs(s.pc[s.section.owner], s.section.kind)
  {
    var o, k := s.section.owner, s.section.kind;
    CalmOwner(s, calm);
    hide OwnerInv;
    forall i | 0 <= i < |s.queue| ensures Listed(calm, s.queue[i]) {
      assert Listed(s, s.queue[i]);
    }
    assert Waiter(o, k) in s.queue[0..];
  }

  lemma UpdateOwner(s: State)
    requires OwnerInv(s) && s.section.Enqueued? && SectionDefined(s)
    requires var c := Continue(s); c.section.Wake? && c.section.mode == Readers ==> Masked(c.local)
    ensures OwnerInv(Continue(s))
  {
  }

  /** `__rwlock_do_wake` looks at the head of the list. */
  lemma WakeStep(s: State)
    requires Inv(s) && s.section.Wake? && SectionDefined(s)
    ensures Inv(Continue(s))
  {
    hide QueueInv, OwnerInv, NobodyForgotten, Exclusive, Covered;
    var s' := Continue(s);
    SectionFrame(s, s'.(pulsed := s.pulsed));
    WakeOwner(s);
    WakeExclusive(s);
    WakeCover(s);
    assert QueueInv(s') && NobodyForgotten(s') by { PulsedMore(s'.(pulsed := s.pulsed), s'); }
  }

  lemma PulsedMore(s: State, s': State)
    requires s' == s.(pulsed := s'.pulsed) && QueueInv(s) && NobodyForgotten(s)
    ensures QueueInv(s') && NobodyForgotten(s')
  {
    forall i | Told(s.section) <= i < |s.queue| ensures Listed(s', s.queue[i]) {
      assert Listed(s, s.queue[i]);
    }
  }

  lemma WakeOwner(s: State)
    requires OwnerInv(s) && s.section.Wake? && SectionDefined(s)
    ensures OwnerInv(Continue(s))
  {
    assert s.queue[0].kind.ForRead? || s.queue[0].kind.ForWrite?;
  }

  lemma WakeExclusive(s: State)
    requires Exclusive(s) && OwnerInv(s) && s.section.Wake? && SectionDefined(s)
    ensures Exclusive(Continue(s))
  {
  }

  lemma WakeCover(s: State)
    requires Covered(s) && QueueInv(s) && OwnerInv(s) && s.section.Wake? && SectionDefined(s)
    ensures Covered(Continue(s))
  {
    var s' := Continue(s);
    assert Listed(s, s.queue[0]);
    if s.section.mode == ReadOwned {
      assert s.section.owner in ActiveThreads(s.pc);
    }
    if WakeComing(s) {
      assert WakeComing(s');
    }
  }

  /** The waker counts the first reader in, and takes that back when it sees a writer. */
  lemma GrantStep(s: State)
    requires Inv(s) && (s.section.TryGrant? || s.section.Undo?) && SectionDefined(s)
    ensures Inv(Continue(s))
  {
    hide QueueInv, OwnerInv, NobodyForgotten, PulseInv, Exclusive, Covered;
    var s' := Continue(s);
    Decode(s);
    SectionFrame(s, s');
    GrantOwner(s);
    Decode(s');
    if s'.section.Grant? {
      NoWriters(s);
      ExclusiveNone(s');
    } else {
      ExclusiveSame(s, s');
    }
    if Responsible(s') {
      CoverResponsible(s');
    } else {
      CoverActive(s');
    }
  }

  lemma ExclusiveNone(s: State)
    requires forall t :: t in s.pc ==> !Writer(s.pc[t])
    ensures Exclusive(s)
  {
  }

  lemma GrantOwner(s: State)
    requires OwnerInv(s) && (s.section.TryGrant? || s.section.Undo?) && SectionDefined(s)
    ensures OwnerInv(Continue(s))
    ensures s.queue != []
  {
  }

  /** The word is raised for all the readers at the front at once. */
  lemma BatchStep(s: State)
    requires Inv(s) && s.section.Grant? && SectionDefined(s)
    ensures Inv(Continue(s))
  {
    hide QueueInv, OwnerInv, NobodyForgotten, PulseInv, Exclusive, Covered;
    var s' := Continue(s);
    BatchOwner(s);
    SectionFrame(s, s');
    assert Granting(s.section) && Granting(s'.section);
    ExclusiveSame(s, s');
    GrantingIsActive(s');
    CoverActive(s');
  }

  lemma BatchOwner(s: State)
    requires OwnerInv(s) && s.section.Grant? && SectionDefined(s)
    ensures OwnerInv(Continue(s))
    ensures s.queue != [] && LeadingReaders(s.queue) >= 1
  {
  }

  /** One reader is told. */
  lemma TellStep(s: State)
    requires Inv(s) && s.section.Clear? && SectionDefined(s) && s.section.done < s.section.woken
    ensures Inv(Continue(s))
  {
    hide QueueInv, OwnerInv, NobodyForgotten, PulseInv, Exclusive, Covered;
    var s', t := Continue(s), s.queue[s.section.done].tid;
    TellQueue(s);
    TellOwner(s);
    TellPulse(s);
    Moved(s.pc, t, s'.pc[t]);
    GrantingIsActive(s);
    TellExclusive(s);
    CoverActive(s');
  }

  lemma TellFirst(s: State)
    requires QueueInv(s) && OwnerInv(s) && s.section.Clear? && SectionDefined(s) && s.section.done < s.section.woken
    ensures var w := s.queue[s.section.done]; w.kind == ForRead && Listed(s, w) && Parked(s.pc[w.tid], ForRead)
  {
    var d := s.section.done;
    assert s.queue[d].kind == ForRead;
    hide OwnerInv;
    assert Listed(s, s.queue[d]);
  }

  lemma TellListed(s: State)
    requires QueueInv(s) && s.section.Clear? && SectionDefined(s) && s.section.done < s.section.woken
    ensures QueueInv(Continue(s))
  {
    var s', d := Continue(s), s.section.done;
    forall i | d < i < |s.queue| ensures Listed(s', s.queue[i]) {
      assert Listed(s, s.queue[i]) && s.queue[d].tid != s.queue[i].tid;
    }
    hide Listed;
  }

  lemma TellQueue(s: State)
    requires QueueInv(s) && OwnerInv(s) && NobodyForgotten(s)
    requires s.section.Clear? && SectionDefined(s) && s.section.done < s.section.woken
    ensures QueueInv(Continue(s)) && NobodyForgotten(Continue(s))
    ensures Parked(s.pc[s.queue[s.section.done].tid], ForRead)
  {
    hide NobodyForgotten, QueueInv, OwnerInv;
    TellFirst(s);
    TellListed(s);
    TellForgets(s);
  }

  lemma TellForgets(s: State)
    requires NobodyForgotten(s) && s.section.Clear? && SectionDefined(s) && s.section.done < s.section.woken
    requires Parked(s.pc[s.queue[s.section.done].tid], ForRead) && s.queue[s.section.done].kind == ForRead
    ensures NobodyForgotten(Continue(s))
  {
    var s', d := Continue(s), s.section.done;
    assert s.queue[d..] == [s.queue[d]] + s.queue[d + 1..];
  }

  lemma TellOwner(s: State)
    requires OwnerInv(s) && s.section.Clear? && SectionDefined(s) && s.section.done < s.section.woken
    requires Parked(s.pc[s.queue[s.section.done].tid], ForRead)
    ensures OwnerInv(Continue(s))
  {
  }

  lemma TellPulse(s: State)
    requires PulseInv(s) && s.section.Clear? && SectionDefined(s) && s.section.done < s.section.woken
    ensures PulseInv(Continue(s))
  {
  }

  lemma TellExclusive(s: State)
    requires Exclusive(s) && s.section.Clear? && SectionDefined(s) && s.section.done < s.section.woken
    requires Parked(s.pc[s.queue[s.section.done].tid], ForRead)
    ensures Exclusive(Continue(s))
  {
  }

  /** The told readers are cut off the list. */
  lemma CutStep(s: State)
    requires Inv(s) && s.section.Clear? && SectionDefined(s) && s.section.done >= s.section.woken
    ensures Inv(Continue(s))
  {
    hide QueueInv, OwnerInv, NobodyForgotten, PulseInv, Exclusive, Covered;
    var s' := Continue(s);
    CutQueue(s);
    CutOwner(s);
    ExclusiveSame(s, s');
    assert PulseInv(s') by { CutPulse(s); }
    CutCover(s);
  }

  lemma CutQueue(s: State)
    requires QueueInv(s) && NobodyForgotten(s) && s.section.Clear? && SectionDefined(s) && s.section.done >= s.section.woken
    ensures QueueInv(Continue(s)) && NobodyForgotten(Continue(s))
    ensures s.section.done == s.section.woken
  {
    var s', w := Continue(s), s.section.woken;
    forall i | 0 <= i < |s'.queue| ensures Listed(s', s'.queue[i]) {
      assert Listed(s, s.queue[i + w]);
    }
    assert s'.queue[0..] == s.queue[w..];
  }

  lemma CutOwner(s: State)
    requires OwnerInv(s) && s.section.Clear? && SectionDefined(s) && s.section.done >= s.section.woken
    ensures OwnerInv(Continue(s))
  {
  }

  lemma CutPulse(s: State)
    requires PulseInv(s) && s.section.Clear? && SectionDefined(s) && s.section.done >= s.section.woken
    ensures PulseInv(Continue(s))
  {
  }

  lemma CutCover(s: State)
    requires Covered(s) && s.section.Clear? && SectionDefined(s) && s.section.done == s.section.woken
    ensures Covered(Continue(s))
  {
    var s' := Continue(s);
    if WakeComing(s) {
      assert WakeComing(s');
    }
  }

  lemma PulseStep(s: State)
    requires Inv(s) && s.section.Pulse? && SectionDefined(s)
    ensures Inv(Continue(s))
  {
    hide OwnerInv, NobodyForgotten, Exclusive, Covered;
    var s' := Continue(s);
    PulseOwner(s);
    forall i | Told(s'.section) <= i < |s'.queue| ensures Listed(s', s'.queue[i]) {
      assert Listed(s, s.queue[i]);
    }
    assert NobodyForgotten(s') by { PulseForgets(s); }
    ExclusiveSame(s, s');
    PulseCover(s);
  }

  lemma PulseOwner(s: State)
    requires OwnerInv(s) && s.section.Pulse? && SectionDefined(s)
    ensures OwnerInv(Continue(s)) && s.section.done < s.section.woken
  {
  }

  lemma PulseForgets(s: State)
    requires NobodyForgotten(s) && s.section.Pulse? && SectionDefined(s)
    ensures NobodyForgotten(Continue(s))
  {
  }

  lemma PulseCover(s: State)
    requires Covered(s) && s.section.Pulse? && SectionDefined(s)
    ensures Covered(Continue(s))
  {
    var s' := Continue(s);
    if WakeComing(s) {
      assert WakeComing(s');
    }
  }

  lemma AdvanceStep(s: State)
    requires Inv(s) && Enabled(s, Advance)
    ensures Inv(Continue(s))
  {
    hide Inv;
    match s.section
    case Enqueued(_, _, _) => UpdateStep(s);
    case Wake(_, _) => WakeStep(s);
    case TryGrant(_) => GrantStep(s);
    case Undo(_) => GrantStep(s);
    case Grant(_, _) => BatchStep(s);
    case Clear(_, w, d) => if d < w { TellStep(s); } else { CutStep(s); }
    case Pulse(_, _, _) => PulseStep(s);
    case Reread(_) => WriteGiveWay(s);
    case WriteTry(_) => if !Masked(s.local) && s.count == WAITING_BIAS { WriteStolen(s); } else { WriteGiveWay(s); }
    case Leave(_) => LeaveStep(s);
  }

  lemma Preserved(s: State, a: Action)
    requires Inv(s) && Enabled(s, a)
    ensures Inv(Apply(s, a))
  {
    hide Inv;
    match a
    case RdLock(_) => LockFast(s, a);
    case TryRdLock(_) => LockFast(s, a);
    case WrLock(_) => LockFast(s, a);
    case TryWrLock(_) => LockFast(s, a);
    case RdUnlock(_) => Release(s, a);
    case WrUnlock(_) => Release(s, a);
    case Downgrade(_) => Release(s, a);
    case TestEvent(_) => SleepStep(s, a);
    case ReadWoken(_) => SleepStep(s, a);
    case WriteWoken(_) => SleepStep(s, a);
    case Enqueue(t) => EnqueueStep(s, t);
    case EnterWake(_) => EnterStep(s, a);
    case EnterDowngrade(_) => EnterStep(s, a);
    case Relock(_) => EnterStep(s, a);
    case Advance => AdvanceStep(s);
  }

  lemma Established(threads: set<Tid>)
    requires |threads| < THREAD_LIMIT
    ensures Inv(Init(threads))
  {
    var s := Init(threads);
    assert s.pc.Keys == threads;
    assert ActiveThreads(s.pc) == {} && WriterThreads(s.pc) == {};
  }

  // ---- Whole runs --------------------------------------------------------------

  /** Any interleaving of any number of lock, unlock, downgrade and slow-path steps. */
  ghost predicate Run(threads: set<Tid>, states: seq<State>, actions: seq<Action>) {
    && |threads| < THREAD_LIMIT
    && |states| == |actions| + 1
    && states[0] == Init(threads)
    && forall i :: 0 <= i < |actions| ==> Enabled(states[i], actions[i]) && states[i + 1] == Apply(states[i], actions[i])
  }

  lemma {:induction false} Reached(threads: set<Tid>, states: seq<State>, actions: seq<Action>, i: nat)
    requires Run(threads, states, actions) && i < |states|
    ensures Inv(states[i])
  {
    hide Inv;
    if i == 0 {
      Established(threads);
    } else {
      Reached(threads, states, actions, i - 1);
      Preserved(states[i - 1], actions[i - 1]);
    }
  }

  // ---- The lock as its users see it -----------------------------------------------------

  ghost function RawOf(pc: map<Tid, Pc>): Raw<Tid> {
    Raw(set t | t in pc && ReadHolder(pc[t]), set t | t in pc && pc[t] == WriteHeld)
  }

  /** The thread whose place a step changes. */
  function Mover(s: State, a: Action): Tid
    requires Enabled(s, a)
  {
    if !a.Advance? then a.t else if s.section.Clear? && s.section.done < s.section.woken then s.queue[s.section.done].tid else s.section.owner
  }

  /** Nobody comes to write who was reading, and only one thread moves. */
  lemma OneMoves(s: State, a: Action)
    requires Enabled(s, a) && QueueInv(s) && OwnerInv(s)
    ensures var s', t := Apply(s, a), Mover(s, a);
      t in s.pc && t in s'.pc && s'.pc == s.pc[t := s'.pc[t]] && !(ReadHolder(s.pc[t]) && s'.pc[t] == WriteHeld)
  {
    assert s.section.Clear? && s.section.done < s.section.woken ==> Listed(s, s.queue[s.section.done]);
  }

  lemma RawMoved(pc: map<Tid, Pc>, t: Tid, p: Pc)
    requires t in pc
    ensures var a, b := RawOf(pc), RawOf(pc[t := p]);
      && b.readers == (if ReadHolder(p) then a.readers + {t} else a.readers - {t})
      && b.writers == (if p == WriteHeld then a.writers + {t} else a.writers - {t})
      && (t in a.readers <==> ReadHolder(pc[t])) && (t in a.writers <==> pc[t] == WriteHeld)
  {
  }

  ghost predicate Alone(r: Raw<Tid>) {
    forall u :: u in r.writers ==> r == Raw({}, {u})
  }

  lemma RawExclusive(s: State)
    requires Exclusive(s)
    ensures Alone(RawOf(s.pc))
  {
    forall t | t in RawOf(s.pc).writers ensures RawOf(s.pc) == Raw({}, {t}) {
    }
  }

  lemma RawStep(a: Raw<Tid>, b: Raw<Tid>, t: Tid, reading: bool, writing: bool)
    requires Alone(a) && Alone(b) && !(reading && writing) && !(t in a.readers && writing)
    requires b.readers == (if reading then a.readers + {t} else a.readers - {t})
    requires b.writers == (if writing then a.writers + {t} else a.writers - {t})
    ensures RawLock.Step(a, b, t)
  {
    if reading && t !in a.readers && t !in a.writers {
      if u :| u in a.writers {
        assert u in b.writers && t in b.readers;
      }
    }
  }

  lemma RefinesRaw(s: State, a: Action)
    requires Inv(s) && Enabled(s, a)
    ensures RawLock.Step(RawOf(s.pc), RawOf(Apply(s, a).pc), Mover(s, a))
  {
    var s', t := Apply(s, a), Mover(s, a);
    OneMoves(s, a);
    Preserved(s, a);
    hide QueueInv, OwnerInv, CountInv, NobodyForgotten, PulseInv, Exclusive, Covered, Apply, Enabled, Mover;
    RawMoved(s.pc, t, s'.pc[t]);
    RawExclusive(s);
    RawExclusive(s');
    hide RawOf, Inv, Alone, RawLock.Step;
    RawStep(RawOf(s.pc), RawOf(s'.pc), t, ReadHolder(s'.pc[t]), s'.pc[t] == WriteHeld);
  }

  /**
   In every reachable state the word is what its fields say: one unit per reader
   and per writer that holds the lock or has counted itself in, one bias per such
   writer and one more while somebody waits.  It never leaves the range of intptr_t.
   */
  lemma WordMeaning(threads: set<Tid>, states: seq<State>, actions: seq<Action>, i: nat)
    requires Run(threads, states, actions) && i < |states|
    ensures var s := states[i];
      && s.count == Actives(s) + WAITING_BIAS * Biases(s)
      && (s.section.Free? ==> Actives(s) == |ActiveThreads(s.pc)| && (Biased(s) <==> s.queue != []))
      && (if WIDE then -0x8000_0000_0000_0000 <= s.count < 0x8000_0000_0000_0000 else -0x8000_0000 <= s.count < 0x8000_0000)
  {
    Reached(threads, states, actions, i);
    Bounds(states[i]);
  }

  /** A writer never coexists with another holder, readers granted in a batch included. */
  lemma MutualExclusion(threads: set<Tid>, states: seq<State>, actions: seq<Action>, i: nat, t: Tid, u: Tid)
    requires Run(threads, states, actions) && i < |states|
    requires At(states[i], t, WriteHeld) && u in states[i].pc && u != t
    ensures states[i].pc[u] != WriteHeld && !ReadHolder(states[i].pc[u])
  {
    Reached(threads, states, actions, i);
  }

  /**
   With `wait_lock` free, waiters queued and nobody active, either some thread owes a
   rwlock_wake, or the writer at the head has an unconsumed pulse or is on its way back.
   */
  lemma NoLostWakeUp(threads: set<Tid>, states: seq<State>, actions: seq<Action>, i: nat)
    requires Run(threads, states, actions) && i < |states|
    requires var s := states[i]; s.section.Free? && s.queue != [] && ActiveThreads(s.pc) == {}
    ensures var s, head := states[i], states[i].queue[0];
      || (exists t :: At(s, t, WakePending))
      || (head.kind == ForWrite && (head.tid in s.pulsed || At(s, head.tid, WriteAwake)))
  {
    Reached(threads, states, actions, i);
    var s := states[i];
    assert Actives(s) == 0;
    if WakeComing(s) {
      var t :| t in s.pc && s.pc[t] == WakePending;
      assert At(s, t, WakePending);
    }
  }

  /** Whoever sleeps is in the list under its own kind, or was granted the lock and has its pulse. */
  lemma NobodySleepsUnnoticed(threads: set<Tid>, states: seq<State>, actions: seq<Action>, i: nat, t: Tid)
    requires Run(threads, states, actions) && i < |states|
    requires var s := states[i]; s.section.Free? && t in s.pc && (s.pc[t].ReadSleep? || s.pc[t] == WriteSleep)
    ensures var s := states[i];
      || (s.pc[t] == ReadSleep(true) && t in s.pulsed)
      || (s.pc[t] == ReadSleep(false) && Waiter(t, ForRead) in s.queue)
      || (s.pc[t] == WriteSleep && Waiter(t, ForWrite) in s.queue)
  {
    Reached(threads, states, actions, i);
    var s := states[i];
    assert s.queue[0..] == s.queue;
    assert s.pc[t] == ReadSleep(false) ==> Parked(s.pc[t], ForRead);
    assert s.pc[t] == WriteSleep ==> Parked(s.pc[t], ForWrite);
  }

  /** The owner of `wait_lock` can always take its next step: no list entry it reads is missing. */
  lemma OwnerNeverStuck(threads: set<Tid>, states: seq<State>, actions: seq<Action>, i: nat)
    requires Run(threads, states, actions) && i < |states| && !states[i].section.Free?
    ensures Enabled(states[i], Advance)
  {
    Reached(threads, states, actions, i);
    var s := states[i];
    if s.section.Clear? && s.section.done < s.section.woken {
      assert Listed(s, s.queue[s.section.done]);
    }
  }
}

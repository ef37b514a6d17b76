/**
 The counter-encoded reader/writer lock, as a state machine with one action per
 atomic operation on `count` and one per step taken under `wait_lock`.

 A thread is a `Tid`; where it stands is its `Pc`.  The thread that owns
 `wait_lock` is described by `Section`.  Actions of other threads interleave
 freely with every step of a section, since they only touch `count`.
 */
module RwLock {
  type Tid = nat

  // INTPTR_MAX == INT64_MAX: either way everything below holds.
  const WIDE: bool

  // RWLOCK_ACTIVE_MASK is 0xffffffff or 0xffff.
  const WAITING_BIAS: int := if WIDE then -0x1_0000_0000 else -0x1_0000
  const READ_BIAS: int := 1
  const WRITE_BIAS: int := WAITING_BIAS + 1

  // With fewer threads than this the word cannot leave the range of intptr_t.
  const THREAD_LIMIT: int := if WIDE then 0x7fff_ffff else 0x7fff

  /** `count & RWLOCK_ACTIVE_MASK` is non-zero. */
  predicate Masked(count: int) {
    if WIDE then count % 0x1_0000_0000 != 0 else count % 0x1_0000 != 0
  }

  /** The weight of `n` biases. */
  function Weight(n: int): int {
    if WIDE then 0x1_0000_0000 * n else 0x1_0000 * n
  }

  datatype Kind = ForRead | ForWrite
  datatype Waiter = Waiter(tid: Tid, kind: Kind)

  datatype Pc =
    | Idle
    | ReadFailed                  // counted itself in, was refused, heads for wait_lock
    | ReadCheck(granted: bool)    // queued, about to test waiter.event; granted: it is NULL
    | ReadSleep(granted: bool)    // queued, inside k_event_wait
    | ReadHeld
    | WriteFailed
    | WriteQueued                 // queued and owner of wait_lock
    | WriteSleep                  // queued, inside k_event_wait
    | WriteAwake                  // queued, back from k_event_wait, heads for wait_lock
    | WriteHeld
    | WakePending                 // released the lock and owes a rwlock_wake
    | Waking                      // inside rwlock_wake, owner of wait_lock
    | DowngradePending            // holds the lock for reading and owes a rwlock_downgrade_wake

  datatype WakeMode = Any | Readers | ReadOwned

  /** What the owner of `wait_lock` is about to do. */
  datatype Section =
    | Free
    | Enqueued(owner: Tid, kind: Kind, wasEmpty: bool)  // linked in, count still to be updated
    | Wake(owner: Tid, mode: WakeMode)                  // entering __rwlock_do_wake
    | TryGrant(owner: Tid)                              // at try_reader_grant
    | Undo(owner: Tid)                                  // a writer was seen, the grant is to be undone
    | Grant(owner: Tid, owned: bool)                    // the first reader may go, count the others
    | Clear(owner: Tid, woken: nat, done: nat)          // about to clear waiter.event of number `done`
    | Pulse(owner: Tid, woken: nat, done: nat)          // about to pulse its event
    | Reread(owner: Tid)                                // a writer re-reading count
    | WriteTry(owner: Tid)                              // a writer testing its copy, then compare-and-swap
    | Leave(owner: Tid)                                 // about to release wait_lock

  datatype State = State(
    count: int,
    section: Section,
    queue: seq<Waiter>,        // wait_list
    pc: map<Tid, Pc>,
    pulsed: set<Tid>,          // threads whose event holds an unconsumed pulse
    local: int)                // the local variable `count` of the writer owning wait_lock

  datatype Action =
    | RdLock(t: Tid) | TryRdLock(t: Tid) | WrLock(t: Tid) | TryWrLock(t: Tid)
    | RdUnlock(t: Tid) | WrUnlock(t: Tid) | Downgrade(t: Tid)
    | TestEvent(t: Tid) | ReadWoken(t: Tid) | WriteWoken(t: Tid)
    | Enqueue(t: Tid) | EnterWake(t: Tid) | EnterDowngrade(t: Tid) | Relock(t: Tid)
    | Advance                  // the owner of wait_lock takes its next step

  function Init(threads: set<Tid>): State {
    State(0, Free, [], map t | t in threads :: Idle, {}, 0)
  }

  predicate IsOwner(s: State, t: Tid) {
    !s.section.Free? && s.section.owner == t
  }

  predicate At(s: State, t: Tid, p: Pc) {
    t in s.pc && s.pc[t] == p
  }

  predicate Enabled(s: State, a: Action) {
    match a
    case RdLock(t) => At(s, t, Idle)
    case TryRdLock(t) => At(s, t, Idle)
    case WrLock(t) => At(s, t, Idle)
    case TryWrLock(t) => At(s, t, Idle)
    case RdUnlock(t) => At(s, t, ReadHeld)
    case WrUnlock(t) => At(s, t, WriteHeld) && !IsOwner(s, t)
    case Downgrade(t) => At(s, t, WriteHeld) && !IsOwner(s, t)
    case TestEvent(t) => t in s.pc && s.pc[t].ReadCheck? && !IsOwner(s, t)
    case ReadWoken(t) => t in s.pc && s.pc[t].ReadSleep?
    case WriteWoken(t) => At(s, t, WriteSleep)
    case Enqueue(t) => s.section.Free? && t in s.pc && (s.pc[t].ReadFailed? || s.pc[t].WriteFailed?)
    case EnterWake(t) => s.section.Free? && At(s, t, WakePending)
    case EnterDowngrade(t) => s.section.Free? && At(s, t, DowngradePending)
    case Relock(t) => s.section.Free? && At(s, t, WriteAwake)
    case Advance => !s.section.Free? && SectionDefined(s)
  }

  /** What the section's step dereferences exists. */
  predicate SectionDefined(s: State)
    requires !s.section.Free?
  {
    s.section.owner in s.pc &&
    match s.section
    case Wake(_, _) => s.queue != []
    case Clear(_, w, d) => w <= |s.queue| && (d < w ==> s.queue[d].tid in s.pc)
    case Pulse(_, w, d) => d < |s.queue|
    case _ => true
  }

  function Apply(s: State, a: Action): State
    requires Enabled(s, a)
  {
    match a
    case RdLock(t) =>
      var c := s.count + READ_BIAS;
      s.(count := c, pc := s.pc[t := if c <= 0 then ReadFailed else ReadHeld])
    case TryRdLock(t) =>
      if s.count >= 0 then s.(count := s.count + READ_BIAS, pc := s.pc[t := ReadHeld]) else s
    case WrLock(t) =>
      var c := s.count + WRITE_BIAS;
      s.(count := c, pc := s.pc[t := if c != WRITE_BIAS then WriteFailed else WriteHeld])
    case TryWrLock(t) =>
      if s.count == 0 then s.(count := WRITE_BIAS, pc := s.pc[t := WriteHeld]) else s
    case RdUnlock(t) =>
      var c := s.count - READ_BIAS;
      s.(count := c, pc := s.pc[t := if c < -1 && !Masked(c) then WakePending else Idle])
    case WrUnlock(t) =>
      var c := s.count - WRITE_BIAS;
      s.(count := c, pc := s.pc[t := if c < 0 then WakePending else Idle])
    case Downgrade(t) =>
      var c := s.count - WAITING_BIAS;
      s.(count := c, pc := s.pc[t := if c < 0 then DowngradePending else ReadHeld])
    case TestEvent(t) =>
      s.(pc := s.pc[t := if s.pc[t].granted then ReadHeld else ReadSleep(false)])
    case ReadWoken(t) =>
      s.(pc := s.pc[t := ReadCheck(s.pc[t].granted)], pulsed := s.pulsed - {t})
    case WriteWoken(t) =>
      s.(pc := s.pc[t := WriteAwake], pulsed := s.pulsed - {t})
    case Enqueue(t) =>
      var kind := if s.pc[t].ReadFailed? then ForRead else ForWrite;
      s.(section := Enqueued(t, kind, s.queue == []),
         queue := s.queue + [Waiter(t, kind)],
         pulsed := s.pulsed - {t})               // the event is a fresh one
    case EnterWake(t) =>
      s.(pc := s.pc[t := Waking], section := if s.queue == [] then Leave(t) else Wake(t, Any))
    case EnterDowngrade(t) =>
      s.(section := if s.queue == [] then Leave(t) else Wake(t, ReadOwned))
    case Relock(t) =>
      s.(pc := s.pc[t := WriteQueued], section := Reread(t))
    case Advance => Continue(s)
  }

  /** The next step of the owner of `wait_lock`. */
  function Continue(s: State): State
    requires !s.section.Free? && SectionDefined(s)
  {
    match s.section
    case Enqueued(o, ForRead, wasEmpty) =>
      var c := s.count - READ_BIAS + (if wasEmpty then WAITING_BIAS else 0);
      s.(count := c, pc := s.pc[o := ReadCheck(false)],
         section := if c == WAITING_BIAS || (c > WAITING_BIAS && wasEmpty) then Wake(o, Any) else Leave(o))
    case Enqueued(o, ForWrite, wasEmpty) =>
      var c := s.count - WRITE_BIAS + (if wasEmpty then WAITING_BIAS else 0);
      s.(count := c, pc := s.pc[o := WriteQueued], local := c,
         section := if c > WAITING_BIAS && !wasEmpty then Wake(o, Readers) else WriteTry(o))
    case Wake(o, mode) =>
      if s.queue[0].kind == ForWrite then
        s.(pulsed := if mode == Any then s.pulsed + {s.queue[0].tid} else s.pulsed, section := Return(s, o))
      else
        s.(section := if mode == ReadOwned then Grant(o, true) else TryGrant(o))
    case TryGrant(o) =>
      s.(count := s.count + READ_BIAS, section := if s.count < WAITING_BIAS then Undo(o) else Grant(o, false))
    case Undo(o) =>
      var c := s.count - READ_BIAS;
      s.(count := c, section := if Masked(c) then Return(s, o) else TryGrant(o))
    case Grant(o, owned) =>
      var woken := LeadingReaders(s.queue);
      var adjustment := woken - (if owned then 0 else READ_BIAS) - (if woken == |s.queue| then WAITING_BIAS else 0);
      s.(count := s.count + adjustment, section := Clear(o, woken, 0))
    case Clear(o, woken, done) =>
      if done < woken then
        var t := s.queue[done].tid;
        s.(pc := s.pc[t := Granted(s.pc[t])], section := Pulse(o, woken, done))
      else
        s.(queue := s.queue[woken..], section := Return(s, o))
    case Pulse(o, woken, done) =>
      s.(pulsed := s.pulsed + {s.queue[done].tid}, section := Clear(o, woken, done + 1))
    case Reread(o) =>
      s.(local := s.count, section := WriteTry(o))
    case WriteTry(o) =>
      if !Masked(s.local) && s.count == WAITING_BIAS then
        s.(count := WRITE_BIAS + (if |s.queue| > 1 then WAITING_BIAS else 0),
           pc := s.pc[o := WriteHeld], queue := Without(s.queue, o), section := Leave(o))
      else
        s.(section := Leave(o))
    case Leave(o) =>
      s.(section := Free, pc := s.pc[o := Released(s.pc[o])])
  }

  /** `__rwlock_do_wake` returns: a queued writer goes on to try for the lock, the others are done. */
  function Return(s: State, o: Tid): Section
    requires o in s.pc
  {
    if s.pc[o] == WriteQueued then WriteTry(o) else Leave(o)
  }

  function Granted(p: Pc): Pc {
    match p
    case ReadCheck(_) => ReadCheck(true)
    case ReadSleep(_) => ReadSleep(true)
    case _ => p
  }

  /** Where releasing `wait_lock` leads. */
  function Released(p: Pc): Pc {
    match p
    case WriteQueued => WriteSleep
    case Waking => Idle
    case DowngradePending => ReadHeld
    case _ => p
  }

  /** The readers at the front of the list, up to the first writer. */
  function LeadingReaders(q: seq<Waiter>): (n: nat)
    ensures n <= |q|
    ensures forall i :: 0 <= i < n ==> q[i].kind == ForRead
    ensures n < |q| ==> q[n].kind == ForWrite
  {
    if q == [] || q[0].kind == ForWrite then 0
    else
      var n := LeadingReaders(q[1..]);
      assert q[0].kind.ForRead?;
      assert forall i :: 1 <= i < n + 1 ==> q[i] == q[1..][i - 1];
      1 + n
  }

  function Without(q: seq<Waiter>, t: Tid): seq<Waiter> {
    if q == [] then [] else if q[0].tid == t then q[1..] else [q[0]] + Without(q[1..], t)
  }

  lemma {:induction false} WithoutSplits(q: seq<Waiter>, i: nat)
    requires i < |q| && forall j :: 0 <= j < i ==> q[j].tid != q[i].tid
    ensures Without(q, q[i].tid) == q[..i] + q[i + 1..]
  {
    if i > 0 {
      WithoutSplits(q[1..], i - 1);
      assert q[1..][..i - 1] == q[1..i];
      assert q[1..][i..] == q[i + 1..];
      assert [q[0]] + q[1..i] == q[..i];
    }
  }
}

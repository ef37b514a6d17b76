/**
 Reference-counted objects (kernel/refobj.c) under their upgradeable lock
 (k_rwlock_* in kernel/thread.c), as a state machine with one action per step
 other threads can see.  The raw lock is the one of `RwLock`: holders for
 reading, or one holder for writing.  The object is of the kind that modifies
 synchronously.
 */
module RefObj {
  import opened Common

  type Cid = int

  /** A queued call, an operation under the read or write lock, or aosl_ref_destroy; `own`: references its thread holds besides. */
  datatype Kind = Queued | Reader | Writer | Destroyer(delete: bool, own: nat)

  predicate Deletes(kind: Kind) {
    kind.Destroyer? && kind.delete
  }

  datatype Pc =
    | Begin                  // about to look the object up
    | Got                    // has a reference
    | Reading                // has the read lock, about to test `destroyed`
    | Live                   // in the user's function, under the read lock
    | ReadOver(live: bool)   // about to release the read lock
    // k_rwlock_rd2wrlock, write operation, k_rwlock_wr2rdlock, from within the function
    | Trying                 // about to try rw->lk
    | Claimed                // has rw->lk, about to set rd2wrlock_count
    | Marked                 // about to release the read lock
    | Between                // about to take the write lock
    | UpTesting              // has the write lock, about to test `destroyed` and abort
    | UpLive                 // in the write operation
    | UpOver                 // about to release the write lock
    | Back                   // about to take the read lock
    | Unmarking              // about to clear rd2wrlock_count
    | Unclaiming             // about to release rw->lk
    // k_rwlock_wrlock
    | Locking                // about to take rw->lk
    | HasLk                  // about to try the write lock
    | Writing                // has the write lock, about to test or set `destroyed`
    | WriteLive              // in the user's function, under the write lock
    | WriteOver(ok: bool)    // about to release the write lock
    | Unlocking(ok: bool)    // about to release rw->lk
    // aosl_ref_destroy
    | Uninstalling           // about to take the id out of the table
    | Testing                // about to test `destroyed` without the lock
    | Dropping               // about to put the reference of the creator
    | Waiting                // caller_free: waits for the others to let go
    | Putting(live: bool)    // about to put its reference
    | FreeRun                // a queued call runs with the free-only object
    | Done(ok: bool)

  datatype Client = Client(kind: Kind, pc: Pc, seen: nat)    // seen: `writes` when its section began

  /** k_rwlock_t: rw->lk, rd2wrlock_count, the holders of rw->rw, and how many write sections there were. */
  datatype Lock = Lock(lk: Option<Cid>, upgrading: bool, readers: set<Cid>, writer: Option<Cid>, writes: nat)

  /** struct refobj; `kept`: the creator's reference is not put yet; `freed`: how often it was freed. */
  datatype Obj = Obj(installed: bool, destroyed: bool, usage: int, kept: bool, freed: nat)

  datatype State = State(callerFree: bool, lock: Lock, obj: Obj, client: map<Cid, Client>, aborted: bool)

  /** refobj_create */
  function Created(callerFree: bool): State {
    State(callerFree, Lock(None, false, {}, None, 0), Obj(true, false, 1, true, 0), map[], false)
  }

  datatype Action = New(c: Cid, kind: Kind) | Next(c: Cid, again: bool)

  predicate NobodyIn(l: Lock) {
    l.writer.None? && l.readers == {}
  }

  predicate Ready(callerFree: bool, l: Lock, o: Obj, k: Client) {
    match k.pc
    case Got => k.kind.Queued? || k.kind.Reader? ==> l.writer.None?
    case Between => NobodyIn(l)
    case Back => l.writer.None?
    case Locking => l.lk.None?
    case Waiting => !callerFree || !k.kind.Destroyer? || o.usage <= 1 + k.kind.own
    case Done(_) => false
    case _ => true
  }

  /** Where the next step leads; `again` chooses another write operation, or a failed try, where there is a choice. */
  function NextPc(l: Lock, o: Obj, k: Client, again: bool): Pc {
    match k.pc
    case Begin => if o.installed then Got else if k.kind.Queued? then FreeRun else Done(false)
    case Got =>
      (match k.kind
       case Queued => Reading
       case Reader => Reading
       case Writer => Locking
       case Destroyer(delete, _) => if delete then Uninstalling else Testing)
    case Reading => if o.destroyed then ReadOver(false) else Live
    case Live => if again && k.kind.Queued? then Trying else ReadOver(true)
    case ReadOver(live) => Putting(live)
    case Trying => if l.lk.None? then Claimed else Trying
    case Claimed => Marked
    case Marked => Between
    case Between => UpTesting
    case UpTesting => if o.destroyed then UpTesting else UpLive
    case UpLive => UpOver
    case UpOver => Back
    case Back => Unmarking
    case Unmarking => Unclaiming
    case Unclaiming => Live
    case Locking => HasLk
    case HasLk => if !again && NobodyIn(l) then Writing else Locking
    case Writing => if k.kind.Destroyer? then WriteOver(!o.destroyed) else if o.destroyed then WriteOver(false) else WriteLive
    case WriteLive => WriteOver(true)
    case WriteOver(ok) => Unlocking(ok)
    case Unlocking(ok) => if Deletes(k.kind) then Dropping else Putting(ok)
    case Uninstalling => if o.installed then Testing else Putting(false)
    case Testing => if !o.destroyed then Locking else if Deletes(k.kind) then Dropping else Putting(false)
    case Dropping => Waiting
    case Waiting => Putting(true)
    case Putting(live) => if k.kind.Queued? && !live then FreeRun else Done(live)
    case FreeRun => Done(false)
    case Done(ok) => Done(ok)
  }

  function NextLock(l: Lock, c: Cid, k: Client, again: bool): Lock {
    match k.pc
    case Got => if k.kind.Queued? || k.kind.Reader? then l.(readers := l.readers + {c}) else l
    case ReadOver(_) => l.(readers := l.readers - {c})
    case Trying => if l.lk.None? then l.(lk := Some(c)) else l
    case Claimed => l.(upgrading := true)
    case Marked => l.(readers := l.readers - {c})
    case Between => l.(writer := Some(c), writes := l.writes + 1)
    case UpOver => l.(writer := None)
    case Back => l.(readers := l.readers + {c})
    case Unmarking => l.(upgrading := false)
    case Unclaiming => l.(lk := None)
    case Locking => l.(lk := Some(c))
    case HasLk => if !again && NobodyIn(l) then l.(writer := Some(c), writes := l.writes + 1) else l.(lk := None)
    case WriteOver(_) => l.(writer := None)
    case Unlocking(_) => l.(lk := None)
    case _ => l
  }

  /** __refobj_put */
  function Put(o: Obj): Obj {
    o.(usage := o.usage - 1, freed := if o.usage - 1 == 0 then o.freed + 1 else o.freed)
  }

  function NextObj(o: Obj, k: Client): Obj {
    match k.pc
    case Begin => if o.installed then o.(usage := o.usage + 1) else o
    case Writing => if k.kind.Destroyer? then o.(destroyed := true) else o
    case Uninstalling => o.(installed := false)
    case Dropping => Put(o).(kept := false)
    case Putting(_) => Put(o)
    case _ => o
  }

  /** A reader notes how many write sections it has seen. */
  function NextSeen(l: Lock, k: Client): nat {
    if k.pc.Got? || k.pc.Back? then l.writes else k.seen
  }

  /** abort() in k_rwlock_rd2wrlock, and the one in refobj_wrlock. */
  predicate Aborts(l: Lock, o: Obj, k: Client) {
    (k.pc.Trying? && l.lk.Some? && l.upgrading) || (k.pc.UpTesting? && o.destroyed)
  }

  predicate Can(s: State, a: Action) {
    match a
    case New(c, _) => c !in s.client
    case Next(c, _) => c in s.client && Ready(s.callerFree, s.lock, s.obj, s.client[c])
  }

  function Do(s: State, a: Action): State
    requires Can(s, a)
  {
    match a
    case New(c, kind) => s.(client := s.client[c := Client(kind, Begin, 0)])
    case Next(c, again) =>
      var k := s.client[c];
      State(s.callerFree, NextLock(s.lock, c, k, again), NextObj(s.obj, k),
            s.client[c := Client(k.kind, NextPc(s.lock, s.obj, k, again), NextSeen(s.lock, k))],
            s.aborted || Aborts(s.lock, s.obj, k))
  }

  ghost predicate Run(callerFree: bool, states: seq<State>, actions: seq<Action>) {
    && |states| == |actions| + 1 && states[0] == Created(callerFree)
    && forall i :: 0 <= i < |actions| ==> Can(states[i], actions[i]) && states[i + 1] == Do(states[i], actions[i])
  }

  // ---- What a client holds at each point ------------------------------------------------------

  predicate HasRead(pc: Pc) {
    pc.Reading? || pc.Live? || pc.ReadOver? || pc.Trying? || pc.Claimed? || pc.Marked? || pc.Unmarking? || pc.Unclaiming?
  }

  predicate HasWrite(pc: Pc) {
    pc.UpTesting? || pc.UpLive? || pc.UpOver? || pc.Writing? || pc.WriteLive? || pc.WriteOver?
  }

  predicate HasLock(pc: Pc) {
    HasWrite(pc) || pc.Claimed? || pc.Marked? || pc.Between? || pc.Back? || pc.Unmarking? || pc.Unclaiming? || pc.HasLk? || pc.Unlocking?
  }

  predicate IsMarked(pc: Pc) {
    pc.Marked? || pc.Between? || pc.UpTesting? || pc.UpLive? || pc.UpOver? || pc.Back? || pc.Unmarking?
  }

  predicate HasRef(pc: Pc) {
    !pc.Begin? && !pc.Done? && !pc.FreeRun?
  }

  /** In a function that was given the live object, or between the two halves of an upgrade. */
  predicate Inside(pc: Pc) {
    || pc.Live? || pc.Trying? || pc.Claimed? || pc.Marked? || pc.Between? || pc.UpTesting? || pc.UpLive? || pc.UpOver?
    || pc.Back? || pc.Unmarking? || pc.Unclaiming? || pc.WriteLive?
  }

  /** The user's function is running with the live object. */
  predicate RunsLive(pc: Pc) {
    pc.Live? || pc.UpLive? || pc.WriteLive?
  }
}

/** What every run of a reference object keeps. */
module RefObjProof {
  import opened Common
  import opened RefObj
  import opened RawLock

  // ---- Who holds what ------------------------------------------------------------------------

  /** The lock's fields say of this client what its place in the code says. */
  predicate Agrees(l: Lock, c: Cid, k: Client) {
    && (c in l.readers <==> HasRead(k.pc))
    && (l.writer == Some(c) <==> HasWrite(k.pc))
    && (l.lk == Some(c) <==> HasLock(k.pc))
    && (l.lk == Some(c) ==> (l.upgrading <==> IsMarked(k.pc)))
  }

  predicate LockOk(l: Lock) {
    (l.writer.Some? ==> l.readers == {} && l.lk == l.writer) && (l.lk.None? ==> !l.upgrading)
  }

  /** Each kind of client has its own part of the code. */
  predicate KindOk(k: Client) {
    match k.kind
    case Queued => !WritePath(k.pc) && !DestroyPath(k.pc) && !k.pc.WriteLive?
    case Reader => !WritePath(k.pc) && !DestroyPath(k.pc) && !k.pc.WriteLive? && !UpPath(k.pc) && !k.pc.FreeRun?
    case Writer => !ReadPath(k.pc) && !UpPath(k.pc) && !DestroyPath(k.pc) && !k.pc.FreeRun?
    case Destroyer(delete, _) =>
      && !ReadPath(k.pc) && !UpPath(k.pc) && !k.pc.WriteLive? && !k.pc.FreeRun?
      && (!delete ==> k.pc.Testing? || !DestroyPath(k.pc))
  }

  predicate ReadPath(pc: Pc) {
    pc.Reading? || pc.Live? || pc.ReadOver?
  }

  /** In an upgrade, from the first try to the last release. */
  predicate UpPath(pc: Pc) {
    || pc.Trying? || pc.Claimed? || pc.Marked? || pc.Between? || pc.UpTesting? || pc.UpLive? || pc.UpOver?
    || pc.Back? || pc.Unmarking? || pc.Unclaiming?
  }

  predicate WritePath(pc: Pc) {
    pc.Locking? || pc.HasLk? || pc.Writing? || pc.WriteOver? || pc.Unlocking?
  }

  predicate DestroyPath(pc: Pc) {
    pc.Uninstalling? || pc.Testing? || pc.Dropping? || pc.Waiting?
  }

  ghost predicate Locks(s: State) {
    && LockOk(s.lock)
    && (forall c :: c in s.client ==> Agrees(s.lock, c, s.client[c]) && KindOk(s.client[c]))
    && (forall c :: c in s.lock.readers ==> c in s.client)
    && (s.lock.lk.Some? ==> s.lock.lk.value in s.client)
  }

  function After(s: State, c: Cid, again: bool): Client
    requires c in s.client
  {
    var k := s.client[c];
    Client(k.kind, NextPc(s.lock, s.obj, k, again), NextSeen(s.lock, k))
  }

  lemma KindKept(l: Lock, o: Obj, k: Client, again: bool, seen: nat)
    requires KindOk(k)
    ensures KindOk(Client(k.kind, NextPc(l, o, k, again), seen))
  {
  }

  lemma AgreesSelf(callerFree: bool, l: Lock, o: Obj, c: Cid, k: Client, again: bool, seen: nat)
    requires Agrees(l, c, k) && LockOk(l) && KindOk(k) && Ready(callerFree, l, o, k)
    ensures Agrees(NextLock(l, c, k, again), c, Client(k.kind, NextPc(l, o, k, again), seen))
  {
  }

  lemma AgreesOther(callerFree: bool, l: Lock, o: Obj, c: Cid, k: Client, again: bool, d: Cid, m: Client)
    requires c != d && Agrees(l, c, k) && Agrees(l, d, m) && LockOk(l) && Ready(callerFree, l, o, k)
    ensures Agrees(NextLock(l, c, k, again), d, m)
  {
  }

  lemma LockKept(callerFree: bool, l: Lock, o: Obj, c: Cid, k: Client, again: bool)
    requires Agrees(l, c, k) && LockOk(l) && KindOk(k) && Ready(callerFree, l, o, k)
    ensures LockOk(NextLock(l, c, k, again))
  {
  }

  lemma LocksKept(s: State, a: Action)
    requires Locks(s) && Can(s, a)
    ensures Locks(Do(s, a))
  {
    match a
    case New(c, kind) =>
    case Next(c, again) =>
      var k := s.client[c];
      assert Agrees(s.lock, c, k) && KindOk(k);
      LockKept(s.callerFree, s.lock, s.obj, c, k, again);
      AgreesSelf(s.callerFree, s.lock, s.obj, c, k, again, NextSeen(s.lock, k));
      KindKept(s.lock, s.obj, k, again, NextSeen(s.lock, k));
      forall d | d in s.client && d != c ensures Agrees(NextLock(s.lock, c, k, again), d, s.client[d]) {
        AgreesOther(s.callerFree, s.lock, s.obj, c, k, again, d, s.client[d]);
      }
      LockNames(s.lock, c, k, again);
      hide Agrees, LockOk, KindOk, NextLock, NextPc, NextObj, Ready;
  }

  lemma LockNames(l: Lock, c: Cid, k: Client, again: bool)
    ensures var l' := NextLock(l, c, k, again); l'.readers <= l.readers + {c} && (l'.lk.Some? ==> l'.lk == l.lk || l'.lk == Some(c))
  {
  }

  // ---- A destroyed object is nobody's live object ------------------------------------------------

  ghost predicate Apart(s: State) {
    s.obj.destroyed ==> forall c :: c in s.client ==> !Inside(s.client[c].pc)
  }

  /** Whoever is inside keeps the destroyer's write lock away. */
  lemma InsideExcludes(s: State, c: Cid, d: Cid)
    requires Locks(s) && c in s.client && s.client[c].pc.Writing? && d in s.client && d != c
    ensures !Inside(s.client[d].pc)
  {
    assert Agrees(s.lock, c, s.client[c]) && Agrees(s.lock, d, s.client[d]);
  }

  lemma ApartKept(s: State, a: Action)
    requires Locks(s) && Apart(s) && Can(s, a)
    ensures Apart(Do(s, a))
  {
    if a.Next? {
      var c := a.c;
      var k := s.client[c];
      assert KindOk(k);
      if k.pc.Writing? {
        forall d | d in s.client && d != c ensures !Inside(s.client[d].pc) {
          InsideExcludes(s, c, d);
        }
      }
      assert s.obj.destroyed || k.pc.Writing? || !NextObj(s.obj, k).destroyed;
      assert NextObj(s.obj, k).destroyed && (s.obj.destroyed ==> !Inside(k.pc)) ==> !Inside(NextPc(s.lock, s.obj, k, a.again));
      hide Locks, NextPc, NextObj, NextLock, Inside;
    }
  }

  // ---- Sections see no foreign writer --------------------------------------------------------------

  predicate SeesAll(l: Lock, k: Client) {
    && (HasRead(k.pc) || k.pc.Between? ==> l.writes == k.seen)
    && (k.pc.UpTesting? || k.pc.UpLive? || k.pc.UpOver? || k.pc.Back? ==> l.writes == k.seen + 1)
  }

  ghost predicate Seeing(s: State) {
    forall c :: c in s.client ==> SeesAll(s.lock, s.client[c])
  }

  lemma SeesSelf(callerFree: bool, l: Lock, o: Obj, c: Cid, k: Client, again: bool)
    requires Agrees(l, c, k) && KindOk(k) && SeesAll(l, k) && Ready(callerFree, l, o, k)
    ensures SeesAll(NextLock(l, c, k, again), Client(k.kind, NextPc(l, o, k, again), NextSeen(l, k)))
  {
  }

  lemma SeesOther(callerFree: bool, l: Lock, o: Obj, c: Cid, k: Client, again: bool, d: Cid, m: Client)
    requires c != d && Agrees(l, c, k) && Agrees(l, d, m) && LockOk(l) && SeesAll(l, m) && Ready(callerFree, l, o, k)
    ensures SeesAll(NextLock(l, c, k, again), m)
  {
  }

  lemma SeeingKept(s: State, a: Action)
    requires Locks(s) && Seeing(s) && Can(s, a)
    ensures Seeing(Do(s, a))
  {
    match a
    case New(c, kind) =>
    case Next(c, again) =>
      var k := s.client[c];
      assert Agrees(s.lock, c, k) && KindOk(k);
      SeesSelf(s.callerFree, s.lock, s.obj, c, k, again);
      forall d | d in s.client && d != c ensures SeesAll(NextLock(s.lock, c, k, again), s.client[d]) {
        assert Agrees(s.lock, d, s.client[d]);
        SeesOther(s.callerFree, s.lock, s.obj, c, k, again, d, s.client[d]);
      }
      hide Locks, SeesAll, NextLock, NextPc, NextObj, Ready;
  }

  // ---- References -------------------------------------------------------------------------------------

  ghost function Holders(client: map<Cid, Client>): set<Cid> {
    set c | c in client && HasRef(client[c].pc)
  }

  function One(b: bool): int {
    if b then 1 else 0
  }

  lemma HoldersSet(client: map<Cid, Client>, c: Cid, k: Client)
    ensures |Holders(client[c := k])| == |Holders(client)| + One(HasRef(k.pc)) - One(c in client && HasRef(client[c].pc))
  {
    hide HasRef;
    var rest := Holders(client) - {c};
    assert Holders(client) == if c in client && HasRef(client[c].pc) then rest + {c} else rest;
    assert Holders(client[c := k]) == if HasRef(k.pc) then rest + {c} else rest;
  }

  /** Between taking the id out of the table and putting the creator's reference. */
  predicate Deleting(k: Client) {
    Deletes(k.kind) && (k.pc.Testing? || WritePath(k.pc) || k.pc.Dropping?)
  }

  predicate ObjOk(o: Obj, holders: nat) {
    && o.usage == One(o.kept) + holders
    && o.freed == One(o.usage == 0)
    && (o.installed ==> o.kept)
  }

  ghost predicate Counted(s: State) {
    && ObjOk(s.obj, |Holders(s.client)|)
    && (forall c :: c in s.client && Deleting(s.client[c]) ==> s.obj.kept && !s.obj.installed)
    && (forall c, d :: c in s.client && d in s.client && Deleting(s.client[c]) && Deleting(s.client[d]) ==> c == d)
  }

  lemma ObjKept(l: Lock, o: Obj, k: Client, again: bool, holders: nat)
    requires ObjOk(o, holders) && KindOk(k) && (Deleting(k) ==> o.kept && !o.installed) && (HasRef(k.pc) ==> holders >= 1)
    ensures var pc := NextPc(l, o, k, again);
      var n := holders + One(HasRef(pc)) - One(HasRef(k.pc));
      n >= 0 && ObjOk(NextObj(o, k), n)
  {
    RefSteps(l, o, k, again);
    UsageSteps(o, k);
    hide NextPc, NextObj, KindOk, Deleting, HasRef;
  }

  /** Where a client gets its reference and where it puts it. */
  lemma RefSteps(l: Lock, o: Obj, k: Client, again: bool)
    requires KindOk(k)
    ensures One(HasRef(NextPc(l, o, k, again))) - One(HasRef(k.pc)) == One(k.pc.Begin? && o.installed) - One(k.pc.Putting?)
    ensures k.pc.Putting? || k.pc.Dropping? ==> HasRef(k.pc)
  {
  }

  lemma UsageSteps(o: Obj, k: Client)
    requires KindOk(k) && (Deleting(k) ==> o.kept && !o.installed) && (o.installed ==> o.kept)
    ensures var o' := NextObj(o, k);
      && (k.pc.Dropping? ==> o.kept) && o'.kept == (o.kept && !k.pc.Dropping?) && (o'.installed ==> o'.kept)
      && o'.usage == o.usage + One(k.pc.Begin? && o.installed) - One(k.pc.Putting?) - One(k.pc.Dropping?)
      && o'.freed == o.freed + One((k.pc.Putting? || k.pc.Dropping?) && o'.usage == 0)
  {
  }

  lemma DeletingSteps(l: Lock, o: Obj, k: Client, again: bool, seen: nat)
    requires KindOk(k) && (Deleting(k) ==> o.kept && !o.installed) && (o.installed ==> o.kept)
    ensures var k', o' := Client(k.kind, NextPc(l, o, k, again), seen), NextObj(o, k);
      && (Deleting(k') ==> (Deleting(k) || o.installed) && o'.kept && !o'.installed)
      && (!o.installed ==> !o'.installed) && (o.kept && !o'.kept ==> Deleting(k))
  {
  }

  lemma OneDeletes(s: State, c: Cid, k': Client, o': Obj)
    requires Counted(s) && c in s.client
    requires Deleting(k') ==> (Deleting(s.client[c]) || s.obj.installed) && o'.kept && !o'.installed
    requires (!s.obj.installed ==> !o'.installed) && (s.obj.kept && !o'.kept ==> Deleting(s.client[c]))
    requires s.obj.kept || !o'.kept
    ensures forall d :: d in s.client && d != c && Deleting(s.client[d]) ==> o'.kept && !o'.installed && !Deleting(k')
  {
    hide Deleting, ObjOk;
  }

  lemma NeverKeptAgain(o: Obj, k: Client)
    ensures o.kept || !NextObj(o, k).kept
  {
  }

  lemma HolderKnown(client: map<Cid, Client>, c: Cid)
    requires c in client && HasRef(client[c].pc)
    ensures |Holders(client)| >= 1
  {
    assert c in Holders(client);
  }

  lemma CountedNext(s: State, c: Cid, again: bool)
    requires Counted(s) && Can(s, Next(c, again)) && KindOk(s.client[c])
    ensures Counted(Do(s, Next(c, again)))
  {
    var k := s.client[c];
    var k' := After(s, c, again);
    hide Locks, NextLock, NextPc, NextObj, Ready, HasRef, Deleting, KindOk, Holders;
    if HasRef(k.pc) {
      HolderKnown(s.client, c);
    }
    NeverKeptAgain(s.obj, k);
    HoldersSet(s.client, c, k');
    ObjKept(s.lock, s.obj, k, again, |Holders(s.client)|);
    DeletingSteps(s.lock, s.obj, k, again, NextSeen(s.lock, k));
    OneDeletes(s, c, k', NextObj(s.obj, k));
    hide ObjOk, NextSeen, Aborts;
    CountedSet(s, Do(s, Next(c, again)), c, k', NextObj(s.obj, k));
  }

  lemma CountedSet(s: State, s': State, c: Cid, k': Client, o': Obj)
    requires Counted(s) && c in s.client && s'.client == s.client[c := k'] && s'.obj == o' && ObjOk(o', |Holders(s'.client)|)
    requires Deleting(k') ==> o'.kept && !o'.installed
    requires forall d :: d in s.client && d != c && Deleting(s.client[d]) ==> o'.kept && !o'.installed && !Deleting(k')
    ensures Counted(s')
  {
    hide ObjOk, Deleting, Holders;
  }

  lemma CountedKept(s: State, a: Action)
    requires Locks(s) && Counted(s) && Can(s, a)
    ensures Counted(Do(s, a))
  {
    match a
    case New(c, kind) => HoldersSet(s.client, c, Client(kind, Begin, 0));
    case Next(c, again) =>
      assert KindOk(s.client[c]);
      CountedNext(s, c, again);
  }

  // ---- What a destroyer leaves behind ------------------------------------------------------------------

  /** Past its write section, or past the test that made it needless. */
  predicate Destroyed(k: Client) {
    && k.kind.Destroyer?
    && (k.pc.WriteOver? || k.pc.Unlocking? || k.pc.Dropping? || k.pc.Waiting? || k.pc == Putting(true) || k.pc == Done(true))
  }

  predicate Leaves(callerFree: bool, o: Obj, k: Client) {
    && (Destroyed(k) ==> o.destroyed)
    && (Deletes(k.kind) && (k.pc.Waiting? || k.pc == Putting(true) || k.pc == Done(true)) ==> !o.installed && !o.kept)
    && (callerFree && Deletes(k.kind) && k.pc == Putting(true) ==> o.usage <= 1 + k.kind.own)
    && (callerFree && Deletes(k.kind) && k.pc == Done(true) ==> o.usage <= k.kind.own)
  }

  ghost predicate Left(s: State) {
    forall c :: c in s.client ==> Leaves(s.callerFree, s.obj, s.client[c])
  }

  lemma LeavesSelf(callerFree: bool, l: Lock, o: Obj, k: Client, again: bool, holders: nat, seen: nat)
    requires KindOk(k) && Leaves(callerFree, o, k) && Ready(callerFree, l, o, k) && ObjOk(o, holders) && (HasRef(k.pc) ==> holders >= 1)
    requires Deleting(k) ==> !o.installed
    ensures Leaves(callerFree, NextObj(o, k), Client(k.kind, NextPc(l, o, k, again), seen))
  {
  }

  /** What a step of a client can do to the object. */
  lemma ObjSteps(o: Obj, k: Client)
    requires KindOk(k)
    ensures var o' := NextObj(o, k);
      && (o.destroyed ==> o'.destroyed) && (!o.installed ==> !o'.installed && o'.usage <= o.usage) && (!o.kept ==> !o'.kept)
      && (o'.usage != o.usage && o'.usage <= o.usage ==> HasRef(k.pc) && o'.usage == o.usage - 1)
      && o'.freed == if o'.usage == o.usage - 1 && o'.usage == 0 then o.freed + 1 else o.freed
  {
  }

  lemma LeavesOther(callerFree: bool, o: Obj, k: Client, m: Client, holders: nat)
    requires KindOk(k) && Leaves(callerFree, o, m) && ObjOk(o, holders) && (HasRef(k.pc) ==> holders >= 1)
    ensures Leaves(callerFree, NextObj(o, k), m) || (Deletes(m.kind) && HasRef(m.pc) && holders <= 1 && HasRef(k.pc))
  {
    ObjSteps(o, k);
    hide NextObj, KindOk, Destroyed;
  }

  lemma TwoHolders(s: State, c: Cid, d: Cid)
    requires c in s.client && d in s.client && c != d && HasRef(s.client[c].pc) && HasRef(s.client[d].pc)
    ensures |Holders(s.client)| >= 2
  {
    assert {c, d} <= Holders(s.client);
    assert Holders(s.client) == {c, d} + (Holders(s.client) - {c, d});
  }

  lemma LeftKept(s: State, a: Action)
    requires Locks(s) && Counted(s) && Left(s) && Can(s, a)
    ensures Left(Do(s, a))
  {
    match a
    case New(c, kind) =>
    case Next(c, again) =>
      var k := s.client[c];
      assert KindOk(k) && Leaves(s.callerFree, s.obj, k);
      assert HasRef(k.pc) ==> c in Holders(s.client);
      LeavesSelf(s.callerFree, s.lock, s.obj, k, again, |Holders(s.client)|, NextSeen(s.lock, k));
      forall d | d in s.client && d != c ensures Leaves(s.callerFree, NextObj(s.obj, k), s.client[d]) {
        LeavesOther(s.callerFree, s.obj, k, s.client[d], |Holders(s.client)|);
        if HasRef(k.pc) && HasRef(s.client[d].pc) {
          TwoHolders(s, c, d);
        }
      }
      hide Locks, NextLock, NextPc, NextObj, Ready, HasRef, Deleting, KindOk, Holders, Leaves;
  }

  // ---- Whole runs -----------------------------------------------------------------------------------------

  ghost predicate Inv(s: State) {
    Locks(s) && Apart(s) && Seeing(s) && Counted(s) && Left(s)
  }

  lemma AtStart(callerFree: bool)
    ensures Inv(Created(callerFree))
  {
    assert Holders(Created(callerFree).client) == {};
  }

  lemma Preserved(s: State, a: Action)
    requires Inv(s) && Can(s, a)
    ensures Inv(Do(s, a))
  {
    LocksKept(s, a);
    ApartKept(s, a);
    SeeingKept(s, a);
    CountedKept(s, a);
    LeftKept(s, a);
  }

  lemma {:induction false} Reached(callerFree: bool, states: seq<State>, actions: seq<Action>, i: nat)
    requires Run(callerFree, states, actions) && i < |states|
    ensures Inv(states[i]) && states[i].callerFree == callerFree
  {
    hide Inv;
    if i == 0 {
      AtStart(callerFree);
    } else {
      Reached(callerFree, states, actions, i - 1);
      Preserved(states[i - 1], actions[i - 1]);
    }
  }

  lemma {:induction false} StaysDestroyed(callerFree: bool, states: seq<State>, actions: seq<Action>, i: nat, j: nat)
    requires Run(callerFree, states, actions) && i <= j < |states| && states[i].obj.destroyed
    ensures states[j].obj.destroyed
    decreases j
  {
    if i < j {
      StaysDestroyed(callerFree, states, actions, i, j - 1);
      assert Can(states[j - 1], actions[j - 1]) && states[j] == Do(states[j - 1], actions[j - 1]);
    }
  }

  /** Once aosl_ref_destroy has succeeded, no function runs with the live object, then or ever after. */
  lemma NoLiveAfterDestroy(callerFree: bool, states: seq<State>, actions: seq<Action>, i: nat, j: nat, d: Cid, c: Cid)
    requires Run(callerFree, states, actions) && i <= j < |states| && d in states[i].client && c in states[j].client
    requires states[i].client[d].kind.Destroyer? && states[i].client[d].pc == Done(true)
    ensures !RunsLive(states[j].client[c].pc)
  {
    Reached(callerFree, states, actions, i);
    assert Leaves(callerFree, states[i].obj, states[i].client[d]);
    StaysDestroyed(callerFree, states, actions, i, j);
    Reached(callerFree, states, actions, j);
  }

  /** Two functions never run with the live object together unless both only hold the read lock. */
  lemma LiveApart(callerFree: bool, states: seq<State>, actions: seq<Action>, i: nat, c: Cid, d: Cid)
    requires Run(callerFree, states, actions) && i < |states| && c != d && c in states[i].client && d in states[i].client
    requires RunsLive(states[i].client[c].pc) && RunsLive(states[i].client[d].pc)
    ensures states[i].client[c].pc.Live? && states[i].client[d].pc.Live?
  {
    Reached(callerFree, states, actions, i);
    var s := states[i];
    assert Agrees(s.lock, c, s.client[c]) && Agrees(s.lock, d, s.client[d]);
  }

  /**
   An upgrade is atomic for writers: no write section comes between a thread's read
   section and its write section, in either direction; so the object it upgraded is
   not destroyed when it looks again.
   */
  lemma UpgradeAtomic(callerFree: bool, states: seq<State>, actions: seq<Action>, i: nat, c: Cid)
    requires Run(callerFree, states, actions) && i < |states| && c in states[i].client
    ensures var s, k := states[i], states[i].client[c];
      && (HasRead(k.pc) || k.pc.Between? ==> s.lock.writes == k.seen)
      && (k.pc.UpTesting? || k.pc.UpLive? || k.pc.UpOver? || k.pc.Back? ==> s.lock.writes == k.seen + 1)
      && (k.pc.UpTesting? ==> !s.obj.destroyed)
  {
    Reached(callerFree, states, actions, i);
    assert SeesAll(states[i].lock, states[i].client[c]);
  }

  ghost predicate OneUpgrade(s: State) {
    forall c, d :: c in s.client && d in s.client && UpPath(s.client[c].pc) && UpPath(s.client[d].pc) ==> c == d
  }

  /** With at most one upgrade at a time no abort is reached; a step that aborts finds another upgrade under way. */
  lemma AbortNeedsTwo(callerFree: bool, states: seq<State>, actions: seq<Action>, i: nat)
    requires Run(callerFree, states, actions) && i < |actions| && actions[i].Next?
    requires var k := states[i].client[actions[i].c]; Aborts(states[i].lock, states[i].obj, k)
    ensures states[i].lock.lk.Some? && states[i].lock.lk.value != actions[i].c && states[i].lock.lk.value in states[i].client
    ensures UpPath(states[i].client[actions[i].c].pc) && UpPath(states[i].client[states[i].lock.lk.value].pc)
  {
    Reached(callerFree, states, actions, i);
    var s := states[i];
    var c := actions[i].c;
    assert Agrees(s.lock, c, s.client[c]);
    assert Agrees(s.lock, s.lock.lk.value, s.client[s.lock.lk.value]);
  }

  lemma {:induction false} NoAbort(callerFree: bool, states: seq<State>, actions: seq<Action>, i: nat)
    requires Run(callerFree, states, actions) && i < |states| && (forall j :: 0 <= j < i ==> OneUpgrade(states[j]))
    ensures !states[i].aborted
  {
    if i > 0 {
      NoAbort(callerFree, states, actions, i - 1);
      var s, a := states[i - 1], actions[i - 1];
      assert Can(s, a) && states[i] == Do(s, a) && OneUpgrade(s);
      if a.Next? && Aborts(s.lock, s.obj, s.client[a.c]) {
        AbortNeedsTwo(callerFree, states, actions, i - 1);
      }
    }
  }

  /** A step aborts exactly if it tries for an upgrade while another one has rd2wrlock_count set. */
  lemma AbortsExactly(callerFree: bool, states: seq<State>, actions: seq<Action>, i: nat, c: Cid)
    requires Run(callerFree, states, actions) && i < |states| && c in states[i].client
    ensures var s := states[i];
      Aborts(s.lock, s.obj, s.client[c]) <==> s.client[c].pc.Trying? && exists d :: d in s.client && d != c && IsMarked(s.client[d].pc)
  {
    Reached(callerFree, states, actions, i);
    var s := states[i];
    AbortCause(s, c);
    if d :| d in s.client && d != c && IsMarked(s.client[d].pc) {
      assert Agrees(s.lock, d, s.client[d]);
    }
  }

  lemma AbortCause(s: State, c: Cid)
    requires Inv(s) && c in s.client
    ensures Aborts(s.lock, s.obj, s.client[c]) ==>
      s.client[c].pc.Trying? && exists d :: d in s.client && d != c && IsMarked(s.client[d].pc)
  {
    assert Agrees(s.lock, c, s.client[c]);
    if Aborts(s.lock, s.obj, s.client[c]) {
      var d := s.lock.lk.value;
      assert Agrees(s.lock, d, s.client[d]);
    }
  }

  // ---- And two upgrades do abort -------------------------------------------------------------------

  /** Two queued calls in turn, until both are in their functions and try for an upgrade. */
  function RaceAction(c: Cid, d: Cid, i: nat): Action {
    match i
    case 0 => New(c, Queued)
    case 1 => New(d, Queued)
    case 8 => Next(c, true)
    case 9 => Next(d, true)
    case 10 => Next(c, false)
    case 11 => Next(c, false)
    case 12 => Next(d, false)
    case _ => Next(if i % 2 == 0 then c else d, false)
  }

  function Racing(callerFree: bool, lock: Lock, usage: nat, c: Cid, pc: Pc, d: Cid, pc': Pc): State {
    State(callerFree, lock, Obj(true, false, usage, true, 0), map[c := Client(Queued, pc, 0), d := Client(Queued, pc', 0)], false)
  }

  function RaceState(callerFree: bool, c: Cid, d: Cid, i: nat): State {
    var free := Lock(None, false, {}, None, 0);
    var both := Lock(None, false, {c, d}, None, 0);
    match i
    case 0 => Created(callerFree)
    case 1 => Created(callerFree).(client := map[c := Client(Queued, Begin, 0)])
    case 2 => Racing(callerFree, free, 1, c, Begin, d, Begin)
    case 3 => Racing(callerFree, free, 2, c, Got, d, Begin)
    case 4 => Racing(callerFree, free, 3, c, Got, d, Got)
    case 5 => Racing(callerFree, free.(readers := {c}), 3, c, Reading, d, Got)
    case 6 => Racing(callerFree, both, 3, c, Reading, d, Reading)
    case 7 => Racing(callerFree, both, 3, c, Live, d, Reading)
    case 8 => Racing(callerFree, both, 3, c, Live, d, Live)
    case 9 => Racing(callerFree, both, 3, c, Trying, d, Live)
    case 10 => Racing(callerFree, both, 3, c, Trying, d, Trying)
    case 11 => Racing(callerFree, both.(lk := Some(c)), 3, c, Claimed, d, Trying)
    case 12 => Racing(callerFree, both.(lk := Some(c), upgrading := true), 3, c, Marked, d, Trying)
    case _ => Racing(callerFree, both.(lk := Some(c), upgrading := true), 3, c, Marked, d, Trying).(aborted := true)
  }

  ghost predicate RaceStep(callerFree: bool, c: Cid, d: Cid, i: nat) {
    var s, a := RaceState(callerFree, c, d, i), RaceAction(c, d, i);
    Can(s, a) && RaceState(callerFree, c, d, i + 1) == Do(s, a)
  }

  lemma RaceBegins(callerFree: bool, c: Cid, d: Cid, i: nat)
    requires c != d && i < 5
    ensures RaceStep(callerFree, c, d, i)
  {
    var t, s' := Do(RaceState(callerFree, c, d, i), RaceAction(c, d, i)), RaceState(callerFree, c, d, i + 1);
    assert t.client == s'.client && t.lock == s'.lock;
  }

  lemma RaceReads(callerFree: bool, c: Cid, d: Cid, i: nat)
    requires c != d && 5 <= i < 9
    ensures RaceStep(callerFree, c, d, i)
  {
    var t, s' := Do(RaceState(callerFree, c, d, i), RaceAction(c, d, i)), RaceState(callerFree, c, d, i + 1);
    assert t.client == s'.client && t.lock == s'.lock;
  }

  lemma RaceTries(callerFree: bool, c: Cid, d: Cid, i: nat)
    requires c != d && 9 <= i < 13
    ensures RaceStep(callerFree, c, d, i)
  {
    var t, s' := Do(RaceState(callerFree, c, d, i), RaceAction(c, d, i)), RaceState(callerFree, c, d, i + 1);
    assert t.client == s'.client && t.lock == s'.lock;
  }

  /** A run of two calls that both upgrade, and that aborts: the condition of NoAbort is needed. */
  lemma TwoUpgradesAbort(callerFree: bool, c: Cid, d: Cid)
    requires c != d
    ensures exists states: seq<State>, actions: seq<Action> :: Run(callerFree, states, actions) && |actions| == 13 && states[13].aborted
  {
    forall i: nat | i < 13 ensures RaceStep(callerFree, c, d, i) {
      if i < 5 {
        RaceBegins(callerFree, c, d, i);
      } else if i < 9 {
        RaceReads(callerFree, c, d, i);
      } else {
        RaceTries(callerFree, c, d, i);
      }
    }
    assert RaceState(callerFree, c, d, 0) == Created(callerFree) && RaceState(callerFree, c, d, 13).aborted;
    hide Can, Do, RaceState, RaceAction, Created;
    var states := seq(14, i requires 0 <= i => RaceState(callerFree, c, d, i));
    var actions := seq(13, i requires 0 <= i => RaceAction(c, d, i));
    forall i | 0 <= i < |actions| ensures Can(states[i], actions[i]) && states[i + 1] == Do(states[i], actions[i]) {
      assert RaceStep(callerFree, c, d, i);
    }
    assert Run(callerFree, states, actions);
  }

  /** The object is freed exactly when the last reference goes, once, and never while somebody holds one. */
  lemma FreedOnce(callerFree: bool, states: seq<State>, actions: seq<Action>, i: nat)
    requires Run(callerFree, states, actions) && i < |states|
    ensures var s := states[i];
      && s.obj.freed <= 1 && (s.obj.freed == 1 <==> s.obj.usage == 0) && s.obj.usage >= 0
      && s.obj.usage == |Holders(s.client)| + (if s.obj.kept then 1 else 0)
    ensures forall c :: c in states[i].client && HasRef(states[i].client[c].pc) ==> states[i].obj.freed == 0
  {
    Reached(callerFree, states, actions, i);
    var s := states[i];
    forall c | c in s.client && HasRef(s.client[c].pc) ensures s.obj.freed == 0 {
      assert c in Holders(s.client);
    }
  }

  /** With caller_free, at most the calling thread's own references are left when the deleting aosl_ref_destroy returns; without any the object is gone. */
  lemma CallerFrees(callerFree: bool, states: seq<State>, actions: seq<Action>, i: nat, d: Cid)
    requires Run(callerFree, states, actions) && i < |states| && d in states[i].client && callerFree
    requires Deletes(states[i].client[d].kind) && states[i].client[d].pc == Done(true)
    ensures |Holders(states[i].client)| <= states[i].client[d].kind.own
    ensures states[i].obj.freed == 1 <==> |Holders(states[i].client)| == 0
  {
    Reached(callerFree, states, actions, i);
    assert Leaves(callerFree, states[i].obj, states[i].client[d]);
  }

  /** Nothing leaks: deleted, and everybody done, the object was freed. */
  lemma NoLeak(callerFree: bool, states: seq<State>, actions: seq<Action>, i: nat, d: Cid)
    requires Run(callerFree, states, actions) && i < |states| && d in states[i].client
    requires Deletes(states[i].client[d].kind) && states[i].client[d].pc == Done(true)
    requires forall c :: c in states[i].client ==> !HasRef(states[i].client[c].pc)
    ensures states[i].obj.freed == 1
  {
    Reached(callerFree, states, actions, i);
    var s := states[i];
    assert Leaves(callerFree, s.obj, s.client[d]);
    NoHolders(s.client);
  }

  lemma NoHolders(client: map<Cid, Client>)
    requires forall c :: c in client ==> !HasRef(client[c].pc)
    ensures |Holders(client)| == 0
  {
    hide HasRef;
    assert forall c :: c !in Holders(client);
  }

  ghost function RawOf(l: Lock): Raw<Cid> {
    Raw(l.readers, if l.writer.Some? then {l.writer.value} else {})
  }

  /** The lock of an object changes only in the ways of a reader/writer lock. */
  lemma UsesRaw(callerFree: bool, states: seq<State>, actions: seq<Action>, i: nat)
    requires Run(callerFree, states, actions) && i < |actions|
    ensures RawLock.Step(RawOf(states[i].lock), RawOf(states[i + 1].lock), actions[i].c)
  {
    Reached(callerFree, states, actions, i);
    var s, a := states[i], actions[i];
    assert Can(s, a);
    if a.Next? {
      assert Agrees(s.lock, a.c, s.client[a.c]) && KindOk(s.client[a.c]);
    }
  }
}

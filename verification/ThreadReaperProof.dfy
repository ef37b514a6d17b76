/** What every run of the thread life cycle keeps. */
module ThreadReaperProof {
  import opened ThreadReaper

  predicate ContextOk(k: Context) {
    && (k.claimed ==> !k.detached && !k.enqueued && !k.reaping && !k.requested)
    && (k.enqueued || k.reaping ==> k.registered && k.detached && (k.completed || k.requested))
    && !(k.enqueued && k.reaping)
    && (k.registered ==> k.frees == 0) && k.frees <= 1
    && (!k.ended ==> k.registered) && (k.own.Running? <==> !k.completed) && (k.done > 0 ==> k.own.Over?)
    && (!k.completed && !k.requested ==> !k.ended)
    && (k.detached && k.completed && k.registered ==> k.enqueued || k.reaping)
  }

  predicate Joins(pc: Pc) {
    pc.JoinWait? || pc.JoinDelete? || pc.JoinUnregister? || pc.JoinFree?
  }

  /** A client and its context agree. */
  predicate ClientOk(k: Context, c: Client) {
    && (Joins(c.pc) ==> k.claimed && k.frees == 0 && (k.registered <==> !c.pc.JoinFree?) && (k.completed || c.pc.JoinWait?))
    && (c.pc.JoinWait? ==> k.done > 0 || (!k.ended && !k.own.Over?))
    && (c.pc.JoinUnregister? ==> k.ended)
    && (!Joins(c.pc) ==> k.requested && !k.claimed)
    && (c.pc.DestroyTerminate? ==>
          if c.detached then k.detached && (k.completed || (!k.ended && !k.enqueued && !k.reaping))
          else !k.detached && k.registered)
  }

  predicate ReaperOk(x: Ctx, k: Context, r: Reaper) {
    && (k.reaping <==> r == Deleting(x) || r == Removing(x))
    && (r == Removing(x) ==> k.ended)
    && (r == Freeing(x) <==> !k.registered && k.frees == 0 && !k.claimed)
  }

  ghost predicate Contexts(s: State) {
    && (forall x :: x in s.ctx ==> ContextOk(s.ctx[x]) && ReaperOk(x, s.ctx[x], s.reaper))
    && (!s.reaper.Idle? ==> s.reaper.x in s.ctx)
  }

  ghost predicate Clients(s: State) {
    && (forall c :: c in s.client ==> s.client[c].target in s.ctx && ClientOk(s.ctx[s.client[c].target], s.client[c]))
    && (forall c, d :: c in s.client && d in s.client && s.client[c].target == s.client[d].target ==> c == d)
  }

  /** The reap queue is the enqueued contexts, each once. */
  ghost predicate Queued(s: State) {
    && (forall x :: x in s.queue ==> x in s.ctx && s.ctx[x].enqueued)
    && (forall x :: x in s.ctx && s.ctx[x].enqueued ==> x in s.queue)
    && (forall i, j :: 0 <= i < j < |s.queue| ==> s.queue[i] != s.queue[j])
  }

  // ---- The queue -------------------------------------------------------------------------------

  lemma EnqueueQueued(s: State, x: Ctx, k: Context)
    requires Queued(s) && x in s.ctx && k.enqueued == s.ctx[x].enqueued
    ensures Queued(Enqueue(Set(s, x, k), x)) && Queued(Set(s, x, k))
  {
  }

  lemma CompletedQueued(s: State, x: Ctx)
    requires Queued(s) && x in s.ctx
    ensures Queued(Completed(s, x))
  {
    EnqueueQueued(s, x, s.ctx[x].(completed := true, own := Signalling));
    hide Queued;
  }

  lemma DetachQueued(s: State, x: Ctx)
    requires Queued(s) && Can(s, Detach(x))
    ensures Queued(Do(s, Detach(x)))
  {
    EnqueueQueued(s, x, s.ctx[x].(detached := true));
    hide Queued;
  }

  lemma DestroyQueued(s: State, c: Cid, r: Outcome)
    requires Queued(s) && c in s.client && s.client[c].target in s.ctx
    ensures Queued(DestroyDo(s, c, r))
  {
    var x := s.client[c].target;
    EnqueueQueued(s, x, s.ctx[x].(detached := true));
    EnqueueQueued(s, x, Stopped(s.ctx[x], r));
  }

  lemma JoinQueued(s: State, c: Cid, r: Outcome)
    requires Queued(s) && Can(s, JoinStep(c, r))
    ensures Queued(JoinDo(s, c, r))
  {
    var x := s.client[c].target;
    var s' := JoinDo(s, c, r);
    SetQueued(s, x, s'.ctx[x]);
    assert s' == Set(s, x, s'.ctx[x]).(client := s'.client);
  }

  /** The queue does not depend on clients. */
  lemma SetQueued(s: State, x: Ctx, k: Context)
    requires Queued(s) && x in s.ctx && k.enqueued == s.ctx[x].enqueued
    ensures forall client :: Queued(Set(s, x, k).(client := client))
  {
    EnqueueQueued(s, x, k);
    forall client ensures Queued(Set(s, x, k).(client := client)) {
      QueuedAlone(Set(s, x, k), Set(s, x, k).(client := client));
    }
  }

  lemma QueuedAlone(s: State, s': State)
    requires Queued(s) && s'.ctx == s.ctx && s'.queue == s.queue
    ensures Queued(s')
  {
  }

  lemma QueuedKept(s: State, a: Action)
    requires Queued(s) && Contexts(s) && Can(s, a)
    ensures Queued(Do(s, a))
  {
    match a
    case Complete(x) => CompletedQueued(s, x);
    case Detach(x) => DetachQueued(s, x);
    case DestroyStep(c, r) => DestroyQueued(s, c, r);
    case JoinStep(c, r) => JoinQueued(s, c, r);
    case Reap(r) => ReapQueued(s, r);
    case _ => hide Contexts;
  }

  lemma ReapQueued(s: State, r: Outcome)
    requires Queued(s) && Contexts(s) && Can(s, Reap(r))
    ensures Queued(ReapDo(s, r))
  {
    match s.reaper
    case Idle =>
      var rest := s.queue[1..];
      assert forall i :: 0 <= i < |rest| ==> rest[i] == s.queue[i + 1];
      assert forall x :: x in s.queue ==> x == s.queue[0] || x in rest;
    case Deleting(x) => EnqueueQueued(s, x, Stopped(s.ctx[x], r).(reaping := false));
    case _ =>
  }

  // ---- Contexts ----------------------------------------------------------------------------------

  lemma SetContexts(s: State, x: Ctx, k: Context)
    requires Contexts(s) && ContextOk(k) && ReaperOk(x, k, s.reaper)
    ensures Contexts(Set(s, x, k)) && forall queue, client, touched :: Contexts(Set(s, x, k).(queue := queue, client := client, touched := touched))
  {
  }

  lemma JoinContexts(s: State, c: Cid, r: Outcome)
    requires Contexts(s) && Clients(s) && Can(s, JoinStep(c, r))
    ensures Contexts(JoinDo(s, c, r))
  {
    var k := s.client[c];
    assert ClientOk(s.ctx[k.target], k);
    assert ContextOk(s.ctx[k.target]) && ReaperOk(k.target, s.ctx[k.target], s.reaper);
    SetContexts(s, k.target, JoinDo(s, c, r).ctx[k.target]);
  }

  lemma DestroyContexts(s: State, c: Cid, r: Outcome)
    requires Contexts(s) && Clients(s) && Can(s, DestroyStep(c, r))
    ensures Contexts(DestroyDo(s, c, r))
  {
    var k := s.client[c];
    assert ClientOk(s.ctx[k.target], k);
    assert ContextOk(s.ctx[k.target]) && ReaperOk(k.target, s.ctx[k.target], s.reaper);
    SetContexts(s, k.target, DestroyDo(s, c, r).ctx[k.target]);
  }

  lemma ReapContexts(s: State, r: Outcome)
    requires Contexts(s) && Queued(s) && Can(s, Reap(r))
    ensures Contexts(ReapDo(s, r))
  {
    var x := if s.reaper.Idle? then s.queue[0] else s.reaper.x;
    assert s.reaper.Idle? ==> x in s.queue;
    assert ContextOk(s.ctx[x]) && ReaperOk(x, s.ctx[x], s.reaper);
    var s' := ReapDo(s, r);
    forall y | y in s'.ctx ensures ContextOk(s'.ctx[y]) && ReaperOk(y, s'.ctx[y], s'.reaper) {
      assert ContextOk(s.ctx[y]) && ReaperOk(y, s.ctx[y], s.reaper);
    }
  }

  lemma ContextsKept(s: State, a: Action)
    requires Contexts(s) && Clients(s) && Queued(s) && Can(s, a)
    ensures Contexts(Do(s, a))
  {
    match a
    case JoinStep(c, r) => JoinContexts(s, c, r);
    case DestroyStep(c, r) => DestroyContexts(s, c, r);
    case Reap(r) => ReapContexts(s, r);
    case _ =>
      hide Clients, Queued;
      OneContext(s, a);
  }

  /** Steps at one context, by its thread or by a caller. */
  lemma OneContext(s: State, a: Action)
    requires Contexts(s) && Can(s, a) && !a.JoinStep? && !a.DestroyStep? && !a.Reap?
    ensures Contexts(Do(s, a))
  {
    assert a.x in s.ctx ==> ContextOk(s.ctx[a.x]) && ReaperOk(a.x, s.ctx[a.x], s.reaper);
    SameElsewhere(s, a);
    var k := Do(s, a).ctx[a.x];
    assert ContextOk(k) && ReaperOk(a.x, k, s.reaper) by {
      assert !s.reaper.Idle? ==> s.reaper.x in s.ctx;
      hide Contexts;
    }
    hide Do, Can, ContextOk, ReaperOk;
    SetContexts(s, a.x, k);
  }

  lemma SameElsewhere(s: State, a: Action)
    requires Can(s, a) && !a.JoinStep? && !a.DestroyStep? && !a.Reap?
    ensures var s' := Do(s, a);
      a.x in s'.ctx && s' == Set(s, a.x, s'.ctx[a.x]).(queue := s'.queue, client := s'.client, touched := s.touched)
  {
  }

  // ---- Clients --------------------------------------------------------------------------------------

  /** A change to one context that its client, if it has one, does not notice. */
  lemma ClientsSet(s: State, x: Ctx, k: Context)
    requires Clients(s) && x in s.ctx && forall c :: c in s.client && s.client[c].target == x ==> ClientOk(k, s.client[c])
    ensures Clients(Set(s, x, k)) && Clients(Set(s, x, k).(queue := s.queue + [x]))
  {
  }

  lemma ClientsEnqueue(s: State, x: Ctx)
    requires Clients(s) && x in s.ctx && forall c :: c in s.client && s.client[c].target == x ==> ClientOk(s.ctx[x].(enqueued := true), s.client[c])
    ensures Clients(Enqueue(s, x))
  {
    ClientsSet(s, x, s.ctx[x].(enqueued := true));
  }

  lemma ClientsJoin(s: State, c: Cid, r: Outcome)
    requires Contexts(s) && Clients(s) && Can(s, JoinStep(c, r))
    ensures Clients(JoinDo(s, c, r))
  {
    var k := s.client[c];
    assert ClientOk(s.ctx[k.target], k) && ContextOk(s.ctx[k.target]);
  }

  lemma ClientsDestroy(s: State, c: Cid, r: Outcome)
    requires Contexts(s) && Clients(s) && Can(s, DestroyStep(c, r))
    ensures Clients(DestroyDo(s, c, r))
  {
    var k := s.client[c];
    assert ClientOk(s.ctx[k.target], k) && ContextOk(s.ctx[k.target]);
  }

  lemma ClientsReap(s: State, r: Outcome)
    requires Contexts(s) && Clients(s) && Queued(s) && Can(s, Reap(r))
    ensures Clients(ReapDo(s, r))
  {
    var x := if s.reaper.Idle? then s.queue[0] else s.reaper.x;
    assert s.reaper.Idle? ==> x in s.queue;
    assert ContextOk(s.ctx[x]) && ReaperOk(x, s.ctx[x], s.reaper);
    var s' := ReapDo(s, r);
    forall c | c in s'.client ensures s'.client[c].target in s'.ctx && ClientOk(s'.ctx[s'.client[c].target], s'.client[c]) {
      assert ClientOk(s.ctx[s.client[c].target], s.client[c]);
    }
  }

  lemma ClientsKept(s: State, a: Action)
    requires Contexts(s) && Clients(s) && Queued(s) && Can(s, a)
    ensures Clients(Do(s, a))
  {
    match a
    case Create(x) =>
    case Complete(x) =>
      assert ContextOk(s.ctx[x]);
      ClientsSet(s, x, s.ctx[x].(completed := true, own := Signalling));
      ClientsEnqueue(Set(s, x, s.ctx[x].(completed := true, own := Signalling)), x);
    case Signal(x) =>
      assert ContextOk(s.ctx[x]);
      ClientsSet(s, x, s.ctx[x].(done := s.ctx[x].done + 1, own := Over));
    case Leave(x) =>
      assert ContextOk(s.ctx[x]);
      ClientsSet(s, x, s.ctx[x].(ended := true));
    case Join(c, x) =>
      assert ContextOk(s.ctx[x]) && ReaperOk(x, s.ctx[x], s.reaper);
      NewClient(s, c, x, s.ctx[x].(claimed := true), Client(x, if s.ctx[x].completed then JoinDelete else JoinWait, false));
    case JoinStep(c, r) => ClientsJoin(s, c, r);
    case Detach(x) =>
      NoClient(s, x);
      ClientsSet(s, x, s.ctx[x].(detached := true));
      ClientsEnqueue(Set(s, x, s.ctx[x].(detached := true)), x);
    case DestroySelf(x) =>
      NoClient(s, x);
      ClientsSet(s, x, s.ctx[x].(requested := true, detached := true));
    case Destroy(c, x) =>
      assert ContextOk(s.ctx[x]);
      NewClient(s, c, x, s.ctx[x].(requested := true), Client(x, DestroyTerminate, s.ctx[x].detached));
    case DestroyStep(c, r) => ClientsDestroy(s, c, r);
    case Reap(r) => ClientsReap(s, r);
  }

  /** Neither claimed nor requested: nobody is at work on the context. */
  lemma NoClient(s: State, x: Ctx)
    requires Clients(s) && x in s.ctx && !s.ctx[x].claimed && !s.ctx[x].requested
    ensures forall c :: c in s.client ==> s.client[c].target != x
  {
    forall c | c in s.client ensures s.client[c].target != x {
      assert ClientOk(s.ctx[s.client[c].target], s.client[c]);
    }
  }

  lemma NewClient(s: State, c: Cid, x: Ctx, k: Context, client: Client)
    requires Clients(s) && c !in s.client && x in s.ctx && !s.ctx[x].claimed && !s.ctx[x].requested
    requires client.target == x && ClientOk(k, client)
    ensures Clients(Set(s, x, k).(client := s.client[c := client]))
  {
    NoClient(s, x);
  }

  // ---- Whole runs ---------------------------------------------------------------------------------------

  ghost predicate Inv(s: State) {
    Contexts(s) && Clients(s) && Queued(s)
  }

  lemma Preserved(s: State, a: Action)
    requires Inv(s) && Can(s, a)
    ensures Inv(Do(s, a))
  {
    ContextsKept(s, a);
    ClientsKept(s, a);
    QueuedKept(s, a);
  }

  lemma {:induction false} Reached(states: seq<State>, actions: seq<Action>, i: nat)
    requires Run(states, actions) && i < |states|
    ensures Inv(states[i])
  {
    if i > 0 {
      Reached(states, actions, i - 1);
      hide Inv;
      Preserved(states[i - 1], actions[i - 1]);
    }
  }

  /** A context somebody joins is never queued for reaping, being reaped, detached or to be destroyed. */
  lemma JoinExcludesReaping(states: seq<State>, actions: seq<Action>, i: nat, x: Ctx)
    requires Run(states, actions) && i < |states| && x in states[i].ctx && states[i].ctx[x].claimed
    ensures var k := states[i].ctx[x];
      !k.enqueued && !k.reaping && !k.detached && !k.requested && x !in states[i].queue &&
      states[i].reaper != Deleting(x) && states[i].reaper != Removing(x) && states[i].reaper != Freeing(x)
  {
    Reached(states, actions, i);
    assert ContextOk(states[i].ctx[x]) && ReaperOk(x, states[i].ctx[x], states[i].reaper);
  }

  /** The reap queue holds exactly the enqueued contexts, without repeats; a reaped one is not in it. */
  lemma QueueExact(states: seq<State>, actions: seq<Action>, i: nat, x: Ctx)
    requires Run(states, actions) && i < |states| && x in states[i].ctx
    ensures x in states[i].queue <==> states[i].ctx[x].enqueued
    ensures forall j, k :: 0 <= j < k < |states[i].queue| ==> states[i].queue[j] != states[i].queue[k]
    ensures states[i].ctx[x].reaping ==> x !in states[i].queue
    ensures states[i].reaper == Removing(x) || states[i].reaper == Freeing(x) ==> states[i].ctx[x].ended
  {
    Reached(states, actions, i);
    assert ContextOk(states[i].ctx[x]) && ReaperOk(x, states[i].ctx[x], states[i].reaper);
  }

  /** The part of a step that uses the memory of a context. */
  predicate Uses(s: State, a: Action, x: Ctx) {
    match a
    case Complete(y) => y == x
    case Signal(y) => y == x
    case Leave(y) => y == x
    case DestroySelf(y) => y == x
    case JoinStep(c, _) => c in s.client && s.client[c].target == x
    case Reap(_) => !s.reaper.Idle? && s.reaper.x == x
    case _ => false
  }

  /** A context is freed at most once, by its joiner or by the reaper, and neither they nor its own thread use it afterwards. */
  lemma FreedOnce(states: seq<State>, actions: seq<Action>, i: nat, x: Ctx)
    requires Run(states, actions) && i < |states| && x in states[i].ctx
    ensures states[i].ctx[x].frees <= 1
    ensures i < |actions| && Uses(states[i], actions[i], x) ==> states[i].ctx[x].frees == 0
  {
    Reached(states, actions, i);
    var s := states[i];
    assert ContextOk(s.ctx[x]) && ReaperOk(x, s.ctx[x], s.reaper);
    if i < |actions| && actions[i].JoinStep? && Uses(s, actions[i], x) {
      assert Can(s, actions[i]);
      assert ClientOk(s.ctx[x], s.client[actions[i].c]);
    }
  }

  /** A joiner waits only for a thread that will still put `done`, or has. */
  lemma JoinerWoken(states: seq<State>, actions: seq<Action>, i: nat, c: Cid)
    requires Run(states, actions) && i < |states| && c in states[i].client && states[i].client[c].pc.JoinWait?
    ensures var s, x := states[i], states[i].client[c].target;
      Can(s, JoinStep(c, Success)) || Can(s, Signal(x)) || Can(s, Complete(x))
  {
    Reached(states, actions, i);
    var s := states[i];
    assert ClientOk(s.ctx[s.client[c].target], s.client[c]);
  }

  /** Destroying touches a context after it was freed only if the context was detached when the destroy began. */
  lemma DestroyTouch(states: seq<State>, actions: seq<Action>, i: nat, c: Cid, r: Outcome)
    requires Run(states, actions) && i < |actions| && actions[i] == DestroyStep(c, r) && states[i].client[c].pc.DestroyTerminate?
    ensures states[i].ctx[states[i].client[c].target].frees > 0 ==> states[i].client[c].detached
  {
    assert Can(states[i], actions[i]);
    Reached(states, actions, i);
    var k := states[i].client[c];
    assert ClientOk(states[i].ctx[k.target], k) && ContextOk(states[i].ctx[k.target]);
  }

  // ---- Destroying a detached thread ---------------------------------------------------------------------

  /** A run, continued. */
  ghost predicate Leads(s: State, actions: seq<Action>, t: State)
    decreases |actions|
  {
    if actions == [] then s == t else Can(s, actions[0]) && Leads(Do(s, actions[0]), actions[1..], t)
  }

  lemma LeadsMore(s: State, a: Action, rest: seq<Action>, t: State)
    requires Can(s, a) && Leads(Do(s, a), rest, t)
    ensures Leads(s, [a] + rest, t)
  {
    assert ([a] + rest)[1..] == rest;
  }

  ghost predicate AboutToTerminate(s: State, c: Cid) {
    c in s.client && s.client[c].pc.DestroyTerminate? && s.client[c].target in s.ctx
  }

  /** The call of tx_thread_terminate in a destroy can come to be made on a context that was freed. */
  ghost predicate Overtaken(s: State, c: Cid) {
    exists actions, t :: Leads(s, actions, t) && !Ended(actions, c) && AboutToTerminate(t, c) && t.ctx[t.client[c].target].frees > 0
  }

  /** The destroy takes its step. */
  predicate Ended(actions: seq<Action>, c: Cid) {
    exists i :: 0 <= i < |actions| && actions[i].DestroyStep? && actions[i].c == c
  }

  function Stage(r: Reaper): nat {
    match r
    case Idle => 0
    case Deleting(_) => 3
    case Removing(_) => 2
    case Freeing(_) => 1
  }

  lemma OvertakenBefore(s: State, a: Action, c: Cid)
    requires Can(s, a) && !(a.DestroyStep? && a.c == c) && Overtaken(Do(s, a), c)
    ensures Overtaken(s, c)
  {
    var actions, t :| Leads(Do(s, a), actions, t) && !Ended(actions, c) && AboutToTerminate(t, c) && t.ctx[t.client[c].target].frees > 0;
    LeadsMore(s, a, actions, t);
    hide Can, Do, Leads;
    assert forall i :: 0 <= i < |[a] + actions| ==> ([a] + actions)[i] == if i == 0 then a else actions[i - 1];
    assert !Ended([a] + actions, c);
  }

  /** The reaper's work leaves the destroyer where it is. */
  lemma ReapAside(s: State, c: Cid)
    requires Inv(s) && AboutToTerminate(s, c) && (!s.reaper.Idle? || s.queue != [])
    ensures Can(s, Reap(Success))
    ensures var s' := Do(s, Reap(Success));
      AboutToTerminate(s', c) && s'.client == s.client && 4 * |s'.queue| + Stage(s'.reaper) < 4 * |s.queue| + Stage(s.reaper) &&
      s'.ctx[s.client[c].target].completed == s.ctx[s.client[c].target].completed
  {
    HeadKnown(s);
    hide Contexts, Clients, Queued;
  }

  lemma HeadKnown(s: State)
    requires Contexts(s) && Queued(s)
    ensures (s.queue != [] ==> s.queue[0] in s.ctx) && (!s.reaper.Idle? ==> s.reaper.x in s.ctx)
  {
    if s.queue != [] {
      assert s.queue[0] in s.queue;
    }
  }

  /** With the reaper idle and nothing queued, the detached thread has not ended. */
  lemma StillRuns(s: State, c: Cid)
    requires Inv(s) && AboutToTerminate(s, c) && s.client[c].detached && s.reaper.Idle? && s.queue == []
    requires s.ctx[s.client[c].target].frees == 0
    ensures Can(s, Complete(s.client[c].target)) && !s.ctx[s.client[c].target].completed
  {
    var x := s.client[c].target;
    assert ContextOk(s.ctx[x]) && ReaperOk(x, s.ctx[x], s.reaper) && ClientOk(s.ctx[x], s.client[c]);
    assert !s.ctx[x].enqueued;
  }

  lemma {:induction false} CanOvertake(s: State, c: Cid)
    requires Inv(s) && AboutToTerminate(s, c) && s.client[c].detached
    ensures Overtaken(s, c)
    decreases if s.ctx[s.client[c].target].completed then 0 else 1, 4 * |s.queue| + Stage(s.reaper)
  {
    var x := s.client[c].target;
    if s.ctx[x].frees > 0 {
      assert Leads(s, [], s) && !Ended([], c);
    } else {
      var a := Reap(Success);
      if !s.reaper.Idle? || s.queue != [] {
        ReapAside(s, c);
      } else {
        StillRuns(s, c);
        a := Complete(x);
        assert Do(s, a).client == s.client && Do(s, a).ctx[x].completed;
      }
      Preserved(s, a);
      hide Inv, Can, Do;
      CanOvertake(Do(s, a), c);
      OvertakenBefore(s, a, c);
    }
  }

  /** Until it takes its step, the destroy keeps what it found. */
  lemma {:induction false} NotOvertaken(s: State, c: Cid, actions: seq<Action>, t: State)
    requires Inv(s) && AboutToTerminate(s, c) && !s.client[c].detached && Leads(s, actions, t) && !Ended(actions, c)
    ensures AboutToTerminate(t, c) && t.ctx[t.client[c].target].frees == 0
    decreases |actions|
  {
    if actions == [] {
      var x := s.client[c].target;
      assert ClientOk(s.ctx[x], s.client[c]) && ContextOk(s.ctx[x]);
    } else {
      var a := actions[0];
      Preserved(s, a);
      assert !(a.DestroyStep? && a.c == c);
      StaysAbout(s, a, c);
      forall i | 0 <= i < |actions[1..]| ensures !(actions[1..][i].DestroyStep? && actions[1..][i].c == c) {
        assert actions[1..][i] == actions[i + 1];
      }
      hide Inv, Can, Do;
      NotOvertaken(Do(s, a), c, actions[1..], t);
    }
  }

  lemma StaysAbout(s: State, a: Action, c: Cid)
    requires Inv(s) && AboutToTerminate(s, c) && Can(s, a) && !(a.DestroyStep? && a.c == c)
    ensures AboutToTerminate(Do(s, a), c) && Do(s, a).client[c] == s.client[c]
  {
    hide Inv, Contexts, Clients, Queued;
  }

  /**
   In every reachable state: the tx_thread_terminate of a destroy can come too late, on a context
   the reaper has freed, exactly if the context was detached when the destroy began.
   */
  lemma DestroyRace(states: seq<State>, actions: seq<Action>, i: nat, c: Cid)
    requires Run(states, actions) && i < |states| && AboutToTerminate(states[i], c)
    ensures Overtaken(states[i], c) <==> states[i].client[c].detached
  {
    Reached(states, actions, i);
    hide Inv;
    if states[i].client[c].detached {
      CanOvertake(states[i], c);
    } else if Overtaken(states[i], c) {
      var more, t :| Leads(states[i], more, t) && !Ended(more, c) && AboutToTerminate(t, c) && t.ctx[t.client[c].target].frees > 0;
      NotOvertaken(states[i], c, more, t);
    }
  }

  function RaceAction(x: Ctx, c: Cid, i: nat): Action {
    match i
    case 0 => Create(x)
    case 1 => Detach(x)
    case 2 => Destroy(c, x)
    case 3 => Complete(x)
    case 4 => Signal(x)
    case 9 => DestroyStep(c, Success)
    case _ => Reap(Success)
  }

  /** One context, and one destroyer. */
  function Alone(x: Ctx, k: Context, queue: seq<Ctx>, reaper: Reaper, c: Cid): State {
    State(map[x := k], queue, reaper, map[c := Client(x, DestroyTerminate, true)], false)
  }

  function RaceState(x: Ctx, c: Cid, i: nat): State {
    var k := Context(true, false, true, false, false, false, true, Running, 0, false, 0);
    var k4 := k.(completed := true, own := Signalling, enqueued := true);
    var k6 := k4.(done := 1, own := Over, enqueued := false, reaping := true);
    var k8 := k6.(ended := true, registered := false, reaping := false);
    match i
    case 0 => Initial
    case 1 => Alone(x, k.(detached := false, requested := false), [], Idle, c).(client := map[])
    case 2 => Alone(x, k.(requested := false), [], Idle, c).(client := map[])
    case 3 => Alone(x, k, [], Idle, c)
    case 4 => Alone(x, k4, [x], Idle, c)
    case 5 => Alone(x, k4.(done := 1, own := Over), [x], Idle, c)
    case 6 => Alone(x, k6, [], Deleting(x), c)
    case 7 => Alone(x, k6.(ended := true), [], Removing(x), c)
    case 8 => Alone(x, k8, [], Freeing(x), c)
    case 9 => Alone(x, k8.(frees := 1), [], Idle, c)
    case _ => Alone(x, k8.(frees := 1), [], Idle, c).(client := map[c := Client(x, DestroyEnqueue, true)], touched := true)
  }

  lemma RaceBegins(x: Ctx, c: Cid, i: nat)
    requires 0 <= i < 4
    ensures Can(RaceState(x, c, i), RaceAction(x, c, i)) && RaceState(x, c, i + 1) == Do(RaceState(x, c, i), RaceAction(x, c, i))
  {
    var t, s' := Do(RaceState(x, c, i), RaceAction(x, c, i)), RaceState(x, c, i + 1);
    assert t.queue == s'.queue && t.ctx == s'.ctx && t.client == s'.client;
  }

  lemma RaceReaps(x: Ctx, c: Cid, i: nat)
    requires 4 <= i < 7
    ensures Can(RaceState(x, c, i), RaceAction(x, c, i)) && RaceState(x, c, i + 1) == Do(RaceState(x, c, i), RaceAction(x, c, i))
  {
    var t, s' := Do(RaceState(x, c, i), RaceAction(x, c, i)), RaceState(x, c, i + 1);
    assert t.queue == s'.queue && t.ctx == s'.ctx && t.client == s'.client;
  }

  lemma RaceEnds(x: Ctx, c: Cid, i: nat)
    requires 7 <= i < 10
    ensures Can(RaceState(x, c, i), RaceAction(x, c, i)) && RaceState(x, c, i + 1) == Do(RaceState(x, c, i), RaceAction(x, c, i))
  {
    var t, s' := Do(RaceState(x, c, i), RaceAction(x, c, i)), RaceState(x, c, i + 1);
    assert t.queue == s'.queue && t.ctx == s'.ctx && t.client == s'.client;
  }

  /** And the race is real: a run from the beginning that touches freed memory. */
  lemma DetachedDestroyRace(x: Ctx, c: Cid)
    ensures exists states: seq<State>, actions: seq<Action> :: Run(states, actions) && |actions| == 10 && actions[9].DestroyStep? && states[10].touched
  {
    forall i: nat | i < 10
      ensures Can(RaceState(x, c, i), RaceAction(x, c, i)) && RaceState(x, c, i + 1) == Do(RaceState(x, c, i), RaceAction(x, c, i))
    {
      if i < 4 {
        RaceBegins(x, c, i);
      } else if i < 7 {
        RaceReaps(x, c, i);
      } else {
        RaceEnds(x, c, i);
      }
    }
    assert RaceState(x, c, 0) == Initial && RaceState(x, c, 10).touched && RaceAction(x, c, 9).DestroyStep?;
    hide Can, Do, RaceState, RaceAction;
    var states, actions := seq(11, i requires 0 <= i => RaceState(x, c, i)), seq(10, i requires 0 <= i => RaceAction(x, c, i));
    assert Run(states, actions);
  }
}

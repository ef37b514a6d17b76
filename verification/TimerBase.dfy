/**
 The timer base of kernel/timer.c: a red-black tree ordered by expiry, a doubly
 linked list threaded through the same nodes, and a pointer to the first.
 */
module TimerBase {
  import opened RbShape
  import opened RbMemory
  import opened RbMoves
  import opened RbTree

  // AOSL_INVALID_TIMER_INTERVAL: the timer is a one-shot.
  const ONE_SHOT: int := 0xffff_ffff_ffff_ffff
  const NEVER: int := 0xffff_ffff_ffff_ffff
  const WINDOW: int := 0x8000_0000_0000_0000

  function U64(x: int): int {
    x % 0x1_0000_0000_0000_0000
  }

  /** time_after_eq: the sign of the 64-bit difference. */
  predicate TimeAfterEq(a: int, b: int) {
    U64(a - b) < 0x8000_0000_0000_0000
  }

  /** For 64-bit times the macro tells the order exactly while they are less than half the range apart. */
  lemma TimeAfterEqExact(a: int, b: int)
    requires 0 <= a < 0x1_0000_0000_0000_0000 && 0 <= b < 0x1_0000_0000_0000_0000
    ensures (TimeAfterEq(a, b) <==> a >= b) <==> b - 0x8000_0000_0000_0000 <= a < b + 0x8000_0000_0000_0000
  {
  }

  /** So an expiry in the other half of the range is due before it, and all the sooner the later it is. */
  lemma FarDue(now: int, expire: int)
    requires 0 <= now < WINDOW <= expire < 2 * WINDOW
    ensures TimeAfterEq(now, expire) <==> now + WINDOW < expire
  {
  }

  /** A link of the list: AOSL_LIST_POISON, or a pointer that may be NULL. */
  datatype Link = Poison | To(target: Ptr)

  /** The fields of struct timer_node beside its tree node. */
  datatype Timer = Timer(prev: Link, next: Link, expire: int, interval: int)

  ghost function At(s: seq<Ptr>, i: int): Ptr {
    if 0 <= i < |s| then s[i] else NULL
  }

  /** The list from `first` runs through `s`, in both directions. */
  ghost predicate Threaded(timer: map<Ptr, Timer>, first: Ptr, s: seq<Ptr>) {
    && first == At(s, 0)
    && forall i :: 0 <= i < |s| ==> s[i] in timer && timer[s[i]].prev == To(At(s, i - 1)) && timer[s[i]].next == To(At(s, i + 1))
  }

  ghost predicate Sorted(timer: map<Ptr, Timer>, s: seq<Ptr>) {
    && (forall i :: 0 <= i < |s| ==> s[i] in timer)
    && forall i, j :: 0 <= i < j < |s| ==> timer[s[i]].expire <= timer[s[j]].expire
  }

  /** A timer is in the list exactly when its link is not poisoned. */
  ghost predicate Marked(timer: map<Ptr, Timer>, s: seq<Ptr>) {
    forall n :: n in timer ==> (timer[n].next != Poison <==> n in s)
  }

  ghost predicate Unrepeated(s: seq<Ptr>) {
    forall i, j :: 0 <= i < j < |s| ==> s[i] != s[j]
  }

  /** `s` with `n` put in at `k`. */
  ghost function PutIn(s: seq<Ptr>, k: nat, n: Ptr): seq<Ptr>
    requires k <= |s|
  {
    s[..k] + [n] + s[k..]
  }

  /** `k` is the place behind every timer that expires no later than `e`. */
  ghost predicate Behind(timer: map<Ptr, Timer>, s: seq<Ptr>, k: nat, e: int) {
    && k <= |s| && (forall i :: 0 <= i < |s| ==> s[i] in timer)
    && (forall i :: 0 <= i < k ==> timer[s[i]].expire <= e)
    && (forall i :: k <= i < |s| ==> timer[s[i]].expire > e)
  }

  ghost predicate SameTimes(timer: map<Ptr, Timer>, timer': map<Ptr, Timer>) {
    timer'.Keys == timer.Keys &&
    forall n :: n in timer ==> timer'[n].expire == timer[n].expire && timer'[n].interval == timer[n].interval
  }

  lemma PutInSorted(timer: map<Ptr, Timer>, s: seq<Ptr>, k: nat, n: Ptr)
    requires Sorted(timer, s) && n in timer && Behind(timer, s, k, timer[n].expire)
    ensures Sorted(timer, PutIn(s, k, n))
  {
    var s' := PutIn(s, k, n);
    forall i, j | 0 <= i < j < |s'| ensures timer[s'[i]].expire <= timer[s'[j]].expire {
      assert s'[i] == if i < k then s[i] else if i == k then n else s[i - 1];
      assert s'[j] == if j < k then s[j] else if j == k then n else s[j - 1];
    }
  }

  ghost predicate LinksAt(timer: map<Ptr, Timer>, s: seq<Ptr>, i: nat)
    requires i < |s|
  {
    s[i] in timer && timer[s[i]].prev == To(At(s, i - 1)) && timer[s[i]].next == To(At(s, i + 1))
  }

  /** Where the elements of the longer list come from. */
  lemma PutInAt(s: seq<Ptr>, k: nat, n: Ptr, i: int)
    requires k <= |s|
    ensures At(PutIn(s, k, n), i) == if i < k then At(s, i) else if i == k then n else At(s, i - 1)
  {
  }

  lemma LinkedInAt(timer: map<Ptr, Timer>, timer': map<Ptr, Timer>, first: Ptr, s: seq<Ptr>, k: nat, n: Ptr, j: nat)
    requires Threaded(timer, first, s) && Unrepeated(s) && k <= |s| && j < |s| && n in timer && n !in s && NULL !in s
    requires timer'.Keys == timer.Keys
    requires k > 0 ==> timer'[s[k - 1]] == timer[s[k - 1]].(next := To(n))
    requires k < |s| ==> timer'[s[k]] == timer[s[k]].(prev := To(n))
    requires forall x :: x in timer && x != n && x != At(s, k - 1) && x != At(s, k) ==> timer'[x] == timer[x]
    ensures s[j] in timer'
    ensures timer'[s[j]].prev == if j == k then To(n) else To(At(s, j - 1))
    ensures timer'[s[j]].next == if j == k - 1 then To(n) else To(At(s, j + 1))
  {
    assert s[j] in s;
    assert timer[s[j]].prev == To(At(s, j - 1)) && timer[s[j]].next == To(At(s, j + 1));
    assert j != k - 1 ==> s[j] != At(s, k - 1);
    assert j != k ==> s[j] != At(s, k);
  }

  lemma LinkedInLinks(timer: map<Ptr, Timer>, timer': map<Ptr, Timer>, first: Ptr, s: seq<Ptr>, k: nat, n: Ptr, i: nat)
    requires Threaded(timer, first, s) && Unrepeated(s) && k <= |s| && i <= |s| && n in timer && n !in s && NULL !in s
    requires timer'.Keys == timer.Keys
    requires timer'[n].prev == To(At(s, k - 1)) && timer'[n].next == To(At(s, k))
    requires k > 0 ==> timer'[s[k - 1]] == timer[s[k - 1]].(next := To(n))
    requires k < |s| ==> timer'[s[k]] == timer[s[k]].(prev := To(n))
    requires forall x :: x in timer && x != n && x != At(s, k - 1) && x != At(s, k) ==> timer'[x] == timer[x]
    ensures |PutIn(s, k, n)| == |s| + 1 && LinksAt(timer', PutIn(s, k, n), i)
  {
    PutInAt(s, k, n, i - 1);
    PutInAt(s, k, n, i);
    PutInAt(s, k, n, i + 1);
    if i != k {
      LinkedInAt(timer, timer', first, s, k, n, if i < k then i else i - 1);
    }
    assert |PutIn(s, k, n)| == |s| + 1;
    hide Threaded, Unrepeated, PutIn;
  }

  lemma ThreadedBy(timer: map<Ptr, Timer>, first: Ptr, s: seq<Ptr>)
    requires first == At(s, 0) && forall i :: 0 <= i < |s| ==> LinksAt(timer, s, i)
    ensures Threaded(timer, first, s)
  {
    forall i | 0 <= i < |s| ensures s[i] in timer && timer[s[i]].prev == To(At(s, i - 1)) && timer[s[i]].next == To(At(s, i + 1)) {
      assert LinksAt(timer, s, i);
    }
  }

  /** The writes of __timer_link_list turn the list through `s` into one through `s` with `n` at `k`. */
  lemma LinkedIn(timer: map<Ptr, Timer>, timer': map<Ptr, Timer>, first: Ptr, s: seq<Ptr>, k: nat, n: Ptr)
    requires Threaded(timer, first, s) && Unrepeated(s) && k <= |s| && n in timer && n !in s && NULL !in s
    requires timer'.Keys == timer.Keys
    requires timer'[n].prev == To(At(s, k - 1)) && timer'[n].next == To(At(s, k))
    requires k > 0 ==> timer'[s[k - 1]] == timer[s[k - 1]].(next := To(n))
    requires k < |s| ==> timer'[s[k]] == timer[s[k]].(prev := To(n))
    requires forall x :: x in timer && x != n && x != At(s, k - 1) && x != At(s, k) ==> timer'[x] == timer[x]
    ensures Threaded(timer', if k == 0 then n else first, PutIn(s, k, n))
  {
    assert first == At(s, 0);
    PutInAt(s, k, n, 0);
    assert |PutIn(s, k, n)| == |s| + 1;
    hide Threaded, Unrepeated, PutIn, At, LinksAt;
    forall i | 0 <= i < |PutIn(s, k, n)| ensures LinksAt(timer', PutIn(s, k, n), i) {
      LinkedInLinks(timer, timer', first, s, k, n, i);
    }
    ThreadedBy(timer', if k == 0 then n else first, PutIn(s, k, n));
  }

  ghost function TakenOut(s: seq<Ptr>, k: nat): seq<Ptr>
    requires k < |s|
  {
    s[..k] + s[k + 1..]
  }

  lemma TakenOutAt(s: seq<Ptr>, k: nat, i: int)
    requires k < |s|
    ensures At(TakenOut(s, k), i) == if i < k then At(s, i) else At(s, i + 1)
  {
  }

  lemma LinkedOutAt(timer: map<Ptr, Timer>, timer': map<Ptr, Timer>, first: Ptr, s: seq<Ptr>, k: nat, j: nat)
    requires Threaded(timer, first, s) && Unrepeated(s) && k < |s| && j < |s| && j != k && NULL !in s
    requires timer'.Keys == timer.Keys
    requires k > 0 ==> timer'[s[k - 1]] == timer[s[k - 1]].(next := To(At(s, k + 1)))
    requires k + 1 < |s| ==> timer'[s[k + 1]] == timer[s[k + 1]].(prev := To(At(s, k - 1)))
    requires forall x :: x in timer && x != s[k] && x != At(s, k - 1) && x != At(s, k + 1) ==> timer'[x] == timer[x]
    ensures s[j] in timer'
    ensures timer'[s[j]].prev == To(At(s, if j == k + 1 then k - 1 else j - 1))
    ensures timer'[s[j]].next == To(At(s, if j == k - 1 then k + 1 else j + 1))
  {
    assert s[j] in s;
    assert timer[s[j]].prev == To(At(s, j - 1)) && timer[s[j]].next == To(At(s, j + 1));
    assert j != k - 1 ==> s[j] != At(s, k - 1);
    assert j != k + 1 ==> s[j] != At(s, k + 1);
    assert s[j] != s[k];
  }

  lemma LinkedOutLinks(timer: map<Ptr, Timer>, timer': map<Ptr, Timer>, first: Ptr, s: seq<Ptr>, k: nat, i: nat)
    requires Threaded(timer, first, s) && Unrepeated(s) && k < |s| && i < |s| - 1 && NULL !in s
    requires timer'.Keys == timer.Keys
    requires k > 0 ==> timer'[s[k - 1]] == timer[s[k - 1]].(next := To(At(s, k + 1)))
    requires k + 1 < |s| ==> timer'[s[k + 1]] == timer[s[k + 1]].(prev := To(At(s, k - 1)))
    requires forall x :: x in timer && x != s[k] && x != At(s, k - 1) && x != At(s, k + 1) ==> timer'[x] == timer[x]
    ensures |TakenOut(s, k)| == |s| - 1 && LinksAt(timer', TakenOut(s, k), i)
  {
    TakenOutAt(s, k, i - 1);
    TakenOutAt(s, k, i);
    TakenOutAt(s, k, i + 1);
    LinkedOutAt(timer, timer', first, s, k, if i < k then i else i + 1);
    assert |TakenOut(s, k)| == |s| - 1;
    hide Threaded, Unrepeated, TakenOut;
  }

  /** The writes of __timer_unlink_list close the gap. */
  lemma LinkedOut(timer: map<Ptr, Timer>, timer': map<Ptr, Timer>, first: Ptr, s: seq<Ptr>, k: nat)
    requires Threaded(timer, first, s) && Unrepeated(s) && k < |s| && NULL !in s
    requires timer'.Keys == timer.Keys
    requires k > 0 ==> timer'[s[k - 1]] == timer[s[k - 1]].(next := To(At(s, k + 1)))
    requires k + 1 < |s| ==> timer'[s[k + 1]] == timer[s[k + 1]].(prev := To(At(s, k - 1)))
    requires forall x :: x in timer && x != s[k] && x != At(s, k - 1) && x != At(s, k + 1) ==> timer'[x] == timer[x]
    ensures Threaded(timer', if k == 0 then At(s, 1) else first, TakenOut(s, k))
  {
    assert first == At(s, 0);
    TakenOutAt(s, k, 0);
    assert |TakenOut(s, k)| == |s| - 1;
    hide Threaded, Unrepeated, TakenOut, At, LinksAt;
    forall i | 0 <= i < |TakenOut(s, k)| ensures LinksAt(timer', TakenOut(s, k), i) {
      LinkedOutLinks(timer, timer', first, s, k, i);
    }
    ThreadedBy(timer', if k == 0 then At(s, 1) else first, TakenOut(s, k));
  }

  /** What the list says around place `k`. */
  lemma Neighbours(timer: map<Ptr, Timer>, first: Ptr, s: seq<Ptr>, k: nat)
    requires Threaded(timer, first, s) && Unrepeated(s) && NULL !in s && k <= |s|
    ensures first == At(s, 0)
    ensures k < |s| ==> s[k] in timer && timer[s[k]].prev == To(At(s, k - 1)) && timer[s[k]].next == To(At(s, k + 1)) && s[k] != NULL
    ensures k > 0 ==> s[k - 1] in timer && timer[s[k - 1]].next == To(At(s, k)) && s[k - 1] != NULL
    ensures k + 1 < |s| ==> s[k + 1] in timer && s[k + 1] != NULL && timer[s[k + 1]].next != Poison
    ensures k < |s| && k > 0 ==> s[k - 1] != s[k] && s[0] != s[k]
    ensures k + 1 < |s| ==> s[k] != s[k + 1] && (k > 0 ==> s[k - 1] != s[k + 1])
  {
    assert k > 0 ==> s[k - 1] in s;
    assert k < |s| ==> s[k] in s;
    assert k + 1 < |s| ==> s[k + 1] in s;
  }

  function SetNext(timer: map<Ptr, Timer>, n: Ptr, v: Link): map<Ptr, Timer> {
    if n in timer then timer[n := timer[n].(next := v)] else timer
  }

  function SetPrev(timer: map<Ptr, Timer>, n: Ptr, v: Link): map<Ptr, Timer> {
    if n in timer then timer[n := timer[n].(prev := v)] else timer
  }

  /** Memory after `n` was linked between `prev` and `next`; NULL is no timer, so it is not written. */
  ghost function LinkWrites(timer: map<Ptr, Timer>, n: Ptr, prev: Ptr, next: Ptr): map<Ptr, Timer> {
    SetNext(SetPrev(SetNext(SetPrev(timer, n, To(prev)), n, To(next)), next, To(n)), prev, To(n))
  }

  /** Memory after `n` was unlinked from between `prev` and `next`. */
  ghost function UnlinkWrites(timer: map<Ptr, Timer>, n: Ptr, prev: Ptr, next: Ptr): map<Ptr, Timer> {
    SetPrev(SetNext(SetPrev(SetNext(timer, prev, To(next)), next, To(prev)), n, Poison), n, Poison)
  }

  /** Only links change, and only that of `n` changes between poisoned and not. */
  ghost predicate OnlyLinks(timer: map<Ptr, Timer>, timer': map<Ptr, Timer>, n: Ptr) {
    && SameTimes(timer, timer')
    && forall x :: x in timer && x != n ==> (timer'[x].next == Poison <==> timer[x].next == Poison)
  }

  lemma LinkWritesAt(timer: map<Ptr, Timer>, n: Ptr, prev: Ptr, next: Ptr)
    requires n in timer && prev != n && next != n && (prev != next || prev !in timer)
    ensures var timer' := LinkWrites(timer, n, prev, next);
      && timer'.Keys == timer.Keys && timer'[n] == timer[n].(prev := To(prev), next := To(next))
      && (prev in timer ==> timer'[prev] == timer[prev].(next := To(n)))
      && (next in timer ==> timer'[next] == timer[next].(prev := To(n)))
      && forall x :: x in timer && x != n && x != prev && x != next ==> timer'[x] == timer[x]
  {
  }

  lemma UnlinkWritesAt(timer: map<Ptr, Timer>, n: Ptr, prev: Ptr, next: Ptr)
    requires n in timer && prev != n && next != n && (prev != next || prev !in timer)
    ensures var timer' := UnlinkWrites(timer, n, prev, next);
      && timer'.Keys == timer.Keys && timer'[n] == timer[n].(prev := Poison, next := Poison)
      && (prev in timer ==> timer'[prev] == timer[prev].(next := To(next)))
      && (next in timer ==> timer'[next] == timer[next].(prev := To(prev)))
      && forall x :: x in timer && x != n && x != prev && x != next ==> timer'[x] == timer[x]
  {
  }

  lemma OnlyLinksBy(timer: map<Ptr, Timer>, timer': map<Ptr, Timer>, n: Ptr, prev: Ptr, next: Ptr)
    requires timer'.Keys == timer.Keys && n in timer && timer'[n].expire == timer[n].expire && timer'[n].interval == timer[n].interval
    requires prev in timer ==> timer[prev].next != Poison && timer'[prev].next != Poison && timer'[prev] == timer[prev].(next := timer'[prev].next)
    requires next in timer ==> timer'[next] == timer[next].(prev := timer'[next].prev)
    requires forall x :: x in timer && x != n && x != prev && x != next ==> timer'[x] == timer[x]
    ensures OnlyLinks(timer, timer', n)
  {
  }

  lemma LinkWritesOk(timer: map<Ptr, Timer>, first: Ptr, s: seq<Ptr>, k: nat, n: Ptr)
    requires Threaded(timer, first, s) && Unrepeated(s) && NULL !in s && n in timer && n !in s && NULL !in timer && k <= |s|
    ensures var timer' := LinkWrites(timer, n, At(s, k - 1), At(s, k));
      && Threaded(timer', if k == 0 then n else first, PutIn(s, k, n))
      && OnlyLinks(timer, timer', n) && timer'[n].next != Poison
  {
    Neighbours(timer, first, s, k);
    assert k > 0 ==> s[k - 1] in s;
    assert k < |s| ==> s[k] in s;
    var timer' := LinkWrites(timer, n, At(s, k - 1), At(s, k));
    LinkWritesAt(timer, n, At(s, k - 1), At(s, k));
    hide LinkWrites, PutIn, Threaded, Unrepeated, OnlyLinks;
    OnlyLinksBy(timer, timer', n, At(s, k - 1), At(s, k));
    LinkedIn(timer, timer', first, s, k, n);
  }

  lemma UnlinkWritesOk(timer: map<Ptr, Timer>, first: Ptr, s: seq<Ptr>, k: nat)
    requires Threaded(timer, first, s) && Unrepeated(s) && NULL !in s && NULL !in timer && k < |s|
    ensures var timer' := UnlinkWrites(timer, s[k], At(s, k - 1), At(s, k + 1));
      && Threaded(timer', if k == 0 then At(s, 1) else first, TakenOut(s, k))
      && OnlyLinks(timer, timer', s[k]) && timer'[s[k]].next == Poison && timer'[s[k]].prev == Poison
  {
    Neighbours(timer, first, s, k);
    var timer' := UnlinkWrites(timer, s[k], At(s, k - 1), At(s, k + 1));
    UnlinkWritesAt(timer, s[k], At(s, k - 1), At(s, k + 1));
    hide UnlinkWrites, TakenOut, Threaded, Unrepeated, OnlyLinks;
    OnlyLinksBy(timer, timer', s[k], At(s, k - 1), At(s, k + 1));
    LinkedOut(timer, timer', first, s, k);
  }

  ghost predicate NoneLater(timer: map<Ptr, Timer>, s: seq<Ptr>, e: int) {
    forall x :: x in s ==> x in timer && timer[x].expire <= e
  }

  ghost predicate AllLater(timer: map<Ptr, Timer>, s: seq<Ptr>, e: int) {
    forall x :: x in s ==> x in timer && timer[x].expire > e
  }

  /** The search goes left at a later timer: so is everything to its right. */
  lemma WentLeft(timer: map<Ptr, Timer>, c: Ctx, t: Tree, e: int)
    requires t.Br? && Sorted(timer, OrderAt(c, t)) && t.node in timer && timer[t.node].expire > e && AllLater(timer, After(c), e)
    ensures AllLater(timer, After(InLeft(c, t.node, t.red, t.right)), e)
  {
    var s, p := OrderAt(c, t), |Before(c)| + |Inorder(t.left)|;
    assert s[p] == t.node;
    forall x | x in Inorder(t.right) ensures x in timer && timer[x].expire > e {
      var j :| 0 <= j < |Inorder(t.right)| && Inorder(t.right)[j] == x;
      assert s[p + 1 + j] == x;
    }
  }

  lemma WentRight(timer: map<Ptr, Timer>, c: Ctx, t: Tree, e: int)
    requires t.Br? && Sorted(timer, OrderAt(c, t)) && t.node in timer && timer[t.node].expire <= e && NoneLater(timer, Before(c), e)
    ensures NoneLater(timer, Before(InRight(c, t.node, t.red, t.left)), e)
  {
    var s, p := OrderAt(c, t), |Before(c)| + |Inorder(t.left)|;
    assert s[p] == t.node;
    forall x | x in Inorder(t.left) ensures x in timer && timer[x].expire <= e {
      var j :| 0 <= j < |Inorder(t.left)| && Inorder(t.left)[j] == x;
      assert s[|Before(c)| + j] == x;
    }
  }

  lemma DownOrder(c: Ctx, t: Tree)
    requires t.Br?
    ensures OrderAt(InLeft(c, t.node, t.red, t.right), t.left) == OrderAt(c, t)
    ensures OrderAt(InRight(c, t.node, t.red, t.left), t.right) == OrderAt(c, t)
  {
    StepUpOrder(InLeft(c, t.node, t.red, t.right), t.left);
    StepUpOrder(InRight(c, t.node, t.red, t.left), t.right);
  }

  ghost function LastOf(s: seq<Ptr>): Ptr {
    At(s, |s| - 1)
  }

  /** The tree's in-order sequence, without repeats and without NULL. */
  lemma OrderFacts(m: Memory, root: Ptr, tree: Tree)
    requires Settled(m, root, tree)
    ensures Unrepeated(Inorder(tree)) && NULL !in Inorder(tree)
    ensures forall x :: x in Inorder(tree) ==> x in Members(tree) && x in m
    ensures forall x :: x in Members(tree) ==> x in Inorder(tree)
  {
    InorderDistinct(tree);
    InorderMembers(tree);
    Nonzero(m, tree, NULL);
  }

  /** The place the search found, in terms of the list. */
  lemma FoundBehind(timer: map<Ptr, Timer>, pre: seq<Ptr>, post: seq<Ptr>, e: int)
    requires NoneLater(timer, pre, e) && AllLater(timer, post, e)
    ensures Behind(timer, pre + post, |pre|, e)
  {
    var s, k := pre + post, |pre|;
    forall i | 0 <= i < |s| ensures s[i] in timer && (i < k ==> timer[s[i]].expire <= e) && (i >= k ==> timer[s[i]].expire > e) {
      if i < k {
        assert s[i] in pre;
      } else {
        assert s[i] == post[i - k] && s[i] in post;
      }
    }
  }

  /** The tree parent is the first timer when nothing comes before. */
  lemma FirstParent(c: Ctx)
    requires Before(c) == []
    ensures ParentOf(c) == At(After(c), 0)
  {
    if !c.Top? {
      assert c.InLeft?;
      assert After(c)[0] == c.node;
    }
  }

  lemma Spliced(pre: seq<Ptr>, post: seq<Ptr>, n: Ptr)
    ensures PutIn(pre + post, |pre|, n) == pre + [n] + post
    ensures LastOf(pre) == At(pre + post, |pre| - 1) && At(post, 0) == At(pre + post, |pre|)
  {
    var s := pre + post;
    assert s[..|pre|] == pre && s[|pre|..] == post;
  }

  lemma PluggedOrder(c: Ctx)
    ensures Inorder(Plug(c, Leaf)) == Before(c) + After(c)
  {
    PlugOrder(c, Leaf);
  }

  lemma FoundPlace(timer: map<Ptr, Timer>, c: Ctx, tree: Tree, e: int, n: Ptr)
    requires Plug(c, Leaf) == tree && NoneLater(timer, Before(c), e) && AllLater(timer, After(c), e) && NULL !in Inorder(tree)
    ensures var s, k := Inorder(tree), |Before(c)|;
      && Behind(timer, s, k, e) && k <= |s| && LastOf(Before(c)) == At(s, k - 1)
      && PutIn(s, k, n) == Before(c) + [n] + After(c)
      && (At(s, k - 1) == NULL ==> ParentOf(c) == At(s, k))
  {
    hide Inorder, Before, After, Plug, Behind, NoneLater, AllLater, PutIn, ParentOf;
    var pre, post := Before(c), After(c);
    PluggedOrder(c);
    FoundBehind(timer, pre, post, e);
    Spliced(pre, post, n);
    if pre == [] {
      FirstParent(c);
    } else {
      assert (pre + post)[|pre| - 1] in pre + post;
    }
  }

  /** All that inserting needs to know of the place the search found. */
  lemma InsertFacts(m: Memory, root: Ptr, timer: map<Ptr, Timer>, tree: Tree, c: Ctx, n: Ptr)
    requires Settled(m, root, tree) && Sorted(timer, Inorder(tree)) && Marked(timer, Inorder(tree)) && n in timer && timer[n].next == Poison
    requires Plug(c, Leaf) == tree && NoneLater(timer, Before(c), timer[n].expire) && AllLater(timer, After(c), timer[n].expire)
    ensures var s, k := Inorder(tree), |Before(c)|;
      && Unrepeated(s) && NULL !in s && n !in s && k <= |s| && n !in Members(tree)
      && LastOf(Before(c)) == At(s, k - 1) && (At(s, k - 1) == NULL ==> ParentOf(c) == At(s, k))
      && Behind(timer, s, k, timer[n].expire) && Sorted(timer, PutIn(s, k, n)) && PutIn(s, k, n) == Before(c) + [n] + After(c)
  {
    OrderFacts(m, root, tree);
    assert n !in Inorder(tree);
    FoundPlace(timer, c, tree, timer[n].expire, n);
    hide Settled, Inorder, Plug, Before, After, Unrepeated, NoneLater, AllLater;
    PutInSorted(timer, Inorder(tree), |Before(c)|, n);
  }

  lemma UnlinkFacts(m: Memory, root: Ptr, timer: map<Ptr, Timer>, tree: Tree, n: Ptr) returns (k: nat)
    requires Settled(m, root, tree) && Marked(timer, Inorder(tree)) && n in timer && timer[n].next != Poison
    ensures Unrepeated(Inorder(tree)) && NULL !in Inorder(tree) && n in Members(tree) && k < |Inorder(tree)| && Inorder(tree)[k] == n
  {
    OrderFacts(m, root, tree);
    assert n in Inorder(tree);
    k :| k < |Inorder(tree)| && Inorder(tree)[k] == n;
  }

  lemma SamePlace(s: seq<Ptr>, s': seq<Ptr>, j: nat, k: nat)
    requires Unrepeated(s) && k < |s| && LostAt(s, s', j, s[k])
    ensures j == k && s' == TakenOut(s, k)
  {
  }

  lemma EmptyEnds()
    ensures Before(Top) == [] && After(Top) == []
  {
  }

  lemma SameBefore(c: Ctx, t: Tree)
    requires t.Br?
    ensures Before(InLeft(c, t.node, t.red, t.right)) == Before(c)
    ensures LastOf(Before(InRight(c, t.node, t.red, t.left))) == t.node
    ensures After(InRight(c, t.node, t.red, t.left)) == After(c)
  {
  }

  lemma DownPlug(c: Ctx, t: Tree)
    requires t.Br?
    ensures Plug(InLeft(c, t.node, t.red, t.right), t.left) == Plug(c, t)
    ensures Plug(InRight(c, t.node, t.red, t.left), t.right) == Plug(c, t)
  {
  }

  lemma SortedSame(timer: map<Ptr, Timer>, timer': map<Ptr, Timer>, s: seq<Ptr>)
    requires Sorted(timer, s) && SameTimes(timer, timer')
    ensures Sorted(timer', s)
  {
  }

  lemma SortedOut(timer: map<Ptr, Timer>, timer': map<Ptr, Timer>, s: seq<Ptr>, k: nat)
    requires Sorted(timer, s) && SameTimes(timer, timer') && k < |s|
    ensures Sorted(timer', TakenOut(s, k))
  {
    var s' := TakenOut(s, k);
    assert forall i :: 0 <= i < |s'| ==> s'[i] == s[if i < k then i else i + 1];
  }

  lemma SortedLinks(timer: map<Ptr, Timer>, timer': map<Ptr, Timer>, s: seq<Ptr>, n: Ptr)
    requires Sorted(timer, s) && OnlyLinks(timer, timer', n)
    ensures Sorted(timer', s) && timer'.Keys == timer.Keys
  {
    SortedSame(timer, timer', s);
  }

  lemma SortedOutLinks(timer: map<Ptr, Timer>, timer': map<Ptr, Timer>, s: seq<Ptr>, k: nat, n: Ptr)
    requires Sorted(timer, s) && OnlyLinks(timer, timer', n) && k < |s|
    ensures Sorted(timer', TakenOut(s, k)) && timer'.Keys == timer.Keys
  {
    SortedOut(timer, timer', s, k);
  }

  lemma MarkedPut(timer: map<Ptr, Timer>, timer': map<Ptr, Timer>, s: seq<Ptr>, k: nat, n: Ptr)
    requires Marked(timer, s) && OnlyLinks(timer, timer', n) && k <= |s| && n in timer' && timer'[n].next != Poison
    ensures Marked(timer', PutIn(s, k, n))
  {
    assert s == s[..k] + s[k..];
    assert forall x :: x in PutIn(s, k, n) <==> x in s || x == n;
  }

  lemma MarkedOut(timer: map<Ptr, Timer>, timer': map<Ptr, Timer>, s: seq<Ptr>, k: nat)
    requires Marked(timer, s) && Unrepeated(s) && k < |s| && OnlyLinks(timer, timer', s[k]) && s[k] in timer' && timer'[s[k]].next == Poison
    ensures Marked(timer', TakenOut(s, k))
  {
    var s' := TakenOut(s, k);
    forall x | x in timer' ensures timer'[x].next != Poison <==> x in s' {
      if x in s' {
        var i :| 0 <= i < |s'| && s'[i] == x;
        assert x == s[if i < k then i else i + 1];
      }
      if x in s && x != s[k] {
        var i :| 0 <= i < |s| && s[i] == x;
        assert s'[if i < k then i else i - 1] == x;
      }
    }
  }

  // ---- Expiry ------------------------------------------------------------------

  datatype Firing = Firing(node: Ptr, expiry: int)

  /** How often a timer can fire in one call: once per interval it is behind. */
  function Budget(t: Timer, now: int): nat {
    if t.expire > now then 0
    else if t.interval == ONE_SHOT then 1
    else Quotient(now - t.expire, Least(t)) + 1
  }

  /** How far a re-armed timer moves at least, once the clock has moved. */
  function Least(t: Timer): (d: int)
    ensures d >= 1
  {
    if t.interval < 1 then 1 else t.interval
  }

  function Quotient(a: nat, b: int): nat
    requires b >= 1
  {
    if a < b then 0 else 1 + Quotient(a - b, b)
  }

  /** The quotient is the rounded-down one. */
  lemma {:induction false} QuotientIsFloor(a: nat, b: int)
    requires b >= 1
    ensures Quotient(a, b) * b <= a < (Quotient(a, b) + 1) * b
  {
    if a >= b {
      QuotientIsFloor(a - b, b);
    }
  }

  lemma {:induction false} QuotientMono(a: nat, a': nat, b: int)
    requires b >= 1 && a <= a'
    ensures Quotient(a, b) <= Quotient(a', b)
  {
    if a >= b {
      QuotientMono(a - b, a' - b, b);
    }
  }

  /** A timer that moves on has no more to fire, and less if it moves by its interval, or by the clock. */
  lemma BudgetSpent(t: Timer, t': Timer, now: int)
    requires t.interval == t'.interval && t.interval != ONE_SHOT && t.expire <= now && t.expire <= t'.expire
    ensures Budget(t', now) <= Budget(t, now)
    ensures t'.expire >= t.expire + Least(t) ==> Budget(t', now) < Budget(t, now)
  {
    if t'.expire <= now {
      QuotientMono(now - t'.expire, now - t.expire, Least(t));
      if t'.expire >= t.expire + Least(t) {
        QuotientMono(now - t'.expire, now - t.expire - Least(t), Least(t));
      }
    }
  }

  ghost function Total(timer: map<Ptr, Timer>, now: int, s: seq<Ptr>): nat {
    if s == [] then 0 else (if s[0] in timer then Budget(timer[s[0]], now) else 0) + Total(timer, now, s[1..])
  }

  lemma {:induction false} TotalAppend(timer: map<Ptr, Timer>, now: int, a: seq<Ptr>, b: seq<Ptr>)
    ensures Total(timer, now, a + b) == Total(timer, now, a) + Total(timer, now, b)
  {
    if a == [] {
      assert a + b == b;
    } else {
      assert (a + b)[1..] == a[1..] + b;
      TotalAppend(timer, now, a[1..], b);
    }
  }

  lemma {:induction false} TotalSame(timer: map<Ptr, Timer>, timer': map<Ptr, Timer>, now: int, s: seq<Ptr>)
    requires timer.Keys == timer'.Keys
    requires forall x :: x in s && x in timer ==> timer'[x].expire == timer[x].expire && timer'[x].interval == timer[x].interval
    ensures Total(timer', now, s) == Total(timer, now, s)
  {
    if s != [] {
      TotalSame(timer, timer', now, s[1..]);
    }
  }

  lemma TotalPut(timer: map<Ptr, Timer>, now: int, s: seq<Ptr>, k: nat, n: Ptr)
    requires k <= |s| && n in timer
    ensures Total(timer, now, PutIn(s, k, n)) == Total(timer, now, s) + Budget(timer[n], now)
  {
    TotalAppend(timer, now, s[..k], s[k..]);
    assert s[..k] + s[k..] == s;
    TotalAppend(timer, now, s[..k] + [n], s[k..]);
    TotalAppend(timer, now, s[..k], [n]);
  }

  /** The clock in one call: read at the start, at the k-th re-arm, and how many re-arms it takes to move. */
  datatype Clock = Clock(now: int, tick: nat -> int, moves: nat)

  ghost predicate InWindow(timer: map<Ptr, Timer>, s: seq<Ptr>, w: Clock) {
    forall n :: n in s ==> n in timer && Comparable(timer[n], w)
  }

  /** The times lie in the half-range the macro can compare; a period of zero waits for the clock. */
  ghost predicate Comparable(t: Timer, w: Clock) {
    && 0 <= t.expire < WINDOW
    && (t.interval == ONE_SHOT ||
        (t.interval >= 0 && (forall k: nat :: w.tick(k) + t.interval < WINDOW) &&
         (t.interval == 0 ==> forall k: nat :: k >= w.moves ==> w.tick(k) > w.now)))
  }

  ghost function Times(fired: seq<Firing>, n: Ptr): nat {
    if fired == [] then 0 else Times(fired[..|fired| - 1], n) + (if fired[|fired| - 1].node == n then 1 else 0)
  }

  /** Changing the times of a timer that is not scheduled disturbs nothing. */
  lemma Retimed(timer: map<Ptr, Timer>, timer': map<Ptr, Timer>, first: Ptr, s: seq<Ptr>, n: Ptr)
    requires Threaded(timer, first, s) && Sorted(timer, s) && Marked(timer, s) && n in timer && timer[n].next == Poison
    requires n in timer' && timer' == timer[n := timer'[n]] && timer'[n].next == Poison
    ensures Threaded(timer', first, s) && Sorted(timer', s) && Marked(timer', s) && timer'.Keys == timer.Keys
  {
    assert n !in s;
    assert forall i :: 0 <= i < |s| ==> s[i] in s;
  }

  /** A timer nobody has scheduled disturbs nothing. */
  lemma Known(timer: map<Ptr, Timer>, timer': map<Ptr, Timer>, first: Ptr, s: seq<Ptr>, n: Ptr)
    requires Threaded(timer, first, s) && Sorted(timer, s) && Marked(timer, s) && n !in timer
    requires n in timer' && timer' == timer[n := timer'[n]] && timer'[n].next == Poison
    ensures Threaded(timer', first, s) && Sorted(timer', s) && Marked(timer', s)
  {
    assert n !in s;
    assert forall i :: 0 <= i < |s| ==> s[i] in s;
  }

  ghost predicate OthersKeep(timer: map<Ptr, Timer>, timer': map<Ptr, Timer>, n: Ptr) {
    timer'.Keys == timer.Keys &&
    forall x :: x in timer && x != n ==> timer'[x].expire == timer[x].expire && timer'[x].interval == timer[x].interval
  }

  lemma BehindBound(timer: map<Ptr, Timer>, s: seq<Ptr>, k: nat, e: int)
    requires Behind(timer, s, k, e)
    ensures k <= |s|
  {
  }

  lemma KeepLinks(timer: map<Ptr, Timer>, timed: map<Ptr, Timer>, timer': map<Ptr, Timer>, n: Ptr)
    requires OthersKeep(timer, timed, n) && OnlyLinks(timed, timer', n)
    ensures OthersKeep(timer, timer', n) && timer'.Keys == timed.Keys
    ensures n in timed ==> timer'[n].expire == timed[n].expire && timer'[n].interval == timed[n].interval
  {
  }

  /** The unsigned re-arm time is the plain one while nothing leaves the window. */
  lemma RearmTime(tick: int, interval: int, now: int, expire: int)
    requires 0 <= expire <= now <= tick && interval >= 0 && tick + interval < WINDOW
    ensures U64(tick + interval - U64(now - expire)) == expire + interval + (tick - now)
  {
  }

  lemma LostFirst(s: seq<Ptr>, s': seq<Ptr>, k: nat)
    requires s != [] && Unrepeated(s) && LostAt(s, s', k, s[0])
    ensures s' == s[1..]
  {
  }

  lemma BehindSame(timer: map<Ptr, Timer>, timer': map<Ptr, Timer>, s: seq<Ptr>, k: nat, e: int)
    requires Behind(timer, s, k, e) && SameTimes(timer, timer')
    ensures Behind(timer', s, k, e)
  {
  }

  lemma FirstIsHead(timer: map<Ptr, Timer>, first: Ptr, s: seq<Ptr>)
    requires Threaded(timer, first, s) && first != NULL
    ensures s != [] && s[0] == first && first in s && first in timer && timer[first].next != Poison
  {
  }

  // ---- One turn of the expiry loop, and what the turns so far keep -----------------

  /** `n` heads the list; it leaves if it is a one-shot, and is put back later if not. */
  ghost predicate Turned(timer: map<Ptr, Timer>, s: seq<Ptr>, timer': map<Ptr, Timer>, s': seq<Ptr>, n: Ptr, k: nat) {
    && s != [] && s[0] == n && n in timer && OthersKeep(timer, timer', n) && timer'[n].interval == timer[n].interval
    && if timer[n].interval == ONE_SHOT then s' == s[1..] && timer'[n].expire == timer[n].expire
       else timer'[n].expire >= timer[n].expire + timer[n].interval && k < |s| && s' == PutIn(s[1..], k, n)
  }

  lemma TurnedMembers(timer: map<Ptr, Timer>, s: seq<Ptr>, timer': map<Ptr, Timer>, s': seq<Ptr>, n: Ptr, k: nat)
    requires Turned(timer, s, timer', s', n, k) && Unrepeated(s)
    ensures forall x :: x in s' ==> x in s
    ensures forall x :: x in s && x != n ==> x in s'
    ensures n in s' <==> timer[n].interval != ONE_SHOT
  {
    assert s == [n] + s[1..];
    assert n !in s[1..];
    if timer[n].interval != ONE_SHOT {
      assert s[1..] == s[1..][..k] + s[1..][k..];
    }
  }

  /** The turn moves its timer on by more than nothing. */
  ghost predicate MovedOn(t: Timer, t': Timer) {
    t.interval == ONE_SHOT || t'.expire >= t.expire + Least(t)
  }

  lemma TurnedTotal(timer: map<Ptr, Timer>, s: seq<Ptr>, timer': map<Ptr, Timer>, s': seq<Ptr>, n: Ptr, k: nat, now: int)
    requires Turned(timer, s, timer', s', n, k) && Unrepeated(s)
    requires timer[n].expire <= now && timer[n].interval >= 0 && MovedOn(timer[n], timer'[n])
    ensures Total(timer', now, s') < Total(timer, now, s)
  {
    assert n !in s[1..];
    TotalSame(timer, timer', now, s[1..]);
    if timer[n].interval != ONE_SHOT {
      TotalPut(timer', now, s[1..], k, n);
      BudgetSpent(timer[n], timer'[n], now);
    }
  }

  /** The firings so far are in order and due, and nothing left is earlier. */
  ghost predicate InOrder(timer: map<Ptr, Timer>, s: seq<Ptr>, fired: seq<Firing>, now: int) {
    && (forall i :: 0 <= i < |fired| ==> fired[i].expiry <= now)
    && (forall i, j :: 0 <= i < j < |fired| ==> fired[i].expiry <= fired[j].expiry)
    && forall i, x :: 0 <= i < |fired| && x in s && x in timer ==> fired[i].expiry <= timer[x].expire
  }

  /** Two firings of one timer are at least an interval apart, and so is the next one. */
  ghost predicate Spaced(timer: map<Ptr, Timer>, s: seq<Ptr>, fired: seq<Firing>) {
    && (forall i :: 0 <= i < |fired| ==> fired[i].node in timer)
    && (forall i, j :: 0 <= i < j < |fired| && fired[i].node == fired[j].node ==>
         fired[i].expiry + timer[fired[i].node].interval <= fired[j].expiry)
    && forall i :: 0 <= i < |fired| && fired[i].node in s ==>
         fired[i].expiry + timer[fired[i].node].interval <= timer[fired[i].node].expire
  }

  ghost function Owed(timer: map<Ptr, Timer>, s: seq<Ptr>, n: Ptr, now: int): nat {
    if n in s && n in timer then Budget(timer[n], now) else 0
  }

  /** What a timer with a period of zero may fire more while the clock stands. */
  ghost function Spare(timer: map<Ptr, Timer>, n: Ptr, turns: nat, moves: nat): nat {
    if n in timer && timer[n].interval == 0 then (if turns < moves then turns else moves) else 0
  }

  /** Firings come out of the budget each timer began with. */
  ghost predicate Bounded(timer0: map<Ptr, Timer>, s0: seq<Ptr>, timer: map<Ptr, Timer>, s: seq<Ptr>, fired: seq<Firing>, w: Clock) {
    forall n :: Times(fired, n) + Owed(timer, s, n, w.now) <= Owed(timer0, s0, n, w.now) + Spare(timer0, n, |fired|, w.moves)
  }

  /** A timer leaves only by firing as a one-shot, and is untouched until it fires. */
  ghost predicate Accounted(timer0: map<Ptr, Timer>, s0: seq<Ptr>, timer: map<Ptr, Timer>, s: seq<Ptr>, fired: seq<Firing>) {
    && timer.Keys == timer0.Keys
    && (forall n :: n in s ==> n in s0)
    && (forall n :: n in s0 && n !in s ==> n in timer && timer[n].interval == ONE_SHOT && Times(fired, n) >= 1)
    && (forall n :: n in s && n in timer && Times(fired, n) >= 1 ==> timer[n].interval != ONE_SHOT)
    && (forall n :: n in timer ==> timer[n].interval == timer0[n].interval && (n in s ==> timer0[n].expire <= timer[n].expire))
    && (forall i :: 0 <= i < |fired| ==> fired[i].node in s0 && fired[i].node in timer0 && timer0[fired[i].node].expire <= fired[i].expiry)
    && forall n :: n in timer && Times(fired, n) == 0 ==> timer[n].expire == timer0[n].expire
  }

  lemma TimesPush(fired: seq<Firing>, f: Firing, n: Ptr)
    ensures Times(fired + [f], n) == Times(fired, n) + if f.node == n then 1 else 0
  {
    assert (fired + [f])[..|fired|] == fired;
  }

  lemma {:induction false} TimesNone(fired: seq<Firing>, n: Ptr)
    requires forall i :: 0 <= i < |fired| ==> fired[i].node != n
    ensures Times(fired, n) == 0
  {
    if fired != [] {
      TimesNone(fired[..|fired| - 1], n);
    }
  }

  lemma {:induction false} TimesSome(fired: seq<Firing>, i: nat)
    requires i < |fired|
    ensures Times(fired, fired[i].node) >= 1
  {
    if i < |fired| - 1 {
      TimesSome(fired[..|fired| - 1], i);
    }
  }

  lemma TurnKeepsOrder(timer: map<Ptr, Timer>, s: seq<Ptr>, timer': map<Ptr, Timer>, s': seq<Ptr>, n: Ptr, k: nat,
                       fired: seq<Firing>, now: int)
    requires Turned(timer, s, timer', s', n, k) && Unrepeated(s) && Sorted(timer, s) && InOrder(timer, s, fired, now)
    requires timer[n].expire <= now && timer[n].interval >= 0
    ensures InOrder(timer', s', fired + [Firing(n, timer[n].expire)], now)
  {
    TurnedMembers(timer, s, timer', s', n, k);
    var fired' := fired + [Firing(n, timer[n].expire)];
    assert n in s;
    forall x | x in s' && x in timer' ensures timer[n].expire <= timer'[x].expire && timer[x].expire <= timer'[x].expire {
      var j :| 0 <= j < |s| && s[j] == x;
    }
  }

  lemma TurnKeepsSpacing(timer: map<Ptr, Timer>, s: seq<Ptr>, timer': map<Ptr, Timer>, s': seq<Ptr>, n: Ptr, k: nat, fired: seq<Firing>)
    requires Turned(timer, s, timer', s', n, k) && Unrepeated(s) && Spaced(timer, s, fired) && timer[n].interval >= 0
    ensures Spaced(timer', s', fired + [Firing(n, timer[n].expire)])
  {
    TurnedMembers(timer, s, timer', s', n, k);
    assert n in s;
  }

  lemma TurnKeepsBound(timer0: map<Ptr, Timer>, s0: seq<Ptr>, timer: map<Ptr, Timer>, s: seq<Ptr>, timer': map<Ptr, Timer>, s': seq<Ptr>,
                       n: Ptr, k: nat, fired: seq<Firing>, w: Clock)
    requires Turned(timer, s, timer', s', n, k) && Unrepeated(s) && Bounded(timer0, s0, timer, s, fired, w)
    requires timer[n].expire <= w.now && timer[n].interval >= 0 && n in timer0 && timer0[n].interval == timer[n].interval
    requires |fired| >= w.moves || timer[n].interval > 0 ==> MovedOn(timer[n], timer'[n])
    ensures Bounded(timer0, s0, timer', s', fired + [Firing(n, timer[n].expire)], w)
  {
    TurnedMembers(timer, s, timer', s', n, k);
    assert n in s;
    var f, now := Firing(n, timer[n].expire), w.now;
    forall x ensures Times(fired + [f], x) + Owed(timer', s', x, now) <= Owed(timer0, s0, x, now) + Spare(timer0, x, |fired| + 1, w.moves) {
      TimesPush(fired, f, x);
      if x == n && timer[n].interval != ONE_SHOT {
        BudgetSpent(timer[n], timer'[n], now);
      }
      assert Times(fired, x) + Owed(timer, s, x, now) <= Owed(timer0, s0, x, now) + Spare(timer0, x, |fired|, w.moves);
    }
    hide Times, Turned, Budget, Unrepeated;
  }

  lemma TurnKeepsAccount(timer0: map<Ptr, Timer>, s0: seq<Ptr>, timer: map<Ptr, Timer>, s: seq<Ptr>, timer': map<Ptr, Timer>, s': seq<Ptr>,
                         n: Ptr, k: nat, fired: seq<Firing>)
    requires Turned(timer, s, timer', s', n, k) && Unrepeated(s) && Accounted(timer0, s0, timer, s, fired) && timer[n].interval >= 0
    ensures Accounted(timer0, s0, timer', s', fired + [Firing(n, timer[n].expire)])
  {
    TurnedMembers(timer, s, timer', s', n, k);
    assert n in s;
    var f := Firing(n, timer[n].expire);
    forall x ensures Times(fired + [f], x) == Times(fired, x) + if x == n then 1 else 0 {
      TimesPush(fired, f, x);
    }
  }

  lemma TurnKeepsWindow(timer: map<Ptr, Timer>, s: seq<Ptr>, timer': map<Ptr, Timer>, s': seq<Ptr>, n: Ptr, k: nat, w: Clock)
    requires Turned(timer, s, timer', s', n, k) && Unrepeated(s) && InWindow(timer, s, w)
    requires timer[n].interval != ONE_SHOT ==> timer'[n].expire < WINDOW
    ensures InWindow(timer', s', w)
  {
    TurnedMembers(timer, s, timer', s', n, k);
    assert n in s;
    assert Comparable(timer[n], w);
    forall x | x in s' ensures x in timer' && Comparable(timer'[x], w) {
      assert Comparable(timer[x], w);
    }
  }

  /** Everything the expiry loop keeps, between its entry and its current state. */
  ghost predicate Progress(timer0: map<Ptr, Timer>, s0: seq<Ptr>, timer: map<Ptr, Timer>, s: seq<Ptr>, fired: seq<Firing>, w: Clock) {
    && InOrder(timer, s, fired, w.now) && Spaced(timer, s, fired) && Bounded(timer0, s0, timer, s, fired, w)
    && Accounted(timer0, s0, timer, s, fired) && InWindow(timer, s, w)
  }

  lemma ProgressBegins(timer: map<Ptr, Timer>, s: seq<Ptr>, w: Clock)
    requires InWindow(timer, s, w)
    ensures Progress(timer, s, timer, s, [], w)
  {
  }

  lemma TurnKeepsProgress(timer0: map<Ptr, Timer>, s0: seq<Ptr>, timer: map<Ptr, Timer>, s: seq<Ptr>, timer': map<Ptr, Timer>, s': seq<Ptr>,
                          n: Ptr, k: nat, fired: seq<Firing>, w: Clock)
    requires Turned(timer, s, timer', s', n, k) && Unrepeated(s) && Sorted(timer, s) && timer[n].expire <= w.now
    requires timer[n].interval != ONE_SHOT ==> timer'[n].expire < WINDOW
    requires |fired| >= w.moves || timer[n].interval > 0 ==> MovedOn(timer[n], timer'[n])
    requires Progress(timer0, s0, timer, s, fired, w)
    ensures Progress(timer0, s0, timer', s', fired + [Firing(n, timer[n].expire)], w)
    ensures |fired| >= w.moves ==> Total(timer', w.now, s') < Total(timer, w.now, s)
  {
    assert n in s;
    assert Comparable(timer[n], w);
    assert timer[n].interval >= 0;
    assert n in timer0 && timer0[n].interval == timer[n].interval;
    hide Turned, InOrder, Spaced, Bounded, Accounted, InWindow, Sorted, Unrepeated, MovedOn;
    TurnKeepsOrder(timer, s, timer', s', n, k, fired, w.now);
    TurnKeepsSpacing(timer, s, timer', s', n, k, fired);
    TurnKeepsBound(timer0, s0, timer, s, timer', s', n, k, fired, w);
    TurnKeepsAccount(timer0, s0, timer, s, timer', s', n, k, fired);
    TurnKeepsWindow(timer, s, timer', s', n, k, w);
    if |fired| >= w.moves {
      TurnedTotal(timer, s, timer', s', n, k, w.now);
    }
  }

  lemma MakeTurn(timer: map<Ptr, Timer>, s: seq<Ptr>, timer': map<Ptr, Timer>, s': seq<Ptr>, n: Ptr, k: nat)
    requires s != [] && s[0] == n && n in timer && OthersKeep(timer, timer', n) && timer'[n].interval == timer[n].interval
    requires timer[n].interval == ONE_SHOT ==> s' == s[1..] && timer'[n].expire == timer[n].expire
    requires timer[n].interval != ONE_SHOT ==>
      timer'[n].expire >= timer[n].expire + timer[n].interval && k < |s| && s' == PutIn(s[1..], k, n)
    ensures Turned(timer, s, timer', s', n, k)
  {
  }

  /** What one call of the expiry loop did to the timers in the window, from its effect alone. */
  ghost predicate RanDue(timer0: map<Ptr, Timer>, s0: seq<Ptr>, timer: map<Ptr, Timer>, s: seq<Ptr>, fired: seq<Firing>, now: int, moves: nat) {
    // in order, and nothing before its time
    && (forall i :: 0 <= i < |fired| ==> fired[i].expiry <= now)
    && (forall i, j :: 0 <= i < j < |fired| ==> fired[i].expiry <= fired[j].expiry)
    // periods are kept
    && timer.Keys == timer0.Keys
    && (forall i :: 0 <= i < |fired| ==> fired[i].node in timer0)
    && (forall i, j :: 0 <= i < j < |fired| && fired[i].node == fired[j].node ==>
         fired[i].expiry + timer0[fired[i].node].interval <= fired[j].expiry)
    // exactly the due timers fire, each within its budget
    && (forall n :: n in s0 && n in timer0 ==> Times(fired, n) <= Budget(timer0[n], now) + if timer0[n].interval == 0 then moves else 0)
    && (forall n :: Times(fired, n) >= 1 <==> n in s0 && n in timer0 && timer0[n].expire <= now)
    // what stays is later, and only due one-shots went
    && (forall n :: n in s ==> n in timer && timer[n].expire > now)
    && (forall n :: n in s <==> n in s0 && n in timer0 && (timer0[n].interval != ONE_SHOT || timer0[n].expire > now))
    && forall n :: n in timer0 && !(n in s0 && timer0[n].expire <= now) ==> timer[n].expire == timer0[n].expire
  }

  lemma ProgressEnds(timer0: map<Ptr, Timer>, s0: seq<Ptr>, timer: map<Ptr, Timer>, s: seq<Ptr>, fired: seq<Firing>, w: Clock)
    requires Progress(timer0, s0, timer, s, fired, w) && InWindow(timer0, s0, w)
    requires forall x :: x in s ==> x in timer && timer[x].expire > w.now
    ensures RanDue(timer0, s0, timer, s, fired, w.now, w.moves)
  {
    assert forall n :: n in s0 ==> n in timer0;
    hide InWindow;
    forall n ensures Times(fired, n) <= Owed(timer0, s0, n, w.now) + Spare(timer0, n, |fired|, w.moves) {
      assert Times(fired, n) + Owed(timer, s, n, w.now) <= Owed(timer0, s0, n, w.now) + Spare(timer0, n, |fired|, w.moves);
    }
    forall n | Times(fired, n) >= 1 ensures n in s0 && n in timer0 && timer0[n].expire <= w.now {
      FiredWasDue(timer0, s0, timer, s, fired, w, n);
    }
  }

  /** A timer that fired was in the list, and due. */
  lemma FiredWasDue(timer0: map<Ptr, Timer>, s0: seq<Ptr>, timer: map<Ptr, Timer>, s: seq<Ptr>, fired: seq<Firing>, w: Clock, n: Ptr)
    requires Progress(timer0, s0, timer, s, fired, w) && Times(fired, n) >= 1
    ensures n in s0 && n in timer0 && timer0[n].expire <= w.now
  {
    if forall i :: 0 <= i < |fired| ==> fired[i].node != n {
      TimesNone(fired, n);
      assert false;
    }
    var i :| 0 <= i < |fired| && fired[i].node == n;
    assert fired[i].expiry <= w.now;
  }

  // ---- Timers beyond the window ----------------------------------------------------

  /** A one-shot whose expiry the macro cannot compare with a time in the window; "never" is one. */
  predicate Far(t: Timer) {
    WINDOW <= t.expire < 2 * WINDOW && t.interval == ONE_SHOT
  }

  ghost predicate AllFar(timer: map<Ptr, Timer>, s: seq<Ptr>) {
    forall n :: n in s ==> n in timer && Far(timer[n])
  }

  /** Each timer is one the macro can compare, or a far one-shot. */
  ghost predicate Timely(timer: map<Ptr, Timer>, s: seq<Ptr>, w: Clock) {
    forall n :: n in s ==> n in timer && (Comparable(timer[n], w) || Far(timer[n]))
  }

  /** In a sorted list the far ones come last. */
  lemma {:induction false} FarLast(timer: map<Ptr, Timer>, s: seq<Ptr>, w: Clock) returns (m: nat)
    requires Sorted(timer, s) && Timely(timer, s, w)
    ensures m <= |s| && InWindow(timer, s[..m], w) && AllFar(timer, s[m..])
  {
    if s == [] || timer[s[|s| - 1]].expire < WINDOW {
      m := |s|;
      assert s[..m] == s;
      AllNear(timer, s, w);
    } else {
      var t, last := s[..|s| - 1], s[|s| - 1];
      assert last in s && Far(timer[last]);
      m := FarLast(timer, t, w);
      hide Sorted, Timely, InWindow, Far;
      assert s[..m] == t[..m] && s[m..] == t[m..] + [last];
    }
  }

  lemma AllNear(timer: map<Ptr, Timer>, s: seq<Ptr>, w: Clock)
    requires Sorted(timer, s) && Timely(timer, s, w) && (s != [] ==> timer[s[|s| - 1]].expire < WINDOW)
    ensures InWindow(timer, s, w)
  {
    forall x | x in s ensures x in timer && Comparable(timer[x], w) {
      var i :| 0 <= i < |s| && s[i] == x;
      assert timer[x].expire < WINDOW;
      hide Comparable, Sorted;
    }
  }

  /** All of these are one-shots that are due. */
  ghost predicate Clears(timer: map<Ptr, Timer>, s: seq<Ptr>, now: int) {
    forall n :: n in s ==> n in timer && timer[n].interval == ONE_SHOT && timer[n].expire <= now
  }

  /** The loop gets to the far timers and takes them for due. */
  ghost predicate Overrun(timer: map<Ptr, Timer>, s: seq<Ptr>, m: nat, now: int)
    requires m <= |s|
  {
    Clears(timer, s[..m], now) && m < |s| && s[m] in timer && timer[s[m]].expire > now + WINDOW
  }

  ghost function FiringsOf(timer: map<Ptr, Timer>, s: seq<Ptr>): seq<Firing> {
    seq(|s|, i requires 0 <= i < |s| => Firing(s[i], if s[i] in timer then timer[s[i]].expire else 0))
  }

  ghost predicate SameExpiry(timer: map<Ptr, Timer>, timer': map<Ptr, Timer>, s: seq<Ptr>) {
    forall n :: n in s ==> n in timer && n in timer' && timer'[n].expire == timer[n].expire
  }

  /** Of the far timers `j` have fired, and the others are still there. */
  ghost predicate FarPart(timer0: map<Ptr, Timer>, s0: seq<Ptr>, m: nat, timer: map<Ptr, Timer>, rest: seq<Ptr>, late: seq<Firing>, j: nat, now: int) {
    && m + j <= |s0| && rest == s0[m + j..] && late == FiringsOf(timer0, s0[m..m + j])
    && AllFar(timer, rest) && SameExpiry(timer0, timer, s0[m..]) && (j > 0 ==> timer0[s0[m]].expire > now + WINDOW)
  }

  /** The loop under way: `b` timers of the window are in the list, and `j` far ones have fired. */
  ghost predicate Underway(timer0: map<Ptr, Timer>, s0: seq<Ptr>, m: nat, timer: map<Ptr, Timer>, s: seq<Ptr>, fired: seq<Firing>, b: nat, j: nat, w: Clock) {
    && m <= |s0| && b <= |s| && j <= |fired| && (j > 0 ==> b == 0)
    && Progress(timer0, s0[..m], timer, s[..b], fired[..|fired| - j], w)
    && FarPart(timer0, s0, m, timer, s[b..], fired[|fired| - j..], j, w.now)
  }

  lemma UnderwayFacts(timer0: map<Ptr, Timer>, s0: seq<Ptr>, m: nat, timer: map<Ptr, Timer>, s: seq<Ptr>, fired: seq<Firing>, b: nat, j: nat, w: Clock)
    requires Underway(timer0, s0, m, timer, s, fired, b, j, w)
    ensures b <= |s| && InWindow(timer, s[..b], w) && AllFar(timer, s[b..]) && (b > 0 ==> j == 0)
  {
  }

  /** What is left to fire in the window. */
  ghost function Left(timer: map<Ptr, Timer>, now: int, s: seq<Ptr>, b: nat): nat {
    if b <= |s| then Total(timer, now, s[..b]) else 0
  }

  lemma NothingLeft(timer: map<Ptr, Timer>, now: int, s: seq<Ptr>)
    ensures Left(timer, now, s, 0) == 0
  {
    assert s[..0] == [];
  }

  lemma UnderwayBegins(timer: map<Ptr, Timer>, s: seq<Ptr>, m: nat, w: Clock)
    requires m <= |s| && InWindow(timer, s[..m], w) && AllFar(timer, s[m..])
    ensures Underway(timer, s, m, timer, s, [], m, 0, w)
  {
    ProgressBegins(timer, s[..m], w);
    hide Progress, InWindow;
  }

  lemma PutNear(s: seq<Ptr>, k: nat, n: Ptr, b: nat)
    requires 0 < b <= |s| && k < b
    ensures PutIn(s[1..], k, n)[..b] == PutIn(s[..b][1..], k, n) && PutIn(s[1..], k, n)[b..] == s[b..]
  {
    assert s[..b][1..] == s[1..][..b - 1];
    assert s[1..] == s[1..][..b - 1] + s[b..];
  }

  lemma CutNear(s: seq<Ptr>, b: nat)
    requires 0 < b <= |s|
    ensures s[1..][..b - 1] == s[..b][1..] && s[1..][b - 1..] == s[b..]
  {
  }

  lemma PlacedNear(timer': map<Ptr, Timer>, s: seq<Ptr>, n: Ptr, k: nat, b: nat)
    requires 0 < b <= |s| && k < |s| && n in timer' && timer'[n].expire < WINDOW && Sorted(timer', PutIn(s[1..], k, n))
    requires b < |s| ==> s[b] in timer' && timer'[s[b]].expire >= WINDOW
    ensures k < b
  {
    var s' := PutIn(s[1..], k, n);
    assert s'[k] == n && forall i :: 0 <= i < k ==> s'[i] == s[1..][i];
  }

  /** A re-armed timer is put among those of the window. */
  lemma NearTurn(timer: map<Ptr, Timer>, s: seq<Ptr>, timer': map<Ptr, Timer>, s': seq<Ptr>, n: Ptr, k: nat, b: nat)
    requires Turned(timer, s, timer', s', n, k) && Unrepeated(s) && Sorted(timer', s') && 0 < b <= |s| && AllFar(timer, s[b..])
    requires timer[n].interval != ONE_SHOT ==> timer'[n].expire < WINDOW
    ensures var b' := if timer[n].interval == ONE_SHOT then b - 1 else b;
      && b' <= |s'| && s'[b'..] == s[b..] && Turned(timer, s[..b], timer', s'[..b'], n, k)
      && AllFar(timer', s'[b'..])
  {
    assert n !in s[b..];
    assert AllFar(timer', s[b..]) by { hide Sorted, Unrepeated, PutIn; }
    if b < |s| {
      assert s[b] in s[b..];
    }
    hide Sorted, Unrepeated, PutIn, AllFar, OthersKeep;
    if timer[n].interval != ONE_SHOT {
      assert b < |s| ==> s[b] in timer' && timer'[s[b]].expire >= WINDOW by { assert b < |s| ==> Far(timer'[s[b]]); }
      PlacedNear(timer', s, n, k, b);
      PutNear(s, k, n, b);
    } else {
      CutNear(s, b);
    }
  }

  lemma TailUntouched(timer0: map<Ptr, Timer>, timer: map<Ptr, Timer>, timer': map<Ptr, Timer>, tail: seq<Ptr>, s: seq<Ptr>, b: nat, n: Ptr)
    requires SameExpiry(timer0, timer, tail) && OthersKeep(timer, timer', n) && Unrepeated(s) && 0 < b <= |s| && s[0] == n && tail == s[b..]
    ensures SameExpiry(timer0, timer', tail)
  {
    assert n !in s[b..];
  }

  lemma PrefixSorted(timer: map<Ptr, Timer>, s: seq<Ptr>, b: nat)
    requires Sorted(timer, s) && Unrepeated(s) && b <= |s|
    ensures Sorted(timer, s[..b]) && Unrepeated(s[..b])
  {
  }

  lemma TurnedHead(timer: map<Ptr, Timer>, s: seq<Ptr>, timer': map<Ptr, Timer>, s': seq<Ptr>, n: Ptr, k: nat)
    requires Turned(timer, s, timer', s', n, k)
    ensures s != [] && s[0] == n && n in timer && OthersKeep(timer, timer', n)
  {
  }

  lemma UnderwayNear(timer0: map<Ptr, Timer>, s0: seq<Ptr>, m: nat, timer: map<Ptr, Timer>, s: seq<Ptr>, timer': map<Ptr, Timer>, s': seq<Ptr>,
                     fired: seq<Firing>, b: nat, w: Clock, n: Ptr, k: nat)
    requires Underway(timer0, s0, m, timer, s, fired, b, 0, w) && b > 0 && Unrepeated(s) && Sorted(timer, s) && Sorted(timer', s')
    requires Turned(timer, s, timer', s', n, k) && timer[n].expire <= w.now
    requires timer[n].interval != ONE_SHOT ==> timer'[n].expire < WINDOW
    requires |fired| >= w.moves || timer[n].interval > 0 ==> MovedOn(timer[n], timer'[n])
    ensures var b' := if timer[n].interval == ONE_SHOT then b - 1 else b;
      && Underway(timer0, s0, m, timer', s', fired + [Firing(n, timer[n].expire)], b', 0, w)
      && (|fired| >= w.moves ==> Total(timer', w.now, s'[..b']) < Total(timer, w.now, s[..b]))
  {
    var b' := if timer[n].interval == ONE_SHOT then b - 1 else b;
    var fired' := fired + [Firing(n, timer[n].expire)];
    hide Turned, Progress, Sorted, MovedOn, AllFar, SameExpiry, Unrepeated, OthersKeep, Total, FiringsOf;
    PrefixSorted(timer, s, b);
    TurnedHead(timer, s, timer', s', n, k);
    NearTurn(timer, s, timer', s', n, k, b);
    assert fired[..|fired|] == fired && fired'[..|fired'|] == fired';
    TailUntouched(timer0, timer, timer', s0[m..], s, b, n);
    TurnKeepsProgress(timer0, s0[..m], timer, s[..b], timer', s'[..b'], n, k, fired, w);
    assert fired'[|fired'|..] == fired[|fired|..];
  }

  lemma FiringsMore(timer: map<Ptr, Timer>, s: seq<Ptr>, m: nat, j: nat)
    requires m + j < |s| && s[m + j] in timer
    ensures FiringsOf(timer, s[m..m + j + 1]) == FiringsOf(timer, s[m..m + j]) + [Firing(s[m + j], timer[s[m + j]].expire)]
  {
    assert s[m..m + j + 1] == s[m..m + j] + [s[m + j]];
  }

  lemma FarLists(s0: seq<Ptr>, at: nat, s: seq<Ptr>, s': seq<Ptr>)
    requires at <= |s0| && s == s0[at..] && s != [] && s' == s[1..]
    ensures at < |s0| && s[0] == s0[at] && s' == s0[at + 1..]
  {
  }

  lemma FiredMore(fired: seq<Firing>, j: nat, f: Firing)
    requires j <= |fired|
    ensures var fired', i := fired + [f], |fired| - j; fired'[..i] == fired[..i] && fired'[i..] == fired[i..] + [f]
  {
  }

  lemma FarPartMore(timer0: map<Ptr, Timer>, s0: seq<Ptr>, m: nat, timer: map<Ptr, Timer>, timer': map<Ptr, Timer>, rest: seq<Ptr>, late: seq<Firing>, j: nat, now: int)
    requires FarPart(timer0, s0, m, timer, rest, late, j, now) && rest != [] && rest[0] in timer && timer[rest[0]].expire > now + WINDOW
    requires OthersKeep(timer, timer', rest[0]) && timer'[rest[0]].interval == timer[rest[0]].interval && timer'[rest[0]].expire == timer[rest[0]].expire
    ensures FarPart(timer0, s0, m, timer', rest[1..], late + [Firing(rest[0], timer[rest[0]].expire)], j + 1, now)
  {
    FarLists(s0, m + j, rest, rest[1..]);
    FarMember(timer0, timer, s0, m, j);
    FiringsMore(timer0, s0, m, j);
    FarKept(timer0, timer, timer', s0[m..], rest, rest[1..], rest[0]);
    hide SameExpiry, AllFar, FiringsOf, OthersKeep;
  }

  lemma OneShotTurned(timer: map<Ptr, Timer>, s: seq<Ptr>, timer': map<Ptr, Timer>, s': seq<Ptr>, n: Ptr, k: nat)
    requires Turned(timer, s, timer', s', n, k) && timer[n].interval == ONE_SHOT
    ensures s != [] && s[0] == n && s' == s[1..] && n in timer && OthersKeep(timer, timer', n) && timer'.Keys == timer.Keys
    ensures forall x :: x in timer ==> timer'[x].expire == timer[x].expire && timer'[x].interval == timer[x].interval
  {
  }

  lemma UnderwayFar(timer0: map<Ptr, Timer>, s0: seq<Ptr>, m: nat, timer: map<Ptr, Timer>, s: seq<Ptr>, timer': map<Ptr, Timer>, s': seq<Ptr>,
                    fired: seq<Firing>, j: nat, w: Clock, n: Ptr, k: nat)
    requires Underway(timer0, s0, m, timer, s, fired, 0, j, w) && Turned(timer, s, timer', s', n, k)
    requires timer[n].interval == ONE_SHOT && timer[n].expire > w.now + WINDOW
    ensures Underway(timer0, s0, m, timer', s', fired + [Firing(n, timer[n].expire)], 0, j + 1, w)
  {
    hide Progress, FarPart, OthersKeep, PutIn, Turned;
    OneShotTurned(timer, s, timer', s', n, k);
    assert s[0..] == s && s'[0..] == s' && s[..0] == [] && s'[..0] == [];
    FarPartMore(timer0, s0, m, timer, timer', s, fired[|fired| - j..], j, w.now);
    FiredMore(fired, j, Firing(n, timer[n].expire));
    SameProgress(timer0, s0[..m], timer, timer', fired[..|fired| - j], w);
  }

  lemma FarMember(timer0: map<Ptr, Timer>, timer: map<Ptr, Timer>, s0: seq<Ptr>, m: nat, j: nat)
    requires m + j < |s0| && SameExpiry(timer0, timer, s0[m..])
    ensures s0[m + j] in timer0 && s0[m + j] in timer && timer[s0[m + j]].expire == timer0[s0[m + j]].expire && s0[m] in timer0
  {
    assert s0[m..][j] in s0[m..] && s0[m..][0] in s0[m..];
  }

  lemma FarKept(timer0: map<Ptr, Timer>, timer: map<Ptr, Timer>, timer': map<Ptr, Timer>, tail: seq<Ptr>, s: seq<Ptr>, s': seq<Ptr>, n: Ptr)
    requires SameExpiry(timer0, timer, tail) && AllFar(timer, s) && s != [] && s' == s[1..] && n in timer
    requires OthersKeep(timer, timer', n) && timer'[n].interval == timer[n].interval && timer'[n].expire == timer[n].expire
    ensures SameExpiry(timer0, timer', tail) && AllFar(timer', s') && timer'.Keys == timer.Keys
    ensures forall x :: x in timer ==> timer'[x].expire == timer[x].expire && timer'[x].interval == timer[x].interval
  {
  }

  lemma SameProgress(timer0: map<Ptr, Timer>, s0: seq<Ptr>, timer: map<Ptr, Timer>, timer': map<Ptr, Timer>, fired: seq<Firing>, w: Clock)
    requires Progress(timer0, s0, timer, [], fired, w) && timer'.Keys == timer.Keys
    requires forall n :: n in timer ==> timer'[n].expire == timer[n].expire && timer'[n].interval == timer[n].interval
    ensures Progress(timer0, s0, timer', [], fired, w)
  {
    forall n ensures Times(fired, n) + Owed(timer', [], n, w.now) <= Owed(timer0, s0, n, w.now) + Spare(timer0, n, |fired|, w.moves) {
      assert Times(fired, n) + Owed(timer, [], n, w.now) <= Owed(timer0, s0, n, w.now) + Spare(timer0, n, |fired|, w.moves);
    }
  }

  /**
   What one call did: the timers of the window as `RanDue` says; the far ones all fired as well if the
   others had all gone and the first of them passes for due, and none otherwise.
   */
  ghost predicate Ran(timer0: map<Ptr, Timer>, s0: seq<Ptr>, m: nat, timer: map<Ptr, Timer>, s: seq<Ptr>, fired: seq<Firing>, now: int, moves: nat) {
    && m <= |s0|
    && var far := |s0| - m;
    if Overrun(timer0, s0, m, now) then
      s == [] && |fired| >= far && fired[|fired| - far..] == FiringsOf(timer0, s0[m..]) &&
      RanDue(timer0, s0[..m], timer, [], fired[..|fired| - far], now, moves)
    else
      |s| >= far && s[|s| - far..] == s0[m..] && RanDue(timer0, s0[..m], timer, s[..|s| - far], fired, now, moves)
  }

  /** The head of the list is due as the macro sees it: what that means. */
  lemma HeadDue(timer: map<Ptr, Timer>, first: Ptr, s: seq<Ptr>, b: nat, w: Clock)
    requires Threaded(timer, first, s) && first != NULL && b <= |s| && InWindow(timer, s[..b], w) && AllFar(timer, s[b..]) && 0 <= w.now < WINDOW
    ensures s != [] && s[0] == first && first in timer && (if b > 0 then Comparable(timer[first], w) else Far(timer[first]))
    ensures TimeAfterEq(w.now, timer[first].expire) <==> if b > 0 then timer[first].expire <= w.now else timer[first].expire > w.now + WINDOW
  {
    FirstIsHead(timer, first, s);
    hide Threaded, TimeAfterEq;
    if b > 0 {
      assert first in s[..b];
      assert Comparable(timer[first], w);
      TimeAfterEqExact(w.now, timer[first].expire);
    } else {
      assert first in s[b..];
      FarDue(w.now, timer[first].expire);
    }
  }

  lemma NothingDue(timer: map<Ptr, Timer>, first: Ptr, s: seq<Ptr>, b: nat, w: Clock)
    requires Threaded(timer, first, s) && Sorted(timer, s) && NULL !in s && 0 <= w.now < WINDOW
    requires b <= |s| && InWindow(timer, s[..b], w) && AllFar(timer, s[b..])
    requires first == NULL || (first in timer && !TimeAfterEq(w.now, timer[first].expire))
    ensures forall x :: x in s[..b] ==> x in timer && timer[x].expire > w.now
    ensures b == 0 && s != [] ==> s[0] in timer && timer[s[0]].expire <= w.now + WINDOW
  {
    if s != [] {
      assert first == s[0] && s[0] in s;
      HeadDue(timer, first, s, b, w);
    }
  }

  /** The timers of the window are all gone exactly if they were all due one-shots. */
  lemma GoneIfClear(timer0: map<Ptr, Timer>, s0: seq<Ptr>, timer: map<Ptr, Timer>, s: seq<Ptr>, fired: seq<Firing>, now: int, moves: nat)
    requires RanDue(timer0, s0, timer, s, fired, now, moves) && forall n :: n in s0 ==> n in timer0
    ensures s == [] <==> Clears(timer0, s0, now)
  {
    if s != [] {
      assert s[0] in s;
    }
  }

  /** With the window empty, the loop stops at a far timer that does not pass for due, or has taken all. */
  lemma FarEnds(timer0: map<Ptr, Timer>, s0: seq<Ptr>, m: nat, timer: map<Ptr, Timer>, s: seq<Ptr>, j: nat, now: int)
    requires m + j <= |s0| && s == s0[m + j..] && AllFar(timer0, s0[m..]) && Sorted(timer0, s0) && SameExpiry(timer0, timer, s0[m..])
    requires s != [] ==> s[0] in timer && timer[s[0]].expire <= now + WINDOW
    requires m < |s0| && timer0[s0[m]].expire > now + WINDOW
    ensures s == [] && m + j == |s0|
  {
    assert s == [];
  }

  lemma EndsOver(timer0: map<Ptr, Timer>, s0: seq<Ptr>, m: nat, timer: map<Ptr, Timer>, s: seq<Ptr>, fired: seq<Firing>, j: nat, w: Clock)
    requires m + j <= |s0| && j <= |fired| && s == s0[m + j..] && fired[|fired| - j..] == FiringsOf(timer0, s0[m..m + j])
    requires RanDue(timer0, s0[..m], timer, [], fired[..|fired| - j], w.now, w.moves)
    requires AllFar(timer0, s0[m..]) && Sorted(timer0, s0) && SameExpiry(timer0, timer, s0[m..])
    requires s != [] ==> s[0] in timer && timer[s[0]].expire <= w.now + WINDOW
    requires Overrun(timer0, s0, m, w.now)
    ensures Ran(timer0, s0, m, timer, s, fired, w.now, w.moves)
  {
    hide RanDue, Clears, FiringsOf;
    FarEnds(timer0, s0, m, timer, s, j, w.now);
    assert s0[m..m + j] == s0[m..];
  }

  lemma EndsShort(timer0: map<Ptr, Timer>, s0: seq<Ptr>, m: nat, timer: map<Ptr, Timer>, s: seq<Ptr>, fired: seq<Firing>, b: nat, w: Clock)
    requires m <= |s0| && b <= |s| && s[b..] == s0[m..] && RanDue(timer0, s0[..m], timer, s[..b], fired, w.now, w.moves)
    requires !Overrun(timer0, s0, m, w.now)
    ensures Ran(timer0, s0, m, timer, s, fired, w.now, w.moves)
  {
    hide RanDue, Clears;
    assert |s| - (|s0| - m) == b;
  }

  lemma UnderwayEnds(timer0: map<Ptr, Timer>, s0: seq<Ptr>, m: nat, timer: map<Ptr, Timer>, s: seq<Ptr>, fired: seq<Firing>, b: nat, j: nat, w: Clock)
    requires Underway(timer0, s0, m, timer, s, fired, b, j, w) && InWindow(timer0, s0[..m], w) && AllFar(timer0, s0[m..]) && Sorted(timer0, s0)
    requires forall x :: x in s[..b] ==> x in timer && timer[x].expire > w.now
    requires b == 0 && s != [] ==> s[0] in timer && timer[s[0]].expire <= w.now + WINDOW
    ensures Ran(timer0, s0, m, timer, s, fired, w.now, w.moves)
  {
    assert m < |s0| ==> s0[m] in timer0;
    assert forall n :: n in s0[..m] ==> n in timer0;
    hide Progress, InWindow, RanDue, Clears, Sorted, AllFar, SameExpiry, FiringsOf, Ran;
    ProgressEnds(timer0, s0[..m], timer, s[..b], fired[..|fired| - j], w);
    GoneIfClear(timer0, s0[..m], timer, s[..b], fired[..|fired| - j], w.now, w.moves);
    if Overrun(timer0, s0, m, w.now) {
      assert s[..b] == [] && b == 0 && s[0..] == s;
      EndsOver(timer0, s0, m, timer, s, fired, j, w);
    } else {
      assert j == 0;
      assert fired[..|fired|] == fired;
      EndsShort(timer0, s0, m, timer, s, fired, b, w);
    }
  }

  /** A far one-shot fires in a call exactly if the call overruns. */
  lemma FarFires(timer0: map<Ptr, Timer>, s0: seq<Ptr>, m: nat, timer: map<Ptr, Timer>, s: seq<Ptr>, fired: seq<Firing>, now: int, moves: nat, n: Ptr)
    requires Ran(timer0, s0, m, timer, s, fired, now, moves) && Unrepeated(s0) && n in s0[m..]
    ensures (exists i :: 0 <= i < |fired| && fired[i].node == n) <==> Overrun(timer0, s0, m, now)
  {
    if Overrun(timer0, s0, m, now) {
      var i :| 0 <= i < |s0[m..]| && s0[m..][i] == n;
      assert fired[|fired| - (|s0| - m)..][i].node == n;
      assert fired[|fired| - (|s0| - m) + i].node == n;
    } else if exists i :: 0 <= i < |fired| && fired[i].node == n {
      var i :| 0 <= i < |fired| && fired[i].node == n;
      TimesSome(fired, i);
    }
  }

  /** Where nothing is meant to fire later than the window but "never" itself: when "never" fires. */
  lemma NeverFires(timer0: map<Ptr, Timer>, s0: seq<Ptr>, m: nat, timer: map<Ptr, Timer>, s: seq<Ptr>, fired: seq<Firing>, now: int, moves: nat, n: Ptr)
    requires Ran(timer0, s0, m, timer, s, fired, now, moves) && Unrepeated(s0) && n in s0[m..]
    requires forall x :: x in s0[m..] ==> x in timer0 && timer0[x].expire == NEVER
    ensures (exists i :: 0 <= i < |fired| && fired[i].node == n) <==> Clears(timer0, s0[..m], now) && now + 1 < WINDOW
  {
    FarFires(timer0, s0, m, timer, s, fired, now, moves, n);
    assert s0[m] in s0[m..];
    hide Ran;
  }

  class Base {
    const active: Root
    var first: Ptr
    var timer: map<Ptr, Timer>

    /** Tree, list, first pointer and poison marks all say the same. */
    ghost predicate Valid(tree: Tree)
      reads this, active
    {
      && active.Valid(tree) && active.mem.Keys == timer.Keys && NULL !in timer
      && Threaded(timer, first, Inorder(tree)) && Sorted(timer, Inorder(tree)) && Marked(timer, Inorder(tree))
    }

    constructor ()
      ensures Valid(Leaf) && timer == map[] && fresh(active)
    {
      active := new Root();
      first, timer := NULL, map[];
    }

    /** __timer_link_list */
    method LinkList(n: Ptr, prev: Ptr, parent: Ptr, ghost s: seq<Ptr>, ghost k: nat)
      requires Threaded(timer, first, s) && Unrepeated(s) && NULL !in s && NULL !in timer && n in timer && n !in s && k <= |s|
      requires prev == At(s, k - 1)
      requires prev == NULL ==> parent == At(s, k)      // the tree parent is then the first timer
      modifies this`timer, this`first
      ensures Threaded(timer, first, PutIn(s, k, n)) && OnlyLinks(old(timer), timer, n) && timer[n].next != Poison
    {
      Neighbours(timer, first, s, k);
      LinkWritesOk(timer, first, s, k, n);
      hide Threaded, Unrepeated, OnlyLinks, PutIn;
      timer := SetPrev(timer, n, To(prev));
      if prev == NULL {
        if parent != NULL {
          timer := SetNext(timer, n, To(parent));
          timer := SetPrev(timer, parent, To(n));
        } else {
          timer := SetNext(timer, n, To(NULL));
        }
        first := n;
      } else {
        var next := timer[prev].next;
        timer := SetNext(timer, n, next);
        if next.target != NULL {
          timer := SetPrev(timer, next.target, To(n));
        }
        timer := SetNext(timer, prev, To(n));
      }
    }

    /** __timer_unlink_list */
    method UnlinkList(n: Ptr, ghost s: seq<Ptr>, ghost k: nat)
      requires Threaded(timer, first, s) && Unrepeated(s) && NULL !in s && NULL !in timer && k < |s| && s[k] == n
      modifies this`timer, this`first
      ensures Threaded(timer, first, TakenOut(s, k)) && OnlyLinks(old(timer), timer, n)
      ensures timer[n].next == Poison && timer[n].prev == Poison
    {
      Neighbours(timer, first, s, k);
      UnlinkWritesOk(timer, first, s, k);
      hide Threaded, Unrepeated, OnlyLinks, TakenOut;
      var next := timer[n].next.target;
      if first == n {
        if next != NULL {
          timer := SetPrev(timer, next, To(NULL));
          first := next;
        } else {
          first := NULL;
        }
      } else {
        var prev := timer[n].prev.target;
        timer := SetNext(timer, prev, To(next));
        if next != NULL {
          timer := SetPrev(timer, next, To(prev));
        }
      }
      timer := SetNext(timer, n, Poison);
      timer := SetPrev(timer, n, Poison);
    }

    /** __find_timer_prepare: down the tree, left past every timer that is later. */
    method Find(n: Ptr, ghost tree: Tree) returns (parent: Ptr, asLeft: bool, prev: Ptr, ghost c: Ctx)
      requires Valid(tree) && n in timer
      ensures Plug(c, Leaf) == tree && parent == ParentOf(c) && (!c.Top? ==> asLeft == c.InLeft?)
      ensures prev == LastOf(Before(c))
      ensures NoneLater(timer, Before(c), timer[n].expire) && AllLater(timer, After(c), timer[n].expire)
    {
      ghost var t := tree;
      var link := active.root;
      parent, asLeft, prev, c := NULL, false, NULL, Top;
      FocusReads(active.mem, active.root, Top, tree);
      assert OrderAt(Top, tree) == Inorder(tree);
      hide Focus, Plug, OrderAt, Settled, Threaded, Marked, Inorder, Before, After, Sorted;
      EmptyEnds();
      while link != NULL
        invariant Focus(active.mem, active.root, c, t) && Plug(c, t) == tree && OrderAt(c, t) == Inorder(tree)
        invariant link == RootOf(t) && (t.Br? ==> link != NULL && link in active.mem && active.mem[link].left == RootOf(t.left) && active.mem[link].right == RootOf(t.right))
        invariant parent == ParentOf(c) && (!c.Top? ==> asLeft == c.InLeft?) && prev == LastOf(Before(c))
        invariant NoneLater(timer, Before(c), timer[n].expire) && AllLater(timer, After(c), timer[n].expire)
        decreases t
      {
        parent := link;
        DownOrder(c, t);
        if timer[link].expire > timer[n].expire {
          WentLeft(timer, c, t, timer[n].expire);
          SameBefore(c, t);
          DownPlug(c, t);
          c, t := InLeft(c, t.node, t.red, t.right), t.left;
          asLeft, link := true, active.mem[link].left;
        } else {
          WentRight(timer, c, t, timer[n].expire);
          SameBefore(c, t);
          DownPlug(c, t);
          prev := link;
          c, t := InRight(c, t.node, t.red, t.left), t.right;
          asLeft, link := false, active.mem[link].right;
        }
        Refocus(active.mem, active.root, c, t);
        FocusReads(active.mem, active.root, c, t);
      }
    }

    /** __insert_timer: behind every timer that expires no later, in list and tree. */
    method Insert(n: Ptr, ghost tree: Tree) returns (ghost tree': Tree, ghost k: nat)
      requires Valid(tree) && n in timer && timer[n].next == Poison
      modifies this`timer, this`first, active
      ensures Valid(tree') && OnlyLinks(old(timer), timer, n)
      ensures Behind(old(timer), Inorder(tree), k, old(timer)[n].expire) && Inorder(tree') == PutIn(Inorder(tree), k, n)
    {
      hide Sorted, Threaded, Behind, Settled, Inorder, Before, After, Plug, Marked, Unrepeated, PutIn, LastOf, ParentOf, NoneLater, AllLater, OnlyLinks;
      var parent, asLeft, prev;
      ghost var c;
      parent, asLeft, prev, c := Find(n, tree);
      InsertFacts(active.mem, active.root, timer, tree, c, n);
      k := |Before(c)|;
      ghost var s := Inorder(tree);
      LinkList(n, prev, parent, s, k);
      tree' := active.Insert(n, parent, asLeft, c, tree);
      SortedLinks(old(timer), timer, PutIn(s, k, n), n);
      MarkedPut(old(timer), timer, s, k, n);
    }

    /** __unlink_timer: out of list and tree, and marked as not scheduled. */
    method Unlink(n: Ptr, ghost tree: Tree) returns (ghost tree': Tree, ghost k: nat)
      requires Valid(tree) && n in timer && timer[n].next != Poison
      modifies this`timer, this`first, active
      ensures Valid(tree') && OnlyLinks(old(timer), timer, n) && timer[n].next == Poison
      ensures LostAt(Inorder(tree), Inorder(tree'), k, n)
    {
      hide Sorted, Threaded, Settled, Inorder, Marked, Unrepeated, OnlyLinks, TakenOut, LostAt;
      k := UnlinkFacts(active.mem, active.root, timer, tree, n);
      ghost var s := Inorder(tree);
      UnlinkList(n, s, k);
      ghost var j;
      tree', j := active.Erase(n, tree);
      SamePlace(s, Inorder(tree'), j, k);
      SortedOutLinks(old(timer), timer, s, k, n);
      MarkedOut(old(timer), timer, s, k);
    }

    /** Writes the times of a timer that is not scheduled. */
    method SetTimes(n: Ptr, expire: int, interval: int, ghost tree: Tree)
      requires Valid(tree) && n in timer && timer[n].next == Poison
      modifies this`timer
      ensures Valid(tree) && OthersKeep(old(timer), timer, n) && timer[n].next == Poison
      ensures timer[n].expire == expire && timer[n].interval == interval
    {
      hide Threaded, Sorted, Marked, Settled, Inorder;
      Retimed(timer, timer[n := timer[n].(expire := expire, interval := interval)], first, Inorder(tree), n);
      timer := timer[n := timer[n].(expire := expire, interval := interval)];
    }

    /** __sched_timer; `tick` is what aosl_tick_now answers. */
    method Schedule(n: Ptr, at: int, tick: int, ghost tree: Tree) returns (ghost tree': Tree, ghost k: nat)
      requires Valid(tree) && n in timer && timer[n].next == Poison
      modifies this`timer, this`first, active
      ensures Valid(tree') && OthersKeep(old(timer), timer, n) && n in timer
      ensures timer[n].interval == if at != 0 then ONE_SHOT else old(timer)[n].interval
      ensures timer[n].expire ==
        if at != 0 then at else if old(timer)[n].interval != ONE_SHOT then U64(tick + old(timer)[n].interval) else NEVER
      ensures Behind(timer, Inorder(tree), k, timer[n].expire) && Inorder(tree') == PutIn(Inorder(tree), k, n)
    {
      hide Threaded, Sorted, Marked, Settled, Inorder, PutIn, Behind;
      if at != 0 {
        SetTimes(n, at, ONE_SHOT, tree);
      } else if timer[n].interval != ONE_SHOT {
        SetTimes(n, U64(tick + timer[n].interval), timer[n].interval, tree);
      } else {
        SetTimes(n, NEVER, timer[n].interval, tree);
      }
      ghost var timed := timer;
      tree', k := Insert(n, tree);
      BehindSame(timed, timer, Inorder(tree), k, timer[n].expire);
    }

    /** __create_timer_on_q: the timer is known, and not scheduled. */
    method Create(n: Ptr, cell: Cell, interval: int, ghost tree: Tree)
      requires Valid(tree) && n != NULL && n !in timer
      modifies this`timer, active`mem
      ensures Valid(tree) && timer == old(timer)[n := Timer(Poison, Poison, NEVER, interval)]
    {
      hide Threaded, Sorted, Marked, Settled, Inorder;
      active.AddNode(n, cell, tree);
      Known(timer, timer[n := Timer(Poison, Poison, NEVER, interval)], first, Inorder(tree), n);
      timer := timer[n := Timer(Poison, Poison, NEVER, interval)];
    }

    /** __set_timer_on_q: afterwards it is in the list behind all that expire no later. */
    method Set(n: Ptr, cell: Cell, interval: int, at: int, tick: int, ghost tree: Tree) returns (ghost tree': Tree, ghost k: nat)
      requires Valid(tree) && n != NULL && n !in timer
      modifies this`timer, this`first, active
      ensures Valid(tree') && n in timer && OthersKeep(old(timer)[n := timer[n]], timer, n)
      ensures timer[n].interval == if at != 0 then ONE_SHOT else interval
      ensures timer[n].expire == if at != 0 then at else if interval != ONE_SHOT then U64(tick + interval) else NEVER
      ensures Behind(timer, Inorder(tree), k, timer[n].expire) && Inorder(tree') == PutIn(Inorder(tree), k, n)
    {
      hide Threaded, Sorted, Marked, Settled, Inorder, PutIn, Behind;
      Create(n, cell, interval, tree);
      tree', k := Schedule(n, at, tick, tree);
    }

    /** __cancel_timer_on_q: afterwards the timer is not scheduled, and nothing else changed. */
    method Cancel(n: Ptr, ghost tree: Tree) returns (ghost tree': Tree)
      requires Valid(tree) && n in timer
      modifies this`timer, this`first, active
      ensures Valid(tree') && OnlyLinks(old(timer), timer, n) && timer[n].next == Poison
      ensures n in Inorder(tree) ==> exists k: nat :: LostAt(Inorder(tree), Inorder(tree'), k, n)
      ensures n !in Inorder(tree) ==> tree' == tree
    {
      tree' := tree;
      if timer[n].next != Poison {
        ghost var k;
        tree', k := Unlink(n, tree);
      }
    }

    /** __resched_timer: wherever the timer was, it is now at the one place its new expiry says. */
    method Reschedule(n: Ptr, interval: int, at: int, tick: int, ghost tree: Tree) returns (ghost mid: Tree, ghost tree': Tree, ghost k: nat)
      requires Valid(tree) && n in timer
      modifies this`timer, this`first, active
      ensures Valid(tree') && OthersKeep(old(timer), timer, n) && n in timer
      ensures timer[n].interval == if at != 0 then ONE_SHOT else if interval != ONE_SHOT then interval else old(timer)[n].interval
      ensures timer[n].expire == if at != 0 then at else if timer[n].interval != ONE_SHOT then U64(tick + timer[n].interval) else NEVER
      ensures n in Inorder(tree) ==> exists j: nat :: LostAt(Inorder(tree), Inorder(mid), j, n)
      ensures n !in Inorder(tree) ==> mid == tree
      ensures Behind(timer, Inorder(mid), k, timer[n].expire) && Inorder(tree') == PutIn(Inorder(mid), k, n)
    {
      hide Threaded, Sorted, Marked, Settled, Inorder, PutIn, Behind, LostAt;
      mid := Cancel(n, tree);
      if at == 0 && interval != ONE_SHOT {
        SetTimes(n, timer[n].expire, interval, mid);
      }
      tree', k := Schedule(n, at, tick, mid);
    }

    /** The part of the expiry loop that puts a periodic timer back. */
    method Rearm(n: Ptr, now: int, tick: int, ghost tree: Tree) returns (ghost tree': Tree, ghost k: nat)
      requires Valid(tree) && n in timer && timer[n].next == Poison
      requires 0 <= timer[n].expire <= now <= tick && timer[n].interval >= 0 && tick + timer[n].interval < WINDOW
      modifies this`timer, this`first, active
      ensures Valid(tree') && OthersKeep(old(timer), timer, n) && n in timer && timer[n].interval == old(timer)[n].interval
      ensures timer[n].expire == old(timer)[n].expire + timer[n].interval + (tick - now)
      ensures k <= |Inorder(tree)| && Inorder(tree') == PutIn(Inorder(tree), k, n)
    {
      hide Threaded, Sorted, Marked, Settled, Inorder, PutIn, OthersKeep, Behind, U64, OnlyLinks;
      RearmTime(tick, timer[n].interval, now, timer[n].expire);
      SetTimes(n, U64(tick + timer[n].interval - U64(now - timer[n].expire)), timer[n].interval, tree);
      ghost var timed := timer;
      tree', k := Insert(n, tree);
      BehindBound(timed, Inorder(tree), k, timed[n].expire);
      KeepLinks(old(timer), timed, timer, n);
    }

    method TakeFirst(ghost tree: Tree) returns (n: Ptr, ghost tree': Tree)
      requires Valid(tree) && first != NULL
      modifies this`timer, this`first, active
      ensures n == old(first) && Valid(tree') && OnlyLinks(old(timer), timer, n) && n in timer && timer[n].next == Poison
      ensures Inorder(tree) != [] && Inorder(tree)[0] == n && Inorder(tree') == Inorder(tree)[1..]
    {
      n := first;
      OrderFacts(active.mem, active.root, tree);
      FirstIsHead(timer, first, Inorder(tree));
      ghost var s, k := Inorder(tree), 0;
      hide Threaded, Sorted, Settled, Inorder, Marked;
      tree', k := Unlink(n, tree);
      LostFirst(s, Inorder(tree'), k);
    }

    /** One turn of the expiry loop: the first timer leaves, and comes back later if it is periodic. */
    method FireFirst(now: int, tick: int, ghost tree: Tree) returns (n: Ptr, ghost tree': Tree, ghost k: nat)
      requires Valid(tree) && first != NULL
      requires timer[first].interval == ONE_SHOT ||
        (0 <= timer[first].expire <= now <= tick && timer[first].interval >= 0 && tick + timer[first].interval < WINDOW)
      modifies this`timer, this`first, active
      ensures n == old(first) && Valid(tree') && OthersKeep(old(timer), timer, n) && n in timer && Inorder(tree) != [] && Inorder(tree)[0] == n
      ensures timer[n].interval == old(timer)[n].interval
      ensures timer[n].interval == ONE_SHOT ==> Inorder(tree') == Inorder(tree)[1..] && timer[n].expire == old(timer)[n].expire
      ensures timer[n].interval != ONE_SHOT ==>
        && timer[n].expire == old(timer)[n].expire + timer[n].interval + (tick - now)
        && k <= |Inorder(tree)| - 1 && Inorder(tree') == PutIn(Inorder(tree)[1..], k, n)
    {
      hide Threaded, Sorted, Settled, Inorder, PutIn, Marked;
      n, tree' := TakeFirst(tree);
      k := 0;
      if timer[n].interval != ONE_SHOT {
        tree', k := Rearm(n, now, tick, tree');
      }
    }

    /** One turn, as a part of the whole loop. */
    method Turn(now: int, tick: int, ghost timer0: map<Ptr, Timer>, ghost s0: seq<Ptr>, ghost m: nat, ghost fired: seq<Firing>, ghost b: nat, ghost j: nat, ghost w: Clock, ghost tree: Tree)
      returns (f: Firing, ghost b': nat, ghost j': nat, ghost tree': Tree)
      requires Valid(tree) && first != NULL && TimeAfterEq(now, timer[first].expire) && 0 <= now < WINDOW && now == w.now <= tick == w.tick(|fired|)
      requires Underway(timer0, s0, m, timer, Inorder(tree), fired, b, j, w)
      modifies this`timer, this`first, active
      ensures Valid(tree') && Underway(timer0, s0, m, timer, Inorder(tree'), fired + [f], b', j', w)
      ensures |fired| < w.moves || Left(timer, now, Inorder(tree'), b') < old(Left(timer, now, Inorder(tree), b))
        || (Left(timer, now, Inorder(tree'), b') == old(Left(timer, now, Inorder(tree), b)) && |Inorder(tree')| < |Inorder(tree)|)
    {
      hide Threaded, Sorted, Marked, Settled, Inorder, Progress, InWindow, AllFar, Underway, Turned, Unrepeated, Total, TimeAfterEq;
      UnderwayFacts(timer0, s0, m, timer, Inorder(tree), fired, b, j, w);
      HeadDue(timer, first, Inorder(tree), b, w);
      OrderFacts(active.mem, active.root, tree);
      ghost var was, s, k := timer, Inorder(tree), 0;
      var n, expiry := first, timer[first].expire;
      n, tree', k := FireFirst(now, tick, tree);
      f, b', j' := Firing(n, expiry), b, j;
      MakeTurn(was, s, timer, Inorder(tree'), n, k);
      if b > 0 {
        UnderwayNear(timer0, s0, m, was, s, timer, Inorder(tree'), fired, b, w, n, k);
        b' := if was[n].interval == ONE_SHOT then b - 1 else b;
        UnderwayFacts(timer0, s0, m, timer, Inorder(tree'), fired + [f], b', j, w);
      } else {
        UnderwayFar(timer0, s0, m, was, s, timer, Inorder(tree'), fired, j, w, n, k);
        j' := j + 1;
        NothingLeft(was, now, s);
        NothingLeft(timer, now, Inorder(tree'));
      }
    }

    /** __check_and_run_timers, for callbacks that leave timers alone; `tick(k)` is the clock at the k-th re-arm. */
    method RunDue(now: int, tick: nat -> int, ghost moves: nat, ghost tree: Tree) returns (fired: seq<Firing>, ghost m: nat, ghost tree': Tree)
      requires Valid(tree) && 0 <= now < WINDOW && (forall k: nat :: tick(k) >= now) && Timely(timer, Inorder(tree), Clock(now, tick, moves))
      modifies this`timer, this`first, active
      ensures m <= |Inorder(tree)| && InWindow(old(timer), Inorder(tree)[..m], Clock(now, tick, moves)) && AllFar(old(timer), Inorder(tree)[m..])
      ensures Valid(tree') && Ran(old(timer), Inorder(tree), m, timer, Inorder(tree'), fired, now, moves)
    {
      fired, tree' := [], tree;
      ghost var w, s0 := Clock(now, tick, moves), Inorder(tree);
      m := FarLast(timer, s0, w);
      ghost var b, j := m, 0;
      UnderwayBegins(timer, s0, m, w);
      hide Threaded, Sorted, Marked, Settled, Inorder, Progress, InWindow, AllFar, Underway, Ran, Timely, Left, TimeAfterEq;
      while first != NULL && TimeAfterEq(now, timer[first].expire)
        invariant Valid(tree') && Underway(old(timer), s0, m, timer, Inorder(tree'), fired, b, j, w)
        decreases if |fired| < moves then moves - |fired| else 0, Left(timer, now, Inorder(tree'), b), |Inorder(tree')|
      {
        var f;
        f, b, j, tree' := Turn(now, tick(|fired|), old(timer), s0, m, fired, b, j, w, tree');
        fired := fired + [f];
      }
      UnderwayFacts(old(timer), s0, m, timer, Inorder(tree'), fired, b, j, w);
      OrderFacts(active.mem, active.root, tree');
      NothingDue(timer, first, Inorder(tree'), b, w);
      UnderwayEnds(old(timer), s0, m, timer, Inorder(tree'), fired, b, j, w);
    }
  }

  /** A one-shot set for time zero is set for "never", which fires in the first call. */
  method ZeroIsAtOnce(cell: Cell, now: int, tick: nat -> int) returns (fired: seq<Firing>)
    requires 0 <= now < WINDOW && forall k: nat :: tick(k) >= now
    ensures |fired| == (if now + 1 < WINDOW then 1 else 0) && (fired != [] ==> fired[0] == Firing(1, NEVER))
  {
    var base := new Base();
    ghost var tree, k, m, tree';
    tree, k := base.Set(1, cell, ONE_SHOT, 0, now, Leaf);
    assert Inorder(tree) == [1];
    ghost var s, timer := Inorder(tree), base.timer;
    hide Threaded, Sorted, Marked, Settled, Inorder, Ran, Behind, PutIn, OthersKeep;
    fired, m, tree' := base.RunDue(now, tick, 0, tree);
    NoneNear(timer, s, m, Clock(now, tick, 0));
    OneFar(timer, s, base.timer, Inorder(tree'), fired, now);
  }

  lemma NoneNear(timer: map<Ptr, Timer>, s: seq<Ptr>, m: nat, w: Clock)
    requires s == [1] && m <= |s| && InWindow(timer, s[..m], w) && 1 in timer && timer[1].expire == NEVER
    ensures m == 0
  {
    assert s[..1] == [1];
    assert 1 in s[..1];
  }

  lemma OneFar(timer0: map<Ptr, Timer>, s0: seq<Ptr>, timer: map<Ptr, Timer>, s: seq<Ptr>, fired: seq<Firing>, now: int)
    requires Ran(timer0, s0, 0, timer, s, fired, now, 0) && s0 == [1] && 1 in timer0 && timer0[1].expire == NEVER
    ensures |fired| == (if now + 1 < WINDOW then 1 else 0) && (fired != [] ==> fired[0] == Firing(1, NEVER))
  {
    assert s0[..0] == [] && s0[0..] == [1];
    var n := if Overrun(timer0, s0, 0, now) then |fired| - 1 else |fired|;
    NoFiring(timer0, timer, if Overrun(timer0, s0, 0, now) then [] else s[..|s| - 1], fired[..n], now);
    assert fired == fired[..n] + fired[n..];
  }

  /** No timers, no firings. */
  lemma NoFiring(timer0: map<Ptr, Timer>, timer: map<Ptr, Timer>, s: seq<Ptr>, fired: seq<Firing>, now: int)
    requires RanDue(timer0, [], timer, s, fired, now, 0)
    ensures fired == []
  {
    if fired != [] {
      TimesSome(fired, 0);
    }
  }
}

/**
 The mathematical side of the red-black tree: trees over nodes, and contexts
 (the way from a place in the tree up to the root) that say what the loops
 of lib/rbtree.c have already walked past.  A node is an address.
 */
module RbShape {
  type Ptr = nat
  const NULL: Ptr := 0

  datatype Tree = Leaf | Br(left: Tree, node: Ptr, red: bool, right: Tree)

  /** A tree with one subtree missing; `up` leads towards the root. */
  datatype Ctx =
    | Top
    | InLeft(up: Ctx, node: Ptr, red: bool, right: Tree)   // the hole is the left child of node
    | InRight(up: Ctx, node: Ptr, red: bool, left: Tree)   // the hole is the right child of node

  ghost function RootOf(t: Tree): Ptr {
    if t.Leaf? then NULL else t.node
  }

  ghost function ParentOf(c: Ctx): Ptr {
    if c.Top? then NULL else c.node
  }

  ghost function TopOf(c: Ctx, hole: Ptr): Ptr {
    if c.Top? then hole else TopOf(c.up, c.node)
  }

  ghost function Members(t: Tree): set<Ptr> {
    match t
    case Leaf => {}
    case Br(l, n, _, r) => Members(l) + {n} + Members(r)
  }

  ghost function Beside(c: Ctx): Tree
    requires !c.Top?
  {
    if c.InLeft? then c.right else c.left
  }

  ghost function Around(c: Ctx): set<Ptr> {
    if c.Top? then {} else Around(c.up) + {c.node} + Members(Beside(c))
  }

  ghost predicate Distinct(t: Tree) {
    match t
    case Leaf => true
    case Br(l, n, _, r) => n !in Members(l) && n !in Members(r) && Members(l) !! Members(r) && Distinct(l) && Distinct(r)
  }

  ghost predicate DistinctCtx(c: Ctx) {
    !c.Top? ==>
      && c.node !in Members(Beside(c)) && c.node !in Around(c.up) && Members(Beside(c)) !! Around(c.up)
      && Distinct(Beside(c)) && DistinctCtx(c.up)
  }

  /** No node occurs twice in the tree that has `t` at `c`. */
  ghost predicate Apart(c: Ctx, t: Tree) {
    Distinct(t) && DistinctCtx(c) && Around(c) !! Members(t)
  }

  /** The context one level up holds the tree one level larger. */
  ghost function Closed(c: Ctx, t: Tree): Tree
    requires !c.Top?
  {
    if c.InLeft? then Br(t, c.node, c.red, c.right) else Br(c.left, c.node, c.red, t)
  }

  ghost function Plug(c: Ctx, t: Tree): Tree {
    if c.Top? then t else Plug(c.up, Closed(c, t))
  }

  ghost function Append(inner: Ctx, outer: Ctx): Ctx {
    match inner
    case Top => outer
    case InLeft(up, n, red, r) => InLeft(Append(up, outer), n, red, r)
    case InRight(up, n, red, l) => InRight(Append(up, outer), n, red, l)
  }

  lemma StepUp(c: Ctx, t: Tree)
    requires !c.Top?
    ensures Apart(c, t) <==> Apart(c.up, Closed(c, t))
    ensures Around(c) + Members(t) == Around(c.up) + Members(Closed(c, t))
  {
  }

  ghost function TurnLeft(t: Tree): Tree
    requires t.Br? && t.right.Br?
  {
    Br(Br(t.left, t.node, t.red, t.right.left), t.right.node, t.right.red, t.right.right)
  }

  ghost function TurnRight(t: Tree): Tree
    requires t.Br? && t.left.Br?
  {
    Br(t.left.left, t.left.node, t.left.red, Br(t.left.right, t.node, t.red, t.right))
  }

  lemma TurnLeftKeeps(t: Tree)
    requires t.Br? && t.right.Br? && Distinct(t)
    ensures Members(TurnLeft(t)) == Members(t) && Distinct(TurnLeft(t))
  {
    var low := Br(t.left, t.node, t.red, t.right.left);
    assert Members(low) == Members(t.left) + {t.node} + Members(t.right.left);
    assert Members(t.right) == Members(t.right.left) + {t.right.node} + Members(t.right.right);
    assert Distinct(low);
  }

  lemma TurnRightKeeps(t: Tree)
    requires t.Br? && t.left.Br? && Distinct(t)
    ensures Members(TurnRight(t)) == Members(t) && Distinct(TurnRight(t))
  {
    var low := Br(t.left.right, t.node, t.red, t.right);
    assert Members(low) == Members(t.left.right) + {t.node} + Members(t.right);
    assert Members(t.left) == Members(t.left.left) + {t.left.node} + Members(t.left.right);
    assert Distinct(low);
  }

  // ---- Order -------------------------------------------------------------------

  ghost function Inorder(t: Tree): seq<Ptr> {
    match t
    case Leaf => []
    case Br(l, n, _, r) => Inorder(l) + [n] + Inorder(r)
  }

  ghost function Before(c: Ctx): seq<Ptr> {
    match c
    case Top => []
    case InLeft(up, _, _, _) => Before(up)
    case InRight(up, n, _, l) => Before(up) + Inorder(l) + [n]
  }

  ghost function After(c: Ctx): seq<Ptr> {
    match c
    case Top => []
    case InLeft(up, n, _, r) => [n] + Inorder(r) + After(up)
    case InRight(up, _, _, _) => After(up)
  }

  /** The in-order sequence of the whole tree, seen from a place in it. */
  ghost function OrderAt(c: Ctx, t: Tree): seq<Ptr> {
    Before(c) + Inorder(t) + After(c)
  }

  lemma StepUpOrder(c: Ctx, t: Tree)
    requires !c.Top?
    ensures OrderAt(c.up, Closed(c, t)) == OrderAt(c, t)
  {
    match c
    case InLeft(up, n, red, r) =>
      hide Inorder, Before, After;
      Flatten(Before(up), Inorder(t), n, Inorder(r), After(up));
    case InRight(up, n, red, l) =>
      hide Inorder, Before, After;
      Flatten(Before(up), Inorder(l), n, Inorder(t), After(up));
  }

  lemma Flatten(a: seq<Ptr>, b: seq<Ptr>, n: Ptr, c: seq<Ptr>, d: seq<Ptr>)
    ensures a + (b + [n] + c) + d == a + b + ([n] + c + d) && a + (b + [n] + c) + d == (a + b + [n]) + c + d
  {
  }

  lemma Regroup(a: seq<Ptr>, x: Ptr, b: seq<Ptr>, y: Ptr, d: seq<Ptr>)
    ensures a + [x] + (b + [y] + d) == (a + [x] + b) + [y] + d
  {
  }

  lemma TurnLeftOrder(t: Tree)
    requires t.Br? && t.right.Br?
    ensures Inorder(TurnLeft(t)) == Inorder(t)
  {
    var r := t.right;
    assert Inorder(Br(t.left, t.node, t.red, r.left)) == Inorder(t.left) + [t.node] + Inorder(r.left);
    Regroup(Inorder(t.left), t.node, Inorder(r.left), r.node, Inorder(r.right));
  }

  lemma TurnRightOrder(t: Tree)
    requires t.Br? && t.left.Br?
    ensures Inorder(TurnRight(t)) == Inorder(t)
  {
    var l := t.left;
    assert Inorder(Br(l.right, t.node, t.red, t.right)) == Inorder(l.right) + [t.node] + Inorder(t.right);
    Regroup(Inorder(l.left), l.node, Inorder(l.right), t.node, Inorder(t.right));
  }

  lemma {:induction false} PlugOrder(c: Ctx, t: Tree)
    ensures Inorder(Plug(c, t)) == OrderAt(c, t)
    decreases c
  {
    if !c.Top? {
      StepUpOrder(c, t);
      PlugOrder(c.up, Closed(c, t));
    }
  }

  lemma {:induction false} InorderMembers(t: Tree)
    ensures forall n :: n in Inorder(t) ==> n in Members(t)
    ensures forall n :: n in Members(t) ==> n in Inorder(t)
  {
    match t
    case Leaf =>
    case Br(l, _, _, r) => InorderMembers(l); InorderMembers(r);
  }

  lemma {:induction false} InorderDistinct(t: Tree)
    requires Distinct(t)
    ensures forall i, j :: 0 <= i < j < |Inorder(t)| ==> Inorder(t)[i] != Inorder(t)[j]
  {
    match t
    case Leaf =>
    case Br(l, _, _, r) =>
      InorderDistinct(l);
      InorderDistinct(r);
      InorderMembers(l);
      InorderMembers(r);
      assert forall x :: x in Inorder(l) ==> x in Members(l) && x !in Members(r) && x !in Inorder(r);
      NoRepeat(Inorder(l), t.node, Inorder(r));
  }

  lemma NoRepeat(a: seq<Ptr>, n: Ptr, b: seq<Ptr>)
    requires forall i, j :: 0 <= i < j < |a| ==> a[i] != a[j]
    requires forall i, j :: 0 <= i < j < |b| ==> b[i] != b[j]
    requires n !in a && n !in b && forall x :: x in a ==> x !in b
    ensures var s := a + [n] + b; forall i, j :: 0 <= i < j < |s| ==> s[i] != s[j]
  {
    var s := a + [n] + b;
    forall i, j | 0 <= i < j < |s| ensures s[i] != s[j] {
      if i < |a| {
        assert s[i] == a[i] && a[i] in a;
        assert s[j] == if j < |a| then a[j] else if j == |a| then n else b[j - |a| - 1];
      } else {
        assert s[i] == if i == |a| then n else b[i - |a| - 1];
        assert s[j] == b[j - |a| - 1] && s[j] in b;
      }
    }
  }

  // ---- Balance -----------------------------------------------------------------

  ghost predicate Red(t: Tree) {
    t.Br? && t.red
  }

  /** Black nodes on a path from the root of `t` to a leaf. */
  ghost function Height(t: Tree): nat {
    match t
    case Leaf => 0
    case Br(l, _, red, _) => Height(l) + (if red then 0 else 1)
  }

  /** No red node has a red child, and all paths hold equally many black nodes. */
  ghost predicate Balanced(t: Tree) {
    match t
    case Leaf => true
    case Br(l, _, red, r) => Balanced(l) && Balanced(r) && Height(l) == Height(r) && (red ==> !Red(l) && !Red(r))
  }

  /** A balanced subtree of black height `h`, red at its root only if `red`, may go into the hole. */
  ghost predicate Fits(c: Ctx, h: nat, red: bool) {
    !c.Top? ==>
      && Balanced(Beside(c)) && Height(Beside(c)) == h && (c.red ==> !red && !Red(Beside(c)))
      && Fits(c.up, h + (if c.red then 0 else 1), c.red)
  }

  /** The root of the tree is red, as far as the context shows it. */
  ghost predicate TopRed(c: Ctx) {
    if c.Top? then false else if c.up.Top? then c.red else TopRed(c.up)
  }

  lemma {:induction false} PlugBalanced(c: Ctx, t: Tree)
    ensures Balanced(Plug(c, t)) <==> Balanced(t) && Fits(c, Height(t), Red(t))
    decreases c
  {
    if !c.Top? {
      PlugBalanced(c.up, Closed(c, t));
    }
  }

  lemma {:induction false} PlugRed(c: Ctx, t: Tree)
    ensures Red(Plug(c, t)) <==> if c.Top? then Red(t) else TopRed(c)
    decreases c
  {
    if !c.Top? {
      PlugRed(c.up, Closed(c, t));
    }
  }

  function Pow2(h: nat): nat {
    if h == 0 then 1 else 2 * Pow2(h - 1)
  }

  ghost function Depth(t: Tree): nat {
    match t
    case Leaf => 0
    case Br(l, _, _, r) => 1 + (if Depth(l) >= Depth(r) then Depth(l) else Depth(r))
  }

  /** Balance makes the tree shallow: depth at most twice the base-2 logarithm of the node count plus one. */
  lemma {:induction false} BalancedIsShallow(t: Tree)
    requires Balanced(t)
    ensures Pow2(Height(t)) <= |Inorder(t)| + 1
    ensures Depth(t) <= 2 * Height(t) + (if Red(t) then 1 else 0)
  {
    match t
    case Leaf =>
    case Br(l, _, _, r) => BalancedIsShallow(l); BalancedIsShallow(r);
  }
}

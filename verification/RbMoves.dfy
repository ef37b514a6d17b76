/**
 Moves on red-black trees: what the pointer writes of a rotation, a recolouring or
 a replacement make of the memory, of the shape and of the in-order sequence.
 */
module RbMoves {
  import opened RbShape
  import opened RbMemory

  function SetLeft(m: Memory, n: Ptr, v: Ptr): Memory
    requires n in m
  {
    m[n := m[n].(left := v)]
  }

  function SetRight(m: Memory, n: Ptr, v: Ptr): Memory
    requires n in m
  {
    m[n := m[n].(right := v)]
  }

  function SetParent(m: Memory, n: Ptr, v: Ptr): Memory
    requires n in m
  {
    m[n := m[n].(parent := v)]
  }

  function SetRed(m: Memory, n: Ptr, v: bool): Memory
    requires n in m
  {
    m[n := m[n].(red := v)]
  }

  /** Memory changed at most at the given addresses. */
  ghost predicate Only(m: Memory, m': Memory, s: set<Ptr>) {
    m'.Keys == m.Keys && forall n :: n in m && n !in s ==> m'[n] == m[n]
  }

  lemma FrameOnly(m: Memory, m': Memory, s: set<Ptr>, t: Tree, p: Ptr)
    requires Rep(m, t, p) && Only(m, m', s) && s !! Members(t)
    ensures Rep(m', t, p)
  {
    Frame(m, m', t, p);
  }

  lemma FrameCtxOnly(m: Memory, m': Memory, s: set<Ptr>, c: Ctx, hole: Ptr)
    requires RepCtx(m, c, hole) && Only(m, m', s) && s !! Around(c)
    ensures RepCtx(m', c, hole)
  {
    FrameCtx(m, m', c, hole);
  }

  /** A subtree that only got another parent. */
  lemma Reparented(m: Memory, m': Memory, s: set<Ptr>, t: Tree, p: Ptr, q: Ptr)
    requires Rep(m, t, p) && Distinct(t) && Only(m, m', s)
    requires forall n :: n in Members(t) && n in s ==> n == RootOf(t)
    requires t.Br? ==> t.node in m' && m'[t.node] == m[t.node].(parent := q)
    ensures Rep(m', t, q)
  {
    if t.Br? {
      Frame(m, m', t.left, t.node);
      Frame(m, m', t.right, t.node);
    }
  }

  /** What a left rotation writes, whatever the order of the writes, turns the tree in memory. */
  lemma TurnedLeft(m: Memory, m': Memory, t: Tree, p: Ptr, link: set<Ptr>)
    requires t.Br? && t.right.Br? && Distinct(t) && Rep(m, t, p) && link !! Members(t)
    requires var b := t.right.left; Only(m, m', {t.node, t.right.node, RootOf(b)} + link)
    requires t.node in m' && t.right.node in m' && (t.right.left.Br? ==> t.right.left.node in m')
    requires m'[t.node] == Cell(RootOf(t.left), RootOf(t.right.left), t.right.node, t.red)
    requires m'[t.right.node] == Cell(t.node, RootOf(t.right.right), p, t.right.red)
    requires var b := t.right.left; b.Br? ==> b.node in m && m'[b.node] == m[b.node].(parent := t.node)
    ensures Rep(m', TurnLeft(t), p)
  {
    var r, b := t.right, t.right.left;
    var s := {t.node, r.node, RootOf(b)} + link;
    Nonzero(m, t, p);
    assert Members(t) == Members(t.left) + {t.node} + Members(r);
    assert Members(r) == Members(b) + {r.node} + Members(r.right);
    FrameOnly(m, m', s, t.left, t.node);
    FrameOnly(m, m', s, r.right, r.node);
    Reparented(m, m', s, b, r.node, t.node);
    assert Rep(m', Br(t.left, t.node, t.red, b), r.node);
  }

  lemma TurnedRight(m: Memory, m': Memory, t: Tree, p: Ptr, link: set<Ptr>)
    requires t.Br? && t.left.Br? && Distinct(t) && Rep(m, t, p) && link !! Members(t)
    requires var b := t.left.right; Only(m, m', {t.node, t.left.node, RootOf(b)} + link)
    requires t.node in m' && t.left.node in m' && (t.left.right.Br? ==> t.left.right.node in m')
    requires m'[t.node] == Cell(RootOf(t.left.right), RootOf(t.right), t.left.node, t.red)
    requires m'[t.left.node] == Cell(RootOf(t.left.left), t.node, p, t.left.red)
    requires var b := t.left.right; b.Br? ==> b.node in m && m'[b.node] == m[b.node].(parent := t.node)
    ensures Rep(m', TurnRight(t), p)
  {
    var l, b := t.left, t.left.right;
    var s := {t.node, l.node, RootOf(b)} + link;
    Nonzero(m, t, p);
    assert Members(t) == Members(l) + {t.node} + Members(t.right);
    assert Members(l) == Members(l.left) + {l.node} + Members(b);
    FrameOnly(m, m', s, t.right, t.node);
    FrameOnly(m, m', s, l.left, l.node);
    Reparented(m, m', s, b, l.node, t.node);
    assert Rep(m', Br(b, t.node, t.red, t.right), l.node);
  }

  lemma {:induction false} Nonzero(m: Memory, t: Tree, p: Ptr)
    requires Rep(m, t, p)
    ensures NULL !in Members(t) && Members(t) <= m.Keys
  {
    match t
    case Leaf =>
    case Br(l, n, _, r) => Nonzero(m, l, n); Nonzero(m, r, n);
  }

  /** The two topmost levels of a tree, read off memory. */
  lemma TwoLevels(m: Memory, t: Tree, p: Ptr)
    requires Rep(m, t, p) && Distinct(t) && t.Br?
    ensures Members(t) <= m.Keys && NULL !in Members(t) && t.node in Members(t)
    ensures m[t.node] == Cell(RootOf(t.left), RootOf(t.right), p, t.red)
    ensures t.left.Br? ==> Below(m, t, t.left)
    ensures t.right.Br? ==> Below(m, t, t.right)
  {
    Nonzero(m, t, p);
    assert t.left.Br? ==> Rep(m, t.left, t.node) && Distinct(t.left) && Members(t.left) <= Members(t);
    assert t.right.Br? ==> Rep(m, t.right, t.node) && Distinct(t.right) && Members(t.right) <= Members(t);
  }

  ghost predicate Below(m: Memory, t: Tree, s: Tree)
    requires t.Br? && s.Br?
  {
    && s.node != t.node && s.node in Members(t)
    && s.node in m && m[s.node] == Cell(RootOf(s.left), RootOf(s.right), t.node, s.red)
    && (s.left.Br? ==> s.left.node in Members(t) && s.left.node != s.node && s.left.node != t.node)
    && (s.right.Br? ==> s.right.node in Members(t) && s.right.node != s.node && s.right.node != t.node)
    && (s.left.Br? ==> s.left.node in m && m[s.left.node].parent == s.node && m[s.left.node].red == s.left.red)
    && (s.right.Br? ==> s.right.node in m && m[s.right.node].parent == s.node && m[s.right.node].red == s.right.red)
  }

  ghost function LinkAt(c: Ctx): set<Ptr> {
    if c.Top? then {} else {c.node}
  }

  /** Memory after the writes of a left rotation that come before the parent's link. */
  ghost function LeftWrites(m: Memory, node: Ptr): Memory
    requires node in m && m[node].right in m && (m[m[node].right].left != NULL ==> m[m[node].right].left in m)
  {
    var right := m[node].right;
    var m1 := SetRight(m, node, m[right].left);
    var m2 := if m1[right].left != NULL && m1[right].left in m1 then SetParent(m1, m1[right].left, node) else m1;
    SetParent(SetLeft(m2, right, node), right, m[node].parent)
  }

  ghost function RightWrites(m: Memory, node: Ptr): Memory
    requires node in m && m[node].left in m && (m[m[node].left].right != NULL ==> m[m[node].left].right in m)
  {
    var left := m[node].left;
    var m1 := SetLeft(m, node, m[left].right);
    var m2 := if m1[left].right != NULL && m1[left].right in m1 then SetParent(m1, m1[left].right, node) else m1;
    SetParent(SetRight(m2, left, node), left, m[node].parent)
  }

  lemma LeftReady(m: Memory, root: Ptr, c: Ctx, t: Tree)
    requires Focus(m, root, c, t) && t.Br? && t.right.Br?
    ensures t.node in m && m[t.node].right == t.right.node && m[t.node].parent == ParentOf(c) && t.right.node in m
    ensures var b := m[t.right.node].left; b != NULL ==> b in m && b != t.right.node && b != t.node
    ensures t.node != t.right.node && t.node != NULL && t.node !in Around(c)
    ensures RepCtx(LeftWrites(m, t.node), c, t.node)
    ensures var m' := LeftWrites(m, t.node); Only(m, m', {t.node, t.right.node, RootOf(t.right.left)}) && m'[t.right.node].left == t.node
  {
    hide RepCtx, DistinctCtx, TopOf, Rep, Distinct, Members;
    TwoLevels(m, t, ParentOf(c));
    FrameCtxOnly(m, LeftWrites(m, t.node), Members(t), c, t.node);
  }

  lemma RightReady(m: Memory, root: Ptr, c: Ctx, t: Tree)
    requires Focus(m, root, c, t) && t.Br? && t.left.Br?
    ensures t.node in m && m[t.node].left == t.left.node && m[t.node].parent == ParentOf(c) && t.left.node in m
    ensures var b := m[t.left.node].right; b != NULL ==> b in m && b != t.left.node && b != t.node
    ensures t.node != t.left.node && t.node != NULL && t.node !in Around(c)
    ensures RepCtx(RightWrites(m, t.node), c, t.node)
    ensures var m' := RightWrites(m, t.node); Only(m, m', {t.node, t.left.node, RootOf(t.left.right)}) && m'[t.left.node].right == t.node
  {
    hide RepCtx, DistinctCtx, TopOf, Rep, Distinct, Members;
    TwoLevels(m, t, ParentOf(c));
    FrameCtxOnly(m, RightWrites(m, t.node), Members(t), c, t.node);
  }

  lemma LeftDone(m: Memory, m': Memory, root: Ptr, root': Ptr, c: Ctx, t: Tree)
    requires Focus(m, root, c, t) && t.Br? && t.right.Br?
    requires t.node in m && m[t.node].right == t.right.node && t.right.node in m
    requires var b := m[t.right.node].left; b != NULL ==> b in m
    requires Only(LeftWrites(m, t.node), m', LinkAt(c)) && t.node in m'
    requires RepCtx(m', c, t.right.node) && root' == TopOf(c, t.right.node)
    ensures Focus(SetParent(m', t.node, t.right.node), root', c, TurnLeft(t))
  {
    hide RepCtx, DistinctCtx, TopOf, Rep, Distinct, Members;
    TwoLevels(m, t, ParentOf(c));
    var m'' := SetParent(m', t.node, t.right.node);
    FrameCtxOnly(m', m'', {t.node}, c, t.right.node);
    TurnLeftKeeps(t);
    TurnedLeft(m, m'', t, ParentOf(c), LinkAt(c));
  }

  lemma RightDone(m: Memory, m': Memory, root: Ptr, root': Ptr, c: Ctx, t: Tree)
    requires Focus(m, root, c, t) && t.Br? && t.left.Br?
    requires t.node in m && m[t.node].left == t.left.node && t.left.node in m
    requires var b := m[t.left.node].right; b != NULL ==> b in m
    requires Only(RightWrites(m, t.node), m', LinkAt(c)) && t.node in m'
    requires RepCtx(m', c, t.left.node) && root' == TopOf(c, t.left.node)
    ensures Focus(SetParent(m', t.node, t.left.node), root', c, TurnRight(t))
  {
    hide RepCtx, DistinctCtx, TopOf, Rep, Distinct, Members;
    TwoLevels(m, t, ParentOf(c));
    var m'' := SetParent(m', t.node, t.left.node);
    FrameCtxOnly(m', m'', {t.node}, c, t.left.node);
    TurnRightKeeps(t);
    TurnedRight(m, m'', t, ParentOf(c), LinkAt(c));
  }

  // ---- Colours -----------------------------------------------------------------

  ghost function Paint(t: Tree, red: bool): Tree
    requires t.Br?
  {
    Br(t.left, t.node, red, t.right)
  }

  lemma Painted(m: Memory, root: Ptr, c: Ctx, t: Tree, red: bool)
    requires Focus(m, root, c, t) && t.Br?
    ensures t.node in m && Focus(SetRed(m, t.node, red), root, c, Paint(t, red))
  {
    var m' := SetRed(m, t.node, red);
    FrameCtxOnly(m, m', {t.node}, c, t.node);
    FrameOnly(m, m', {t.node}, t.left, t.node);
    FrameOnly(m, m', {t.node}, t.right, t.node);
  }

  lemma PaintedLeft(m: Memory, root: Ptr, c: Ctx, t: Tree, red: bool)
    requires Focus(m, root, c, t) && t.Br? && t.left.Br?
    ensures t.left.node in m && Focus(SetRed(m, t.left.node, red), root, c, Br(Paint(t.left, red), t.node, t.red, t.right))
  {
    hide Focus;
    var d := InLeft(c, t.node, t.red, t.right);
    Refocus(m, root, d, t.left);
    Painted(m, root, d, t.left, red);
    Refocus(SetRed(m, t.left.node, red), root, d, Paint(t.left, red));
  }

  lemma PaintedRight(m: Memory, root: Ptr, c: Ctx, t: Tree, red: bool)
    requires Focus(m, root, c, t) && t.Br? && t.right.Br?
    ensures t.right.node in m && Focus(SetRed(m, t.right.node, red), root, c, Br(t.left, t.node, t.red, Paint(t.right, red)))
  {
    hide Focus;
    var d := InRight(c, t.node, t.red, t.left);
    Refocus(m, root, d, t.right);
    Painted(m, root, d, t.right, red);
    Refocus(SetRed(m, t.right.node, red), root, d, Paint(t.right, red));
  }

  lemma FocusReads(m: Memory, root: Ptr, c: Ctx, t: Tree)
    requires Focus(m, root, c, t)
    ensures t.Br? ==> t.node != NULL && t.node in m && m[t.node] == Cell(RootOf(t.left), RootOf(t.right), ParentOf(c), t.red)
    ensures !c.Top? ==> c.node != NULL && c.node in m && m[c.node] == CtxCell(c, RootOf(t))
    ensures t.Br? && t.left.Br? ==> t.left.node != NULL && t.left.node in m && m[t.left.node].red == t.left.red
    ensures t.Br? && t.right.Br? ==> t.right.node != NULL && t.right.node in m && m[t.right.node].red == t.right.red
    ensures t.Br? && t.left.Br? && t.right.Br? ==> t.left.node != t.right.node
    ensures c.Top? ==> root == RootOf(t)
    ensures !c.Top? && t.Br? ==> RootOf(Beside(c)) != t.node
  {
    if !c.Top? && t.Br? {
      assert Beside(c).Br? ==> Beside(c).node in Around(c);
    }
    assert t.Br? ==> Rep(m, t.left, t.node) && Rep(m, t.right, t.node);
    if t.Br? && t.left.Br? && t.right.Br? {
      assert t.left.node in Members(t.left) && t.right.node in Members(t.right);
    }
  }

  // ---- Insertion ---------------------------------------------------------------

  /** Every rule holds except that the red root of `t` may have a red parent. */
  ghost predicate Inserting(c: Ctx, t: Tree) {
    Balanced(t) && Red(t) && Fits(c, Height(t), false) && !TopRed(c)
  }

  ghost function Levels(c: Ctx): nat {
    if c.Top? then 0 else 1 + Levels(c.up)
  }

  /** The tree seen from the grandparent. */
  ghost function Grand(c: Ctx, t: Tree): Tree
    requires !c.Top? && !c.up.Top?
  {
    Closed(c.up, Closed(c, t))
  }

  lemma GrandFocus(m: Memory, root: Ptr, c: Ctx, t: Tree)
    requires !c.Top? && !c.up.Top?
    ensures Focus(m, root, c, t) <==> Focus(m, root, c.up.up, Grand(c, t))
    ensures OrderAt(c.up.up, Grand(c, t)) == OrderAt(c, t)
  {
    hide Focus;
    Refocus(m, root, c, t);
    Refocus(m, root, c.up, Closed(c, t));
    StepUpOrder(c, t);
    StepUpOrder(c.up, Closed(c, t));
  }

  /** A red parent has a black parent of its own. */
  lemma RedParent(c: Ctx, t: Tree)
    requires Inserting(c, t) && !c.Top? && c.red
    ensures !c.up.Top? && !c.up.red
    ensures !Red(Beside(c)) && Height(Beside(c)) == Height(t) && Balanced(Beside(c))
    ensures Height(Beside(c.up)) == Height(t) && Balanced(Beside(c.up))
    ensures Fits(c.up.up, Height(t) + 1, false) && !TopRed(c.up.up)
  {
    assert Fits(c.up, Height(t), true) && !TopRed(c.up);
  }

  /** What recolouring parent, uncle and grandparent makes of the tree. */
  ghost function Recoloured(g: Tree): Tree
    requires g.Br? && g.left.Br? && g.right.Br?
  {
    Br(Paint(g.left, false), g.node, true, Paint(g.right, false))
  }

  lemma RecolouredFocus(m: Memory, root: Ptr, c: Ctx, g: Tree, uncle: Ptr, parent: Ptr)
    requires Focus(m, root, c, g) && g.Br? && g.left.Br? && g.right.Br?
    requires (uncle == g.left.node && parent == g.right.node) || (uncle == g.right.node && parent == g.left.node)
    ensures uncle in m && parent in m && g.node in m
    ensures Focus(SetRed(SetRed(SetRed(m, uncle, false), parent, false), g.node, true), root, c, Recoloured(g))
  {
    hide Focus;
    FocusReads(m, root, c, g);
    if uncle == g.right.node {
      PaintedRight(m, root, c, g, false);
      var g1 := Br(g.left, g.node, g.red, Paint(g.right, false));
      var m1 := SetRed(m, uncle, false);
      PaintedLeft(m1, root, c, g1, false);
      Painted(SetRed(m1, parent, false), root, c, Br(Paint(g.left, false), g.node, g.red, g1.right), true);
    } else {
      PaintedLeft(m, root, c, g, false);
      var g1 := Br(Paint(g.left, false), g.node, g.red, g.right);
      var m1 := SetRed(m, uncle, false);
      PaintedRight(m1, root, c, g1, false);
      Painted(SetRed(m1, parent, false), root, c, Br(g1.left, g.node, g.red, Paint(g.right, false)), true);
    }
  }

  lemma PaintOrder(g: Tree)
    requires g.Br?
    ensures g.left.Br? ==> Inorder(Br(Paint(g.left, false), g.node, true, g.right)) == Inorder(g)
    ensures g.right.Br? ==> Inorder(Br(g.left, g.node, true, Paint(g.right, false))) == Inorder(g)
  {
    assert g.left.Br? ==> Inorder(Paint(g.left, false)) == Inorder(g.left);
    assert g.right.Br? ==> Inorder(Paint(g.right, false)) == Inorder(g.right);
  }

  lemma RecolouredInserting(c: Ctx, t: Tree)
    requires Inserting(c, t) && !c.Top? && c.red && !c.up.Top? && Red(Beside(c.up))
    ensures Grand(c, t).left.Br? && Grand(c, t).right.Br? && Inserting(c.up.up, Recoloured(Grand(c, t)))
  {
    RedParent(c, t);
    var g := Grand(c, t);
    assert Balanced(Closed(c, t)) || c.red;
    assert Balanced(Paint(g.left, false)) && Balanced(Paint(g.right, false));
    assert Height(Paint(g.left, false)) == Height(t) + 1 == Height(Paint(g.right, false));
  }

  /** An inner grandchild, turned into the outer one. */
  lemma AlignedLeft(c: Ctx, t: Tree)
    requires Inserting(c, t) && c.InRight? && c.red
    ensures Inserting(InLeft(c.up, t.node, true, t.right), Br(c.left, c.node, true, t.left))
  {
    RedParent(c, t);
  }

  lemma AlignedRight(c: Ctx, t: Tree)
    requires Inserting(c, t) && c.InLeft? && c.red
    ensures Inserting(InRight(c.up, t.node, true, t.left), Br(t.right, c.node, true, c.right))
  {
    RedParent(c, t);
  }

  /** The place of the node after the last rotation; its parent is black, so the loop ends. */
  lemma LinedUp(c: Ctx, t: Tree)
    requires Inserting(c, t) && !c.Top? && c.red && !c.up.Top? && !Red(Beside(c.up))
    ensures c.InLeft? && c.up.InLeft? ==> Inserting(InLeft(c.up.up, c.node, false, Br(c.right, c.up.node, true, c.up.right)), t)
    ensures c.InRight? && c.up.InRight? ==> Inserting(InRight(c.up.up, c.node, false, Br(c.up.left, c.up.node, true, c.left)), t)
  {
    RedParent(c, t);
  }

  lemma RecolouredOrder(c: Ctx, g: Tree)
    requires g.Br? && g.left.Br? && g.right.Br?
    ensures OrderAt(c, Recoloured(g)) == OrderAt(c, g)
  {
    assert Inorder(Paint(g.left, false)) == Inorder(g.left) && Inorder(Paint(g.right, false)) == Inorder(g.right);
  }

  /** The loop is over: nothing is left to do but to make the root black. */
  lemma BlackenRoot(m: Memory, root: Ptr, c: Ctx, t: Tree)
    requires Focus(m, root, c, t) && Inserting(c, t) && (c.Top? || !c.red)
    ensures var tree := Plug(c, t);
      && tree.Br? && root in m && Focus(SetRed(m, root, false), root, Top, Paint(tree, false))
      && Balanced(Paint(tree, false)) && Inorder(Paint(tree, false)) == OrderAt(c, t)
  {
    var tree := Plug(c, t);
    RefocusAll(m, root, c, Top, t);
    AppendTop(c);
    PlugBalanced(c, t);
    PlugOrder(c, t);
    PlugBr(c, t);
    Painted(m, root, Top, tree, false);
    FocusReads(m, root, Top, tree);
  }

  lemma {:induction false} AppendTop(c: Ctx)
    ensures Append(c, Top) == c
  {
    if !c.Top? { AppendTop(c.up); }
  }

  lemma {:induction false} PlugBr(c: Ctx, t: Tree)
    requires t.Br?
    ensures Plug(c, t).Br?
    decreases c
  {
    if !c.Top? { PlugBr(c.up, Closed(c, t)); }
  }

  // ---- Erasure -----------------------------------------------------------------

  ghost function Blacken(t: Tree): Tree {
    if t.Br? then Paint(t, false) else t
  }

  /** Every rule holds except that the paths through `t` are one black node short. */
  ghost predicate Deficit(c: Ctx, t: Tree) {
    Balanced(Blacken(t)) && Fits(c, Height(t) + 1, false) && !TopRed(c)
  }

  lemma SiblingExists(c: Ctx, t: Tree)
    requires Deficit(c, t) && !c.Top?
    ensures Beside(c).Br? && Balanced(Beside(c)) && Height(Beside(c)) == Height(t) + 1
    ensures Red(Beside(c)) ==> !c.red && Beside(c).left.Br? && Beside(c).right.Br?
    ensures Red(Beside(c)) ==> !Red(Beside(c).left) && !Red(Beside(c).right)
  {
    var s := Beside(c);
    if Red(s) {
      assert Height(s.left) == Height(t) + 1 && Height(s.right) == Height(t) + 1;
    }
  }

  lemma NotTopRed(c: Ctx)
    requires !c.Top? && !TopRed(c)
    ensures !TopRed(c.up) && (c.up.Top? ==> !c.red)
  {
  }

  lemma HeightsAgree(c: Ctx, t: Tree)
    requires Deficit(c, t) && !c.Top? && !Red(t)
    ensures Balanced(t) && Fits(c.up, Height(t) + 1 + (if c.red then 0 else 1), c.red)
  {
  }

  ghost function RedSiblingGoneLeft(c: Ctx): Ctx
    requires c.InLeft? && c.right.Br?
  {
    InLeft(InLeft(c.up, c.right.node, false, c.right.right), c.node, true, c.right.left)
  }

  lemma RedSiblingLeft(c: Ctx, t: Tree)
    requires Deficit(c, t) && !Red(t) && c.InLeft? && Red(c.right)
    ensures Deficit(RedSiblingGoneLeft(c), t) && c.right.left.Br? && !Red(c.right.left)
  {
    SiblingExists(c, t);
    NotTopRed(c);
    HeightsAgree(c, t);
    var s := c.right;
    var high := InLeft(c.up, s.node, false, s.right);
    assert Fits(high, Height(t) + 1, true);
    assert !TopRed(high);
  }

  lemma BlackNephewsLeft(c: Ctx, t: Tree)
    requires Deficit(c, t) && !Red(t) && c.InLeft? && c.right.Br? && !Red(c.right) && !Red(c.right.left) && !Red(c.right.right)
    ensures Deficit(c.up, Br(t, c.node, c.red, Paint(c.right, true)))
  {
    SiblingExists(c, t);
    NotTopRed(c);
    HeightsAgree(c, t);
    var s := Paint(c.right, true);
    assert Balanced(s) && Height(s) == Height(t);
    var t' := Br(t, c.node, c.red, s);
    assert Balanced(Blacken(t')) && Height(t') + 1 == Height(t) + 1 + (if c.red then 0 else 1);
    assert Fits(c.up, Height(t') + 1, false);
  }

  /** The sibling with its near, red child on top. */
  ghost function NearRaisedLeft(s: Tree): Tree
    requires s.Br? && s.left.Br?
  {
    Br(s.left.left, s.left.node, false, Br(s.left.right, s.node, true, s.right))
  }

  lemma NearNephewLeft(c: Ctx, t: Tree)
    requires Deficit(c, t) && c.InLeft? && c.right.Br? && !Red(c.right) && Red(c.right.left) && !Red(c.right.right)
    ensures Deficit(InLeft(c.up, c.node, c.red, NearRaisedLeft(c.right)), t)
    ensures Inorder(NearRaisedLeft(c.right)) == Inorder(c.right)
  {
    SiblingExists(c, t);
    var s, s' := c.right, NearRaisedLeft(c.right);
    assert Balanced(s.left) && Balanced(s.right) && Height(s.left) == Height(s.right);
    assert Balanced(s'.right) && Balanced(s') && Height(s') == Height(s);
    assert Inorder(Paint(s.left, false)) == Inorder(s.left);
    var s1 := Br(Paint(s.left, false), s.node, true, s.right);
    assert Inorder(s1) == Inorder(s);
    TurnRightOrder(s1);
    assert TurnRight(s1) == s';
  }

  ghost function FarRaisedLeft(c: Ctx, t: Tree): Tree
    requires c.InLeft? && c.right.Br? && c.right.right.Br?
  {
    Br(Br(t, c.node, false, c.right.left), c.right.node, c.red, Paint(c.right.right, false))
  }

  lemma FarNephewLeft(c: Ctx, t: Tree)
    requires Deficit(c, t) && !Red(t) && c.InLeft? && c.right.Br? && !Red(c.right) && Red(c.right.right)
    ensures var t' := FarRaisedLeft(c, t); Balanced(t') && Fits(c.up, Height(t'), Red(t')) && !TopRed(c.up) && (c.up.Top? ==> !Red(t'))
  {
    SiblingExists(c, t);
    NotTopRed(c);
    HeightsAgree(c, t);
    var s, t' := c.right, FarRaisedLeft(c, t);
    assert Balanced(s.left) && Balanced(s.right) && Height(s.left) == Height(t) == Height(s.right);
    assert Balanced(Paint(s.right, false)) && Height(Paint(s.right, false)) == Height(t) + 1;
    assert Balanced(t'.left) && Height(t'.left) == Height(t) + 1;
  }

  lemma NearOrderLeft(c: Ctx, t: Tree, d: Ctx)
    requires c.InLeft? && c.right.Br? && c.right.left.Br? && d == InLeft(c.up, c.node, c.red, NearRaisedLeft(c.right))
    requires Inorder(NearRaisedLeft(c.right)) == Inorder(c.right)
    ensures OrderAt(d, t) == OrderAt(c, t)
  {
    StepUpOrder(c, t);
    StepUpOrder(d, t);
  }

  lemma PaintedFarLeft(m: Memory, root: Ptr, c: Ctx, g: Tree)
    requires Focus(m, root, c, g) && g.Br? && g.right.Br? && g.right.right.Br?
    ensures g.right.right.node in m
    ensures Focus(SetRed(m, g.right.right.node, false), root, c,
      Br(g.left, g.node, g.red, Br(g.right.left, g.right.node, g.right.red, Paint(g.right.right, false))))
  {
    hide Focus;
    var d := InRight(c, g.node, g.red, g.left);
    Refocus(m, root, d, g.right);
    PaintedRight(m, root, d, g.right, false);
    Refocus(SetRed(m, g.right.right.node, false), root, d, Br(g.right.left, g.right.node, g.right.red, Paint(g.right.right, false)));
  }

  lemma FarOrderLeft(c: Ctx, t: Tree)
    requires c.InLeft? && c.right.Br? && c.right.right.Br?
    ensures OrderAt(c.up, FarRaisedLeft(c, t)) == OrderAt(c, t)
  {
    StepUpOrder(c, t);
    var g := Br(t, c.node, false, Br(c.right.left, c.right.node, c.red, Paint(c.right.right, false)));
    assert Inorder(Paint(c.right.right, false)) == Inorder(c.right.right);
    assert Inorder(g.right) == Inorder(c.right);
    assert Inorder(g) == Inorder(Closed(c, t));
    TurnLeftOrder(g);
  }

  ghost function RedSiblingGoneRight(c: Ctx): Ctx
    requires c.InRight? && c.left.Br?
  {
    InRight(InRight(c.up, c.left.node, false, c.left.left), c.node, true, c.left.right)
  }

  lemma RedSiblingRight(c: Ctx, t: Tree)
    requires Deficit(c, t) && !Red(t) && c.InRight? && Red(c.left)
    ensures Deficit(RedSiblingGoneRight(c), t) && c.left.right.Br? && !Red(c.left.right)
  {
    SiblingExists(c, t);
    NotTopRed(c);
    HeightsAgree(c, t);
    var s := c.left;
    var high := InRight(c.up, s.node, false, s.left);
    assert Fits(high, Height(t) + 1, true);
    assert !TopRed(high);
  }

  lemma BlackNephewsRight(c: Ctx, t: Tree)
    requires Deficit(c, t) && !Red(t) && c.InRight? && c.left.Br? && !Red(c.left) && !Red(c.left.left) && !Red(c.left.right)
    ensures Deficit(c.up, Br(Paint(c.left, true), c.node, c.red, t))
  {
    SiblingExists(c, t);
    NotTopRed(c);
    HeightsAgree(c, t);
    var s := Paint(c.left, true);
    assert Balanced(s) && Height(s) == Height(t);
    var t' := Br(s, c.node, c.red, t);
    assert Balanced(Blacken(t')) && Height(t') + 1 == Height(t) + 1 + (if c.red then 0 else 1);
    assert Fits(c.up, Height(t') + 1, false);
  }

  /** The sibling with its near, red child on top. */
  ghost function NearRaisedRight(s: Tree): Tree
    requires s.Br? && s.right.Br?
  {
    Br(Br(s.left, s.node, true, s.right.left), s.right.node, false, s.right.right)
  }

  lemma NearNephewRight(c: Ctx, t: Tree)
    requires Deficit(c, t) && c.InRight? && c.left.Br? && !Red(c.left) && Red(c.left.right) && !Red(c.left.left)
    ensures Deficit(InRight(c.up, c.node, c.red, NearRaisedRight(c.left)), t)
    ensures Inorder(NearRaisedRight(c.left)) == Inorder(c.left)
  {
    SiblingExists(c, t);
    var s, s' := c.left, NearRaisedRight(c.left);
    assert Balanced(s.right) && Balanced(s.left) && Height(s.right) == Height(s.left);
    assert Balanced(s'.left) && Balanced(s') && Height(s') == Height(s);
    assert Inorder(Paint(s.right, false)) == Inorder(s.right);
    var s1 := Br(s.left, s.node, true, Paint(s.right, false));
    assert Inorder(s1) == Inorder(s);
    TurnLeftOrder(s1);
    assert TurnLeft(s1) == s';
  }

  ghost function FarRaisedRight(c: Ctx, t: Tree): Tree
    requires c.InRight? && c.left.Br? && c.left.left.Br?
  {
    Br(Paint(c.left.left, false), c.left.node, c.red, Br(c.left.right, c.node, false, t))
  }

  lemma FarNephewRight(c: Ctx, t: Tree)
    requires Deficit(c, t) && !Red(t) && c.InRight? && c.left.Br? && !Red(c.left) && Red(c.left.left)
    ensures var t' := FarRaisedRight(c, t); Balanced(t') && Fits(c.up, Height(t'), Red(t')) && !TopRed(c.up) && (c.up.Top? ==> !Red(t'))
  {
    SiblingExists(c, t);
    NotTopRed(c);
    HeightsAgree(c, t);
    var s, t' := c.left, FarRaisedRight(c, t);
    assert Balanced(s.right) && Balanced(s.left) && Height(s.right) == Height(t) == Height(s.left);
    assert Balanced(Paint(s.left, false)) && Height(Paint(s.left, false)) == Height(t) + 1;
    assert Balanced(t'.right) && Height(t'.right) == Height(t) + 1;
  }

  lemma NearOrderRight(c: Ctx, t: Tree, d: Ctx)
    requires c.InRight? && c.left.Br? && c.left.right.Br? && d == InRight(c.up, c.node, c.red, NearRaisedRight(c.left))
    requires Inorder(NearRaisedRight(c.left)) == Inorder(c.left)
    ensures OrderAt(d, t) == OrderAt(c, t)
  {
    StepUpOrder(c, t);
    StepUpOrder(d, t);
  }

  lemma PaintedFarRight(m: Memory, root: Ptr, c: Ctx, g: Tree)
    requires Focus(m, root, c, g) && g.Br? && g.left.Br? && g.left.left.Br?
    ensures g.left.left.node in m
    ensures Focus(SetRed(m, g.left.left.node, false), root, c,
      Br(Br(Paint(g.left.left, false), g.left.node, g.left.red, g.left.right), g.node, g.red, g.right))
  {
    hide Focus;
    var d := InLeft(c, g.node, g.red, g.right);
    Refocus(m, root, d, g.left);
    PaintedLeft(m, root, d, g.left, false);
    Refocus(SetRed(m, g.left.left.node, false), root, d, Br(Paint(g.left.left, false), g.left.node, g.left.red, g.left.right));
  }

  lemma FarOrderRight(c: Ctx, t: Tree)
    requires c.InRight? && c.left.Br? && c.left.left.Br?
    ensures OrderAt(c.up, FarRaisedRight(c, t)) == OrderAt(c, t)
  {
    StepUpOrder(c, t);
    var g := Br(Br(Paint(c.left.left, false), c.left.node, c.red, c.left.right), c.node, false, t);
    assert Inorder(Paint(c.left.left, false)) == Inorder(c.left.left);
    assert Inorder(g.left) == Inorder(c.left);
    assert Inorder(g) == Inorder(Closed(c, t));
    TurnRightOrder(g);
  }

  /** Nothing is wrong at `c` any more, so the whole tree is right. */
  lemma WholeTree(m: Memory, root: Ptr, c: Ctx, t: Tree)
    requires Focus(m, root, c, t) && Balanced(t) && Fits(c, Height(t), Red(t)) && !TopRed(c) && (c.Top? ==> !Red(t))
    ensures var tree := Plug(c, t);
      Focus(m, root, Top, tree) && Balanced(tree) && !Red(tree) && Inorder(tree) == OrderAt(c, t)
  {
    RefocusAll(m, root, c, Top, t);
    AppendTop(c);
    PlugBalanced(c, t);
    PlugRed(c, t);
    PlugOrder(c, t);
  }

  // ---- What the erasing loop reads ----------------------------------------------

  /** The sibling and the nephews, read off memory. */
  lemma SiblingReads(m: Memory, root: Ptr, c: Ctx, t: Tree)
    requires Focus(m, root, c, t) && !c.Top? && Beside(c).Br?
    ensures c.node in m && m[c.node] == CtxCell(c, RootOf(t)) && RootOf(t) != Beside(c).node
    ensures var s := Beside(c); s.node != NULL && s.node in m && m[s.node] == Cell(RootOf(s.left), RootOf(s.right), c.node, s.red)
    ensures var s := Beside(c); s.left.Br? ==> s.left.node != NULL && s.left.node in m && m[s.left.node].red == s.left.red
    ensures var s := Beside(c); s.right.Br? ==> s.right.node != NULL && s.right.node in m && m[s.right.node].red == s.right.red
  {
    var s := Beside(c);
    assert s.node in Around(c);
    assert t.Br? ==> t.node in Members(t);
    assert Rep(m, s, c.node) && Rep(m, s.left, s.node) && Rep(m, s.right, s.node);
  }

  lemma AtTop(m: Memory, root: Ptr, c: Ctx, t: Tree)
    requires Focus(m, root, c, t)
    ensures c.Top? <==> RootOf(t) == root
    ensures t.Br? ==> t.node != NULL && t.node in m && m[t.node].red == t.red && m[t.node].parent == ParentOf(c)
  {
    if !c.Top? {
      TopInside(m, c, RootOf(t));
      assert t.Br? ==> t.node in Members(t);
    }
  }

  lemma {:induction false} TopInside(m: Memory, c: Ctx, hole: Ptr)
    requires !c.Top? && RepCtx(m, c, hole)
    ensures TopOf(c, hole) in Around(c) && TopOf(c, hole) != NULL
  {
    if !c.up.Top? {
      TopInside(m, c.up, c.node);
    }
  }

  lemma MovedUp(c: Ctx, t: Tree, red: bool)
    requires !c.Top? && Beside(c).Br?
    ensures var t' := if c.InLeft? then Br(t, c.node, c.red, Paint(c.right, red)) else Br(Paint(c.left, red), c.node, c.red, t);
      OrderAt(c.up, t') == OrderAt(c, t)
  {
    StepUpOrder(c, t);
    assert Inorder(Paint(Beside(c), red)) == Inorder(Beside(c));
  }

  ghost predicate Settled(m: Memory, root: Ptr, tree: Tree) {
    Focus(m, root, Top, tree) && Balanced(tree) && !Red(tree)
  }

  /** Painting the root black is harmless. */
  lemma RootPainted(m: Memory, root: Ptr, tree: Tree)
    requires Settled(m, root, tree)
    ensures root != NULL ==> root in m && Settled(SetRed(m, root, false), root, tree)
  {
    if tree.Br? {
      Painted(m, root, Top, tree, false);
    }
  }

  /** The loop stopped at a red node or at the root: blackening it pays the debt. */
  lemma DebtPaid(m: Memory, root: Ptr, c: Ctx, t: Tree)
    requires Focus(m, root, c, t) && Deficit(c, t) && (Red(t) || c.Top?)
    ensures t.Br? ==> t.node in m
    ensures var m' := if t.Br? then SetRed(m, t.node, false) else m;
      Settled(m', root, Plug(c, Blacken(t))) && Inorder(Plug(c, Blacken(t))) == OrderAt(c, t)
  {
    if t.Br? {
      Painted(m, root, c, t, false);
      WholeTree(SetRed(m, t.node, false), root, c, Paint(t, false));
    } else {
      WholeTree(m, root, c, t);
    }
  }

  lemma SettledRoot(m: Memory, root: Ptr, tree: Tree)
    requires Settled(m, root, tree)
    ensures root == RootOf(tree) && (root != NULL ==> root in m) && (tree.Br? ==> root != NULL)
  {
  }

  // ---- Unlinking ---------------------------------------------------------------

  /** The link from the context to its hole now leads elsewhere. */
  lemma Relinked(m: Memory, c: Ctx, from: Ptr, to: Ptr)
    requires RepCtx(m, c, from) && DistinctCtx(c) && !c.Top?
    ensures c.node in m
    ensures var m' := if c.InLeft? then SetLeft(m, c.node, to) else SetRight(m, c.node, to);
      RepCtx(m', c, to) && Only(m, m', {c.node})
    ensures TopOf(c, to) == TopOf(c, from)
  {
    var m' := if c.InLeft? then SetLeft(m, c.node, to) else SetRight(m, c.node, to);
    FrameOnly(m, m', {c.node}, Beside(c), c.node);
    FrameCtxOnly(m, m', {c.node}, c.up, c.node);
  }

  lemma Linked(m: Memory, root: Ptr, c: Ctx, node: Ptr)
    requires Focus(m, root, c, Leaf) && node in m && node != NULL && node !in Around(c)
    ensures !c.Top? ==> c.node in m && c.node != node
    ensures var m1 := m[node := Cell(NULL, NULL, ParentOf(c), true)];
      var m2 := if c.Top? then m1 else if c.InLeft? then SetLeft(m1, c.node, node) else SetRight(m1, c.node, node);
      Focus(m2, TopOf(c, node), c, Br(Leaf, node, true, Leaf))
  {
    var m1 := m[node := Cell(NULL, NULL, ParentOf(c), true)];
    FrameCtxOnly(m, m1, {node}, c, NULL);
    if !c.Top? {
      Relinked(m1, c, NULL, node);
    }
  }

  /** Taking out a node with at most one child: the child moves up. */
  lemma SplicedOut(m: Memory, m': Memory, root: Ptr, root': Ptr, c: Ctx, t: Tree, sub: Tree)
    requires Focus(m, root, c, t) && t.Br? && ((t.left.Leaf? && sub == t.right) || (t.right.Leaf? && sub == t.left))
    requires RepCtx(m', c, RootOf(sub)) && root' == TopOf(c, RootOf(sub))
    requires Only(if sub.Br? && sub.node in m then SetParent(m, sub.node, ParentOf(c)) else m, m', LinkAt(c))
    ensures Focus(m', root', c, sub)
    ensures t.node !in Around(c) + Members(sub) && Members(sub) <= Members(t)
  {
    assert Members(sub) <= Members(t) && t.node !in Members(sub);
    Nonzero(m, t, ParentOf(c));
    assert Rep(m, sub, t.node);
    if sub.Br? {
      Reparented(m, m', {sub.node} + LinkAt(c), sub, t.node, ParentOf(c));
    }
  }

  lemma SubReads(m: Memory, root: Ptr, c: Ctx, t: Tree, sub: Tree)
    requires Focus(m, root, c, t) && t.Br? && (sub == t.right || sub == t.left)
    ensures t.node !in Around(c) && t.node != NULL && t.node in m && m[t.node].parent == ParentOf(c)
    ensures sub.Br? ==> sub.node != NULL && sub.node in m && sub.node != t.node && sub.node !in Around(c)
    ensures var m' := if sub.Br? then SetParent(m, sub.node, ParentOf(c)) else m; RepCtx(m', c, t.node)
  {
    assert Rep(m, sub, t.node);
    assert sub.Br? ==> sub.node in Members(sub) && sub.node in Members(t);
    var m' := if sub.Br? then SetParent(m, sub.node, ParentOf(c)) else m;
    FrameCtxOnly(m, m', if sub.Br? then {sub.node} else {}, c, t.node);
  }

  /** What taking out a node with at most one child does to the rules. */
  lemma OneChild(c: Ctx, t: Tree, sub: Tree)
    requires t.Br? && Balanced(t) && Fits(c, Height(t), Red(t)) && !TopRed(c) && (c.Top? ==> !Red(t))
    requires (t.left.Leaf? && sub == t.right) || (t.right.Leaf? && sub == t.left)
    ensures !t.red ==> Deficit(c, sub)
    ensures t.red ==> sub.Leaf? && Fits(c, Height(sub), Red(sub))
  {
    assert Height(sub) == 0 && Balanced(sub);
  }

  ghost predicate AllLeft(c: Ctx) {
    !c.Top? ==> c.InLeft? && AllLeft(c.up)
  }

  lemma {:induction false} AppendStep(fs: Ctx, base: Ctx, n: Ptr, red: bool, r: Tree)
    requires AllLeft(fs)
    ensures Before(Append(fs, base)) == Before(base)
    ensures AllLeft(InLeft(fs, n, red, r)) && Append(InLeft(fs, n, red, r), base) == InLeft(Append(fs, base), n, red, r)
  {
    if !fs.Top? {
      AppendStep(fs.up, base, n, red, r);
    }
  }

  /** The rules and the order do not depend on which node stands where the erased one stood. */
  lemma {:induction false} SwapNode(fs: Ctx, c: Ctx, a: Ptr, b: Ptr, red: bool, l: Tree, h: nat, holeRed: bool)
    ensures var x, y := Append(fs, InRight(c, a, red, l)), Append(fs, InRight(c, b, red, l));
      Fits(x, h, holeRed) == Fits(y, h, holeRed) && TopRed(x) == TopRed(y) && After(x) == After(y) && x.Top? == y.Top?
    decreases fs
  {
    if !fs.Top? {
      SwapNode(fs.up, c, a, b, red, l, h + (if fs.red then 0 else 1), fs.red);
    }
  }

  /** The successor takes the fields of the erased node, and its neighbours' links. */
  lemma Replaced(m: Memory, m': Memory, root: Ptr, root': Ptr, c: Ctx, t: Tree, s: Ptr)
    requires Focus(m, root, c, t) && t.Br? && t.left.Br? && s in m && s != NULL && s !in Around(c) + Members(t)
    requires RepCtx(m', c, s) && root' == TopOf(c, s)
    requires Only(m, m', {s, t.left.node, RootOf(t.right)} + LinkAt(c))
    requires s in m' && m'[s] == Cell(RootOf(t.left), RootOf(t.right), ParentOf(c), t.red)
    requires t.left.node in m && t.left.node in m' && m'[t.left.node] == m[t.left.node].(parent := s)
    requires t.right.Br? ==> t.right.node in m && t.right.node in m' && m'[t.right.node] == m[t.right.node].(parent := s)
    ensures Focus(m', root', c, Br(t.left, s, t.red, t.right))
  {
    var w := {s, t.left.node, RootOf(t.right)} + LinkAt(c);
    Nonzero(m, t, ParentOf(c));
    Nonzero(m, t.left, t.node);
    Nonzero(m, t.right, t.node);
    assert Members(t) == Members(t.left) + {t.node} + Members(t.right);
    assert t.left.node in Members(t.left) && (t.right.Br? ==> t.right.node in Members(t.right));
    Reparented(m, m', w, t.left, t.node, s);
    Reparented(m, m', w, t.right, t.node, s);
  }

  /** Memory after the writes of aosl_rb_erase that put `s` in the place of `old`. */
  ghost function ReplaceWrites(m: Memory, old_: Ptr, s: Ptr): Memory
    requires old_ in m && s in m
  {
    m[s := Cell(m[old_].left, m[old_].right, m[old_].parent, m[old_].red)]
  }

  lemma ReplaceReady(m: Memory, root: Ptr, c: Ctx, t: Tree, s: Ptr)
    requires Focus(m, root, c, t) && t.Br? && t.left.Br? && s in m && s != NULL && s !in Around(c) + Members(t)
    ensures t.node in m && m[t.node] == Cell(t.left.node, RootOf(t.right), ParentOf(c), t.red) && t.node !in Around(c) && t.node != NULL
    ensures RepCtx(ReplaceWrites(m, t.node, s), c, t.node)
    ensures t.left.node in m && t.left.node != s && t.left.node !in Around(c) && t.left.node != t.node
    ensures t.right.Br? ==> t.right.node in m && t.right.node != NULL && t.right.node != s && t.right.node !in Around(c) && t.right.node != t.left.node && t.right.node != t.node
  {
    Nonzero(m, t, ParentOf(c));
    assert Members(t) == Members(t.left) + {t.node} + Members(t.right);
    assert t.left.node in Members(t.left) && (t.right.Br? ==> t.right.node in Members(t.right));
    FrameCtxOnly(m, ReplaceWrites(m, t.node, s), {s}, c, t.node);
  }

  lemma {:induction false} Locate(t: Tree, n: Ptr) returns (c: Ctx, s: Tree)
    requires n in Members(t)
    ensures Plug(c, s) == t && s.Br? && s.node == n
  {
    if t.node == n {
      c, s := Top, t;
    } else if n in Members(t.left) {
      c, s := Locate(t.left, n);
      PlugAppend(c, InLeft(Top, t.node, t.red, t.right), s);
      c := Append(c, InLeft(Top, t.node, t.red, t.right));
    } else {
      c, s := Locate(t.right, n);
      PlugAppend(c, InRight(Top, t.node, t.red, t.left), s);
      c := Append(c, InRight(Top, t.node, t.red, t.left));
    }
  }

  lemma {:induction false} PlugAppend(inner: Ctx, outer: Ctx, t: Tree)
    ensures Plug(Append(inner, outer), t) == Plug(outer, Plug(inner, t))
    decreases inner
  {
    if !inner.Top? {
      assert Closed(Append(inner, outer), t) == Closed(inner, t);
      PlugAppend(inner.up, outer, Closed(inner, t));
    }
  }

  /** `new` is `old` without its element at `i`. */
  ghost predicate LostAt(old_: seq<Ptr>, new_: seq<Ptr>, i: nat, n: Ptr) {
    i < |old_| && old_[i] == n && new_ == old_[..i] + old_[i + 1..]
  }

  lemma Lost(pre: seq<Ptr>, n: Ptr, post: seq<Ptr>)
    ensures LostAt(pre + [n] + post, pre + post, |pre|, n)
  {
    assert (pre + [n] + post)[..|pre|] == pre;
    assert (pre + [n] + post)[|pre| + 1..] == post;
  }

  lemma InsertPlace(m: Memory, root: Ptr, c: Ctx, tree: Tree)
    requires Settled(m, root, tree) && Plug(c, Leaf) == tree
    ensures Focus(m, root, c, Leaf) && Fits(c, 0, false) && !TopRed(c) && Members(tree) == Around(c)
    ensures Inorder(tree) == Before(c) + After(c)
  {
    RefocusAll(m, root, c, Top, Leaf);
    AppendTop(c);
    PlugBalanced(c, Leaf);
    PlugRed(c, Leaf);
    PlugOrder(c, Leaf);
    PlugMembers(c, Leaf);
    assert Before(c) + [] + After(c) == Before(c) + After(c);
  }

  lemma {:induction false} PlugMembers(c: Ctx, t: Tree)
    ensures Members(Plug(c, t)) == Around(c) + Members(t)
    decreases c
  {
    if !c.Top? {
      PlugMembers(c.up, Closed(c, t));
      StepUp(c, t);
    }
  }

  lemma InsertedCount(c: Ctx, node: Ptr)
    ensures OrderAt(c, Br(Leaf, node, true, Leaf)) == Before(c) + [node] + After(c)
  {
    assert Inorder(Br(Leaf, node, true, Leaf)) == [] + [node] + [] == [node];
  }

  /** The tree as seen from the node to be erased. */
  lemma ErasePlace(m: Memory, root: Ptr, tree: Tree, c: Ctx, t: Tree)
    requires Settled(m, root, tree) && Plug(c, t) == tree && t.Br?
    ensures Focus(m, root, c, t) && Balanced(t) && Fits(c, Height(t), Red(t)) && !TopRed(c) && (c.Top? ==> !Red(t))
    ensures Inorder(tree) == (Before(c) + Inorder(t.left)) + [t.node] + (Inorder(t.right) + After(c))
    ensures t.node != NULL && t.node in m && m[t.node] == Cell(RootOf(t.left), RootOf(t.right), ParentOf(c), t.red)
    ensures (t.left.Br? ==> t.left.node != NULL) && (t.right.Br? ==> t.right.node != NULL)
  {
    assert Focus(m, root, Top, tree) && Balanced(tree) && !Red(tree);
    assert Inorder(t) == Inorder(t.left) + [t.node] + Inorder(t.right);
    hide Focus, Settled, Balanced, Fits, Inorder, Before, After, TopRed, Plug, Height;
    RefocusAll(m, root, c, Top, t);
    AppendTop(c);
    PlugBalanced(c, t);
    PlugRed(c, t);
    PlugOrder(c, t);
    FocusReads(m, root, c, t);
    EraseOrder(Before(c), Inorder(t.left), t.node, Inorder(t.right), After(c));
  }

  lemma EraseOrder(a: seq<Ptr>, l: seq<Ptr>, n: Ptr, r: seq<Ptr>, b: seq<Ptr>)
    ensures a + (l + [n] + r) + b == (a + l) + [n] + (r + b)
  {
  }

  lemma SuccessorOrder(a: seq<Ptr>, l: seq<Ptr>, x: Ptr, k: seq<Ptr>, f: seq<Ptr>, g: seq<Ptr>)
    ensures (a + l + [x]) + k + (f + g) == (a + l) + (([] + ([] + [x] + k) + f) + g)
  {
    assert [] + ([] + [x] + k) + f == [x] + k + f;
  }

  lemma OneChildOrder(c: Ctx, t: Tree, sub: Tree)
    requires t.Br? && ((t.left.Leaf? && sub == t.right) || (t.right.Leaf? && sub == t.left))
    ensures OrderAt(c, sub) == (Before(c) + Inorder(t.left)) + (Inorder(t.right) + After(c))
  {
    assert Inorder(t.left) == [] || Inorder(t.right) == [];
  }

  /** Where the successor `s` of an inner node stands: leftmost below its right child. */
  ghost predicate Successor(c: Ctx, t: Tree, fs: Ctx, low: Tree) {
    t.Br? && AllLeft(fs) && low.Br? && Plug(fs, low) == t.right
  }

  /** Erasing an inner node, seen from the place its successor leaves. */
  lemma InnerErase(c: Ctx, t: Tree, fs: Ctx, low: Tree)
    requires Successor(c, t, fs, low) && low.left.Leaf?
    requires Balanced(t) && Fits(c, Height(t), Red(t)) && !TopRed(c) && (c.Top? ==> !Red(t))
    ensures var d := Append(fs, InRight(c, low.node, t.red, t.left));
      && Fits(d, Height(low), Red(low)) && Balanced(low) && !TopRed(d) && !d.Top?
      && OrderAt(d, low.right) == (Before(c) + Inorder(t.left)) + (Inorder(t.right) + After(c))
  {
    var x, d := Append(fs, InRight(c, t.node, t.red, t.left)), Append(fs, InRight(c, low.node, t.red, t.left));
    PlugAppend(fs, InRight(c, t.node, t.red, t.left), low);
    assert Plug(x, low) == Plug(c, t);
    PlugBalanced(c, t);
    PlugBalanced(x, low);
    PlugRed(c, t);
    PlugRed(x, low);
    SwapNode(fs, c, t.node, low.node, t.red, t.left, Height(low), Red(low));
    NotTop(fs, InRight(c, t.node, t.red, t.left));
    InnerOrder(c, t, fs, low);
  }

  lemma Outside(m: Memory, root: Ptr, c: Ctx, t: Tree)
    requires Focus(m, root, c, t) && t.Br?
    ensures t.node !in Around(c) && t.node !in Members(t.right) && t.node !in Members(t.left) && t.node in m && t.node != NULL
  {
  }

  lemma OutsideAll(fs: Ctx, base: Ctx, t: Tree, n: Ptr)
    requires n !in Around(Append(fs, base)) && n !in Members(t) && !base.Top?
    ensures n !in Around(base.up) + Members(Closed(base, Plug(fs, t)))
  {
    PlugMembers(Append(fs, base), t);
    PlugAppend(fs, base, t);
    PlugMembers(base, Plug(fs, t));
    StepUp(base, Plug(fs, t));
  }

  /** The parent of the successor's old place, read before the writes. */
  lemma ParentAppend(m: Memory, root: Ptr, fs: Ctx, c: Ctx, t: Tree, low: Tree)
    requires t.Br? && Focus(m, root, Append(fs, InRight(c, t.node, t.red, t.left)), low) && low.Br?
    ensures low.node in m
    ensures (if m[low.node].parent == t.node then low.node else m[low.node].parent)
      == ParentOf(Append(fs, InRight(c, low.node, t.red, t.left)))
  {
    var base := InRight(c, t.node, t.red, t.left);
    FocusReads(m, root, Append(fs, base), low);
    if !fs.Top? {
      RefocusAll(m, root, fs.up, base, Closed(fs, low));
      Refocus(m, root, Append(fs, base), low);
      assert Apart(Append(fs.up, base), Closed(fs, low));
      BaseInside(fs.up, base);
    }
  }

  lemma {:induction false} BaseInside(fs: Ctx, base: Ctx)
    requires !base.Top?
    ensures base.node in Around(Append(fs, base))
  {
    if !fs.Top? {
      BaseInside(fs.up, base);
    }
  }

  lemma NotTop(fs: Ctx, base: Ctx)
    requires !base.Top?
    ensures !Append(fs, base).Top?
  {
  }

  lemma InnerOrder(c: Ctx, t: Tree, fs: Ctx, low: Tree)
    requires Successor(c, t, fs, low) && low.left.Leaf?
    ensures var d := Append(fs, InRight(c, low.node, t.red, t.left));
      OrderAt(d, low.right) == (Before(c) + Inorder(t.left)) + (Inorder(t.right) + After(c))
  {
    var base := InRight(c, low.node, t.red, t.left);
    var d := Append(fs, base);
    AppendStep(fs, base, 0, false, Leaf);
    AppendStep(fs, Top, 0, false, Leaf);
    AfterAppend(fs, base);
    AppendTop(fs);
    PlugOrder(fs, low);
    assert Before(fs) == [] && Inorder(low) == [] + [low.node] + Inorder(low.right);
    assert Before(d) == Before(c) + Inorder(t.left) + [low.node] && After(d) == After(fs) + After(c);
    hide Inorder, Before, After, Append, Plug;
    SuccessorOrder(Before(c), Inorder(t.left), low.node, Inorder(low.right), After(fs), After(c));
  }

  lemma {:induction false} AfterAppend(fs: Ctx, base: Ctx)
    requires AllLeft(fs)
    ensures After(Append(fs, base)) == After(fs) + After(base)
  {
    if !fs.Top? {
      AfterAppend(fs.up, base);
      assert [fs.node] + Inorder(fs.right) + (After(fs.up) + After(base)) == ([fs.node] + Inorder(fs.right) + After(fs.up)) + After(base);
    }
  }
}

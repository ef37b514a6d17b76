/**
 How a tree lies in memory.  `mem` gives the fields of the `struct aosl_rb_node`
 at each address; the colour is bit 0 of rb_parent_color.
 */
module RbMemory {
  import opened RbShape

  datatype Cell = Cell(left: Ptr, right: Ptr, parent: Ptr, red: bool)
  type Memory = map<Ptr, Cell>

  /** The nodes of `t` are linked as `t` says, with `p` above. */
  ghost predicate Rep(m: Memory, t: Tree, p: Ptr) {
    match t
    case Leaf => true
    case Br(l, n, red, r) =>
      n != NULL && n in m && m[n] == Cell(RootOf(l), RootOf(r), p, red) && Rep(m, l, n) && Rep(m, r, n)
  }

  ghost function CtxCell(c: Ctx, hole: Ptr): Cell
    requires !c.Top?
  {
    if c.InLeft? then Cell(hole, RootOf(c.right), ParentOf(c.up), c.red)
    else Cell(RootOf(c.left), hole, ParentOf(c.up), c.red)
  }

  ghost predicate RepCtx(m: Memory, c: Ctx, hole: Ptr) {
    !c.Top? ==>
      c.node != NULL && c.node in m && m[c.node] == CtxCell(c, hole) && Rep(m, Beside(c), c.node) && RepCtx(m, c.up, c.node)
  }

  /** Memory and root pointer hold the tree that has `t` at the place `c`. */
  ghost predicate Focus(m: Memory, root: Ptr, c: Ctx, t: Tree) {
    && Apart(c, t)
    && Rep(m, t, ParentOf(c)) && RepCtx(m, c, RootOf(t)) && root == TopOf(c, RootOf(t))
  }

  ghost predicate Same(m: Memory, m': Memory, s: set<Ptr>) {
    forall n :: n in s && n in m ==> n in m' && m'[n] == m[n]
  }

  lemma {:induction false} Frame(m: Memory, m': Memory, t: Tree, p: Ptr)
    requires Rep(m, t, p) && Same(m, m', Members(t))
    ensures Rep(m', t, p)
  {
    match t
    case Leaf =>
    case Br(l, n, _, r) => Frame(m, m', l, n); Frame(m, m', r, n);
  }

  lemma {:induction false} FrameCtx(m: Memory, m': Memory, c: Ctx, hole: Ptr)
    requires RepCtx(m, c, hole) && Same(m, m', Around(c))
    ensures RepCtx(m', c, hole)
  {
    if !c.Top? {
      Frame(m, m', Beside(c), c.node);
      FrameCtx(m, m', c.up, c.node);
    }
  }

  /** Going one level up or down changes nothing in memory. */
  lemma Refocus(m: Memory, root: Ptr, c: Ctx, t: Tree)
    requires !c.Top?
    ensures Focus(m, root, c, t) <==> Focus(m, root, c.up, Closed(c, t))
  {
    StepUp(c, t);
  }

  /** The same for the whole way along `inner`. */
  lemma {:induction false} RefocusAll(m: Memory, root: Ptr, inner: Ctx, outer: Ctx, t: Tree)
    ensures Focus(m, root, Append(inner, outer), t) <==> Focus(m, root, outer, Plug(inner, t))
    decreases inner
  {
    if !inner.Top? {
      var c := Append(inner, outer);
      Refocus(m, root, c, t);
      assert c.up == Append(inner.up, outer) && Closed(c, t) == Closed(inner, t);
      RefocusAll(m, root, inner.up, outer, Closed(inner, t));
    }
  }
}

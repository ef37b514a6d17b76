/**
 The red-black tree of lib/rbtree.c: nodes with parent pointers, rewritten in
 place.  Each method takes, as ghost arguments, the place it works at: a
 context and the subtree below it.
 */
module RbTree {
  import opened RbShape
  import opened RbMemory
  import opened RbMoves

  class Root {
    var mem: Memory
    var root: Ptr
    var count: nat

    constructor ()
      ensures mem == map[] && Valid(Leaf)
    {
      mem, root, count := map[], NULL, 0;
    }

    /** Makes the link that leads to `from` lead to `to`. */
    method Relink(parent: Ptr, from: Ptr, to: Ptr, ghost c: Ctx)
      requires RepCtx(mem, c, from) && DistinctCtx(c) && from !in Around(c) && from != NULL
      requires parent == ParentOf(c) && root == TopOf(c, from)
      modifies this
      ensures RepCtx(mem, c, to) && root == TopOf(c, to)
      ensures Only(old(mem), mem, LinkAt(c)) && count == old(count)
    {
      if parent != NULL {
        ghost var side := Beside(c);
        assert side.Br? ==> side.node in Around(c);
        if mem[parent].left == from {
          mem := SetLeft(mem, parent, to);
        } else {
          mem := SetRight(mem, parent, to);
        }
        FrameOnly(old(mem), mem, {parent}, side, parent);
        FrameCtxOnly(old(mem), mem, {parent}, c.up, parent);
      } else {
        root := to;
      }
    }

    method RotateLeft(node: Ptr, ghost c: Ctx, ghost t: Tree)
      requires Focus(mem, root, c, t) && t.Br? && t.node == node && t.right.Br?
      modifies this
      ensures Focus(mem, root, c, TurnLeft(t)) && count == old(count)
      ensures Only(old(mem), mem, {node, t.right.node, RootOf(t.right.left)} + LinkAt(c))
    {
      hide RepCtx, Rep;
      LeftReady(mem, root, c, t);
      var right := mem[node].right;
      var parent := mem[node].parent;
      mem := SetRight(mem, node, mem[right].left);
      if mem[right].left != NULL {
        mem := SetParent(mem, mem[right].left, node);
      }
      mem := SetLeft(mem, right, node);
      mem := SetParent(mem, right, parent);
      Relink(parent, node, right, c);
      LeftDone(old(mem), mem, old(root), root, c, t);
      mem := SetParent(mem, node, right);
    }

    method RotateRight(node: Ptr, ghost c: Ctx, ghost t: Tree)
      requires Focus(mem, root, c, t) && t.Br? && t.node == node && t.left.Br?
      modifies this
      ensures Focus(mem, root, c, TurnRight(t)) && count == old(count)
      ensures Only(old(mem), mem, {node, t.left.node, RootOf(t.left.right)} + LinkAt(c))
    {
      hide RepCtx, Rep;
      RightReady(mem, root, c, t);
      var left := mem[node].left;
      var parent := mem[node].parent;
      mem := SetLeft(mem, node, mem[left].right);
      if mem[left].right != NULL {
        mem := SetParent(mem, mem[left].right, node);
      }
      mem := SetRight(mem, left, node);
      mem := SetParent(mem, left, parent);
      Relink(parent, node, left, c);
      RightDone(old(mem), mem, old(root), root, c, t);
      mem := SetParent(mem, node, left);
    }

    /** The node is the inner grandchild: a rotation of its parent makes it the outer one. */
    method LineUpLeft(parent: Ptr, ghost c: Ctx, ghost t: Tree) returns (ghost d: Ctx, ghost s: Tree)
      requires Focus(mem, root, c, t) && Inserting(c, t) && c.InRight? && c.red && parent == c.node
      modifies this
      ensures Focus(mem, root, d, s) && Inserting(d, s) && OrderAt(d, s) == OrderAt(c, t)
      ensures d.InLeft? && d.red && d.up == c.up && d.node == RootOf(t) && RootOf(s) == parent
      ensures mem.Keys == old(mem).Keys && count == old(count)
    {
      assert t.Br? && t.red;
      hide Focus, Inserting, Inorder, Before, After;
      Refocus(mem, root, c, t);
      StepUpOrder(c, t);
      RotateLeft(parent, c.up, Closed(c, t));
      TurnLeftOrder(Closed(c, t));
      AlignedLeft(c, t);
      d, s := InLeft(c.up, t.node, true, t.right), Br(c.left, c.node, true, t.left);
      assert Closed(d, s) == TurnLeft(Closed(c, t));
      Refocus(mem, root, d, s);
      StepUpOrder(d, s);
    }

    /** The outer grandchild: parent black, grandparent red and rotated below it. */
    method RaiseLeft(parent: Ptr, gparent: Ptr, ghost c: Ctx, ghost t: Tree) returns (ghost d: Ctx)
      requires Focus(mem, root, c, t) && Inserting(c, t) && c.InLeft? && c.red && parent == c.node
      requires c.up.InLeft? && gparent == c.up.node && !Red(Beside(c.up))
      modifies this
      ensures Focus(mem, root, d, t) && Inserting(d, t) && OrderAt(d, t) == OrderAt(c, t)
      ensures Levels(d) < Levels(c) && !d.Top? && !d.red
      ensures mem.Keys == old(mem).Keys && count == old(count)
    {
      hide Focus, Inserting, Inorder, Before, After;
      ghost var up, g := c.up.up, Grand(c, t);
      GrandFocus(mem, root, c, t);
      PaintOrder(g);
      PaintedLeft(mem, root, up, g, false);
      mem := SetRed(mem, parent, false);
      g := Br(Paint(g.left, false), g.node, g.red, g.right);
      Painted(mem, root, up, g, true);
      mem := SetRed(mem, gparent, true);
      g := Paint(g, true);
      RotateRight(gparent, up, g);
      TurnRightOrder(g);
      d := InLeft(c.up.up, c.node, false, Br(c.right, c.up.node, true, c.up.right));
      LinedUp(c, t);
      assert Closed(d, t) == TurnRight(g);
      Refocus(mem, root, d, t);
      StepUpOrder(d, t);
    }

    /** One turn of the loop in aosl_rb_insert_color, the parent being a left child. */
    method InsertLeft(n: Ptr, parent: Ptr, gparent: Ptr, ghost c: Ctx, ghost t: Tree)
      returns (next: Ptr, ghost c': Ctx, ghost t': Tree)
      requires Focus(mem, root, c, t) && Inserting(c, t) && RootOf(t) == n
      requires !c.Top? && c.red && c.up.InLeft? && parent == c.node && gparent == c.up.node
      modifies this
      ensures Focus(mem, root, c', t') && Inserting(c', t') && RootOf(t') == next
      ensures OrderAt(c', t') == OrderAt(c, t) && Levels(c') < Levels(c)
      ensures mem.Keys == old(mem).Keys && count == old(count)
    {
      assert t.Br?;
      hide Focus, Inserting, OrderAt;
      GrandFocus(mem, root, c, t);
      FocusReads(mem, root, c.up.up, Grand(c, t));
      FocusReads(mem, root, c, t);
      var uncle := mem[gparent].right;
      if uncle != NULL && mem[uncle].red {
        RecolouredInserting(c, t);
        RecolouredFocus(mem, root, c.up.up, Grand(c, t), uncle, parent);
        RecolouredOrder(c.up.up, Grand(c, t));
        mem := SetRed(mem, uncle, false);
        mem := SetRed(mem, parent, false);
        mem := SetRed(mem, gparent, true);
        next, c', t' := gparent, c.up.up, Recoloured(Grand(c, t));
      } else if mem[parent].right == n {
        ghost var d, s := LineUpLeft(parent, c, t);
        c' := RaiseLeft(n, gparent, d, s);
        next, t' := parent, s;
      } else {
        c' := RaiseLeft(parent, gparent, c, t);
        next, t' := n, t;
      }
    }

    /** The node is the inner grandchild: a rotation of its parent makes it the outer one. */
    method LineUpRight(parent: Ptr, ghost c: Ctx, ghost t: Tree) returns (ghost d: Ctx, ghost s: Tree)
      requires Focus(mem, root, c, t) && Inserting(c, t) && c.InLeft? && c.red && parent == c.node
      modifies this
      ensures Focus(mem, root, d, s) && Inserting(d, s) && OrderAt(d, s) == OrderAt(c, t)
      ensures d.InRight? && d.red && d.up == c.up && d.node == RootOf(t) && RootOf(s) == parent
      ensures mem.Keys == old(mem).Keys && count == old(count)
    {
      assert t.Br? && t.red;
      hide Focus, Inserting, Inorder, Before, After;
      Refocus(mem, root, c, t);
      StepUpOrder(c, t);
      RotateRight(parent, c.up, Closed(c, t));
      TurnRightOrder(Closed(c, t));
      AlignedRight(c, t);
      d, s := InRight(c.up, t.node, true, t.left), Br(t.right, c.node, true, c.right);
      assert Closed(d, s) == TurnRight(Closed(c, t));
      Refocus(mem, root, d, s);
      StepUpOrder(d, s);
    }

    /** The outer grandchild: parent black, grandparent red and rotated below it. */
    method RaiseRight(parent: Ptr, gparent: Ptr, ghost c: Ctx, ghost t: Tree) returns (ghost d: Ctx)
      requires Focus(mem, root, c, t) && Inserting(c, t) && c.InRight? && c.red && parent == c.node
      requires c.up.InRight? && gparent == c.up.node && !Red(Beside(c.up))
      modifies this
      ensures Focus(mem, root, d, t) && Inserting(d, t) && OrderAt(d, t) == OrderAt(c, t)
      ensures Levels(d) < Levels(c) && !d.Top? && !d.red
      ensures mem.Keys == old(mem).Keys && count == old(count)
    {
      hide Focus, Inserting, Inorder, Before, After;
      ghost var up, g := c.up.up, Grand(c, t);
      GrandFocus(mem, root, c, t);
      PaintOrder(g);
      PaintedRight(mem, root, up, g, false);
      mem := SetRed(mem, parent, false);
      g := Br(g.left, g.node, g.red, Paint(g.right, false));
      Painted(mem, root, up, g, true);
      mem := SetRed(mem, gparent, true);
      g := Paint(g, true);
      RotateLeft(gparent, up, g);
      TurnLeftOrder(g);
      d := InRight(c.up.up, c.node, false, Br(c.up.left, c.up.node, true, c.left));
      LinedUp(c, t);
      assert Closed(d, t) == TurnLeft(g);
      Refocus(mem, root, d, t);
      StepUpOrder(d, t);
    }

    /** One turn of the loop in aosl_rb_insert_color, the parent being a right child. */
    method InsertRight(n: Ptr, parent: Ptr, gparent: Ptr, ghost c: Ctx, ghost t: Tree)
      returns (next: Ptr, ghost c': Ctx, ghost t': Tree)
      requires Focus(mem, root, c, t) && Inserting(c, t) && RootOf(t) == n
      requires !c.Top? && c.red && c.up.InRight? && parent == c.node && gparent == c.up.node
      modifies this
      ensures Focus(mem, root, c', t') && Inserting(c', t') && RootOf(t') == next
      ensures OrderAt(c', t') == OrderAt(c, t) && Levels(c') < Levels(c)
      ensures mem.Keys == old(mem).Keys && count == old(count)
    {
      assert t.Br?;
      hide Focus, Inserting, OrderAt;
      GrandFocus(mem, root, c, t);
      FocusReads(mem, root, c.up.up, Grand(c, t));
      FocusReads(mem, root, c, t);
      var uncle := mem[gparent].left;
      if uncle != NULL && mem[uncle].red {
        RecolouredInserting(c, t);
        RecolouredFocus(mem, root, c.up.up, Grand(c, t), uncle, parent);
        RecolouredOrder(c.up.up, Grand(c, t));
        mem := SetRed(mem, uncle, false);
        mem := SetRed(mem, parent, false);
        mem := SetRed(mem, gparent, true);
        next, c', t' := gparent, c.up.up, Recoloured(Grand(c, t));
      } else if mem[parent].left == n {
        ghost var d, s := LineUpRight(parent, c, t);
        c' := RaiseRight(n, gparent, d, s);
        next, t' := parent, s;
      } else {
        c' := RaiseRight(parent, gparent, c, t);
        next, t' := n, t;
      }
    }

    /** aosl_rb_insert_color for a red node that was just linked in at `c`. */
    method InsertColor(node: Ptr, ghost c: Ctx, ghost t: Tree) returns (ghost tree: Tree)
      requires Focus(mem, root, c, t) && Inserting(c, t) && RootOf(t) == node
      modifies this
      ensures Focus(mem, root, Top, tree) && Balanced(tree) && !Red(tree)
      ensures Inorder(tree) == OrderAt(c, t)
      ensures mem.Keys == old(mem).Keys && count == old(count) + 1
    {
      var n := node;
      ghost var d, s := c, t;
      FocusReads(mem, root, d, s);
      var parent := mem[n].parent;
      while parent != NULL && mem[parent].red
        invariant Focus(mem, root, d, s) && Inserting(d, s) && RootOf(s) == n && parent == ParentOf(d)
        invariant parent != NULL ==> parent in mem && mem[parent] == CtxCell(d, n)
        invariant OrderAt(d, s) == OrderAt(c, t)
        invariant mem.Keys == old(mem).Keys && count == old(count)
        decreases Levels(d)
      {
        hide Focus;
        RedParent(d, s);
        Refocus(mem, root, d, s);
        FocusReads(mem, root, d.up, Closed(d, s));
        GrandFocus(mem, root, d, s);
        FocusReads(mem, root, d.up.up, Grand(d, s));
        var gparent := mem[parent].parent;
        if parent == mem[gparent].left {
          n, d, s := InsertLeft(n, parent, gparent, d, s);
        } else {
          n, d, s := InsertRight(n, parent, gparent, d, s);
        }
        FocusReads(mem, root, d, s);
        parent := mem[n].parent;
      }
      tree := Plug(d, s);
      BlackenRoot(mem, root, d, s);
      mem := SetRed(mem, root, false);
      tree := Paint(tree, false);
      count := count + 1;
    }

    // ---- __rb_erase_color ------------------------------------------------------

    /** The sibling is red: it turns black, the parent red, and the parent goes below it. */
    method RedSiblingDownLeft(parent: Ptr, other: Ptr, ghost c: Ctx, ghost t: Tree) returns (ghost d: Ctx)
      requires Focus(mem, root, c, t) && Deficit(c, t) && !Red(t) && c.InLeft? && Red(c.right)
      requires parent == c.node && other == c.right.node
      modifies this
      ensures Focus(mem, root, d, t) && Deficit(d, t) && OrderAt(d, t) == OrderAt(c, t)
      ensures d.InLeft? && d.node == parent && d.red && Beside(d).Br? && !Red(Beside(d))
      ensures mem.Keys == old(mem).Keys && count == old(count)
    {
      hide Focus, Deficit, Inorder, Before, After;
      ghost var g := Closed(c, t);
      Refocus(mem, root, c, t);
      StepUpOrder(c, t);
      PaintOrder(g);
      PaintedRight(mem, root, c.up, g, false);
      mem := SetRed(mem, other, false);
      g := Br(t, c.node, c.red, Paint(c.right, false));
      Painted(mem, root, c.up, g, true);
      mem := SetRed(mem, parent, true);
      g := Paint(g, true);
      RotateLeft(parent, c.up, g);
      TurnLeftOrder(g);
      RedSiblingLeft(c, t);
      d := RedSiblingGoneLeft(c);
      assert Grand(d, t) == TurnLeft(g);
      GrandFocus(mem, root, d, t);
    }

    /** The far nephew is black and the near one red: the near one is raised in place of the sibling. */
    method RaiseNearLeft(other: Ptr, near: Ptr, ghost c: Ctx, ghost t: Tree) returns (ghost d: Ctx)
      requires Focus(mem, root, c, t) && Deficit(c, t) && c.InLeft? && c.right.Br? && !Red(c.right)
      requires Red(c.right.left) && !Red(c.right.right) && other == c.right.node && near == c.right.left.node
      modifies this
      ensures d == InLeft(c.up, c.node, c.red, NearRaisedLeft(c.right))
      ensures Focus(mem, root, d, t) && Deficit(d, t) && OrderAt(d, t) == OrderAt(c, t)
      ensures mem.Keys == old(mem).Keys && count == old(count)
    {
      hide Focus, Deficit, Inorder, Before, After;
      ghost var s := c.right;
      ghost var side := InRight(c.up, c.node, c.red, t);   // the place of the sibling
      Refocus(mem, root, c, t);
      Refocus(mem, root, side, s);
      PaintedLeft(mem, root, side, s, false);
      mem := SetRed(mem, near, false);
      s := Br(Paint(s.left, false), s.node, s.red, s.right);
      Painted(mem, root, side, s, true);
      mem := SetRed(mem, other, true);
      s := Paint(s, true);
      RotateRight(other, side, s);
      d := InLeft(c.up, c.node, c.red, NearRaisedLeft(c.right));
      assert TurnRight(s) == NearRaisedLeft(c.right);
      Refocus(mem, root, side, TurnRight(s));
      assert Closed(side, TurnRight(s)) == Closed(d, t);
      Refocus(mem, root, d, t);
      NearNephewLeft(c, t);
      NearOrderLeft(c, t, d);
    }

    /** The far nephew is red: the sibling takes the parent's place and colour, and the count is right again. */
    method RaiseFarLeft(parent: Ptr, other: Ptr, far: Ptr, ghost c: Ctx, ghost t: Tree) returns (ghost tree: Tree)
      requires Focus(mem, root, c, t) && Deficit(c, t) && !Red(t) && c.InLeft? && c.right.Br? && !Red(c.right) && Red(c.right.right)
      requires parent == c.node && other == c.right.node && far == c.right.right.node
      modifies this
      ensures Focus(mem, root, Top, tree) && Balanced(tree) && !Red(tree) && Inorder(tree) == OrderAt(c, t)
      ensures mem.Keys == old(mem).Keys && count == old(count)
    {
      hide Focus, Deficit, Inorder, Before, After, Balanced, Fits, Height, TopRed;
      ghost var g := Closed(c, t);
      Refocus(mem, root, c, t);
      StepUpOrder(c, t);
      FocusReads(mem, root, c, t);
      FocusReads(mem, root, c.up, g);
      PaintedRight(mem, root, c.up, g, c.red);
      mem := SetRed(mem, other, mem[parent].red);
      g := Br(t, c.node, c.red, Paint(c.right, c.red));
      Painted(mem, root, c.up, g, false);
      mem := SetRed(mem, parent, false);
      g := Paint(g, false);
      PaintedFarLeft(mem, root, c.up, g);
      mem := SetRed(mem, far, false);
      g := Br(t, c.node, false, Br(c.right.left, c.right.node, c.red, Paint(c.right.right, false)));
      RotateLeft(parent, c.up, g);
      tree := Plug(c.up, FarRaisedLeft(c, t));
      assert TurnLeft(g) == FarRaisedLeft(c, t);
      TurnLeftOrder(g);
      FarOrderLeft(c, t);
      FarNephewLeft(c, t);
      WholeTree(mem, root, c.up, FarRaisedLeft(c, t));
    }

    /** The sibling is red: it turns black, the parent red, and the parent goes below it. */
    method RedSiblingDownRight(parent: Ptr, other: Ptr, ghost c: Ctx, ghost t: Tree) returns (ghost d: Ctx)
      requires Focus(mem, root, c, t) && Deficit(c, t) && !Red(t) && c.InRight? && Red(c.left)
      requires parent == c.node && other == c.left.node
      modifies this
      ensures Focus(mem, root, d, t) && Deficit(d, t) && OrderAt(d, t) == OrderAt(c, t)
      ensures d.InRight? && d.node == parent && d.red && Beside(d).Br? && !Red(Beside(d))
      ensures mem.Keys == old(mem).Keys && count == old(count)
    {
      hide Focus, Deficit, Inorder, Before, After;
      ghost var g := Closed(c, t);
      Refocus(mem, root, c, t);
      StepUpOrder(c, t);
      PaintOrder(g);
      PaintedLeft(mem, root, c.up, g, false);
      mem := SetRed(mem, other, false);
      g := Br(Paint(c.left, false), c.node, c.red, t);
      Painted(mem, root, c.up, g, true);
      mem := SetRed(mem, parent, true);
      g := Paint(g, true);
      RotateRight(parent, c.up, g);
      TurnRightOrder(g);
      RedSiblingRight(c, t);
      d := RedSiblingGoneRight(c);
      assert Grand(d, t) == TurnRight(g);
      GrandFocus(mem, root, d, t);
    }

    /** The far nephew is black and the near one red: the near one is raised in place of the sibling. */
    method RaiseNearRight(other: Ptr, near: Ptr, ghost c: Ctx, ghost t: Tree) returns (ghost d: Ctx)
      requires Focus(mem, root, c, t) && Deficit(c, t) && c.InRight? && c.left.Br? && !Red(c.left)
      requires Red(c.left.right) && !Red(c.left.left) && other == c.left.node && near == c.left.right.node
      modifies this
      ensures d == InRight(c.up, c.node, c.red, NearRaisedRight(c.left))
      ensures Focus(mem, root, d, t) && Deficit(d, t) && OrderAt(d, t) == OrderAt(c, t)
      ensures mem.Keys == old(mem).Keys && count == old(count)
    {
      hide Focus, Deficit, Inorder, Before, After;
      ghost var s := c.left;
      ghost var side := InLeft(c.up, c.node, c.red, t);   // the place of the sibling
      Refocus(mem, root, c, t);
      Refocus(mem, root, side, s);
      PaintedRight(mem, root, side, s, false);
      mem := SetRed(mem, near, false);
      s := Br(s.left, s.node, s.red, Paint(s.right, false));
      Painted(mem, root, side, s, true);
      mem := SetRed(mem, other, true);
      s := Paint(s, true);
      RotateLeft(other, side, s);
      d := InRight(c.up, c.node, c.red, NearRaisedRight(c.left));
      assert TurnLeft(s) == NearRaisedRight(c.left);
      Refocus(mem, root, side, TurnLeft(s));
      assert Closed(side, TurnLeft(s)) == Closed(d, t);
      Refocus(mem, root, d, t);
      NearNephewRight(c, t);
      NearOrderRight(c, t, d);
    }

    /** The far nephew is red: the sibling takes the parent's place and colour, and the count is right again. */
    method RaiseFarRight(parent: Ptr, other: Ptr, far: Ptr, ghost c: Ctx, ghost t: Tree) returns (ghost tree: Tree)
      requires Focus(mem, root, c, t) && Deficit(c, t) && !Red(t) && c.InRight? && c.left.Br? && !Red(c.left) && Red(c.left.left)
      requires parent == c.node && other == c.left.node && far == c.left.left.node
      modifies this
      ensures Focus(mem, root, Top, tree) && Balanced(tree) && !Red(tree) && Inorder(tree) == OrderAt(c, t)
      ensures mem.Keys == old(mem).Keys && count == old(count)
    {
      hide Focus, Deficit, Inorder, Before, After, Balanced, Fits, Height, TopRed;
      ghost var g := Closed(c, t);
      Refocus(mem, root, c, t);
      StepUpOrder(c, t);
      FocusReads(mem, root, c, t);
      FocusReads(mem, root, c.up, g);
      PaintedLeft(mem, root, c.up, g, c.red);
      mem := SetRed(mem, other, mem[parent].red);
      g := Br(Paint(c.left, c.red), c.node, c.red, t);
      Painted(mem, root, c.up, g, false);
      mem := SetRed(mem, parent, false);
      g := Paint(g, false);
      PaintedFarRight(mem, root, c.up, g);
      mem := SetRed(mem, far, false);
      g := Br(Br(Paint(c.left.left, false), c.left.node, c.red, c.left.right), c.node, false, t);
      RotateRight(parent, c.up, g);
      tree := Plug(c.up, FarRaisedRight(c, t));
      assert TurnRight(g) == FarRaisedRight(c, t);
      TurnRightOrder(g);
      FarOrderRight(c, t);
      FarNephewRight(c, t);
      WholeTree(mem, root, c.up, FarRaisedRight(c, t));
    }

    // ---- the loop of __rb_erase_color ------------------------------------------

    /** One turn of the loop, the short subtree being a left child. */
    method EraseLeft(node: Ptr, parent: Ptr, ghost c: Ctx, ghost t: Tree)
      returns (done: bool, next: Ptr, ghost c': Ctx, ghost t': Tree, ghost tree: Tree)
      requires Focus(mem, root, c, t) && Deficit(c, t) && !Red(t) && c.InLeft? && parent == c.node && RootOf(t) == node
      modifies this
      ensures done ==> Settled(mem, root, tree) && Inorder(tree) == OrderAt(c, t) && next == root
      ensures !done ==> Focus(mem, root, c', t') && Deficit(c', t') && RootOf(t') == next && OrderAt(c', t') == OrderAt(c, t)
      ensures !done ==> t'.Br? && (Red(t') || Levels(c') < Levels(c))
      ensures mem.Keys == old(mem).Keys && count == old(count)
    {
      hide Focus, Deficit, OrderAt, Balanced, Fits, Height;
      c', t', tree := c, t, Leaf;
      SiblingExists(c, t);
      SiblingReads(mem, root, c, t);
      var other := mem[parent].right;
      if mem[other].red {
        c' := RedSiblingDownLeft(parent, other, c, t);
        SiblingReads(mem, root, c', t);
        other := mem[parent].right;
      }
      var near, far := mem[other].left, mem[other].right;
      if (near == NULL || !mem[near].red) && (far == NULL || !mem[far].red) {
        Refocus(mem, root, c', t);
        PaintedRight(mem, root, c'.up, Closed(c', t), true);
        mem := SetRed(mem, other, true);
        BlackNephewsLeft(c', t);
        MovedUp(c', t, true);
        done, next := false, parent;
        c', t' := c'.up, Br(t, parent, c'.red, Paint(c'.right, true));
      } else {
        if far == NULL || !mem[far].red {
          c' := RaiseNearLeft(other, near, c', t);
          SiblingReads(mem, root, c', t);
          other := mem[parent].right;
          far := mem[other].right;
        }
        tree := RaiseFarLeft(parent, other, far, c', t);
        done, next := true, root;
      }
    }

    /** One turn of the loop, the short subtree being a right child. */
    method EraseRight(node: Ptr, parent: Ptr, ghost c: Ctx, ghost t: Tree)
      returns (done: bool, next: Ptr, ghost c': Ctx, ghost t': Tree, ghost tree: Tree)
      requires Focus(mem, root, c, t) && Deficit(c, t) && !Red(t) && c.InRight? && parent == c.node && RootOf(t) == node
      modifies this
      ensures done ==> Settled(mem, root, tree) && Inorder(tree) == OrderAt(c, t) && next == root
      ensures !done ==> Focus(mem, root, c', t') && Deficit(c', t') && RootOf(t') == next && OrderAt(c', t') == OrderAt(c, t)
      ensures !done ==> t'.Br? && (Red(t') || Levels(c') < Levels(c))
      ensures mem.Keys == old(mem).Keys && count == old(count)
    {
      hide Focus, Deficit, OrderAt, Balanced, Fits, Height;
      c', t', tree := c, t, Leaf;
      SiblingExists(c, t);
      SiblingReads(mem, root, c, t);
      var other := mem[parent].left;
      if mem[other].red {
        c' := RedSiblingDownRight(parent, other, c, t);
        SiblingReads(mem, root, c', t);
        other := mem[parent].left;
      }
      var near, far := mem[other].right, mem[other].left;
      if (near == NULL || !mem[near].red) && (far == NULL || !mem[far].red) {
        Refocus(mem, root, c', t);
        PaintedLeft(mem, root, c'.up, Closed(c', t), true);
        mem := SetRed(mem, other, true);
        BlackNephewsRight(c', t);
        MovedUp(c', t, true);
        done, next := false, parent;
        c', t' := c'.up, Br(Paint(c'.left, true), parent, c'.red, t);
      } else {
        if far == NULL || !mem[far].red {
          c' := RaiseNearRight(other, near, c', t);
          SiblingReads(mem, root, c', t);
          other := mem[parent].left;
          far := mem[other].left;
        }
        tree := RaiseFarRight(parent, other, far, c', t);
        done, next := true, root;
      }
    }

    /** __rb_erase_color: repays one missing black node below `parent`. */
    method EraseColor(child: Ptr, above: Ptr, ghost c: Ctx, ghost t: Tree) returns (ghost tree: Tree)
      requires Focus(mem, root, c, t) && Deficit(c, t) && RootOf(t) == child && ParentOf(c) == above
      modifies this
      ensures Settled(mem, root, tree) && Inorder(tree) == OrderAt(c, t)
      ensures mem.Keys == old(mem).Keys && count == old(count)
    {
      hide Focus, Deficit, OrderAt, Settled;
      var node, parent, done := child, above, false;
      ghost var d, s := c, t;
      tree := Leaf;
      AtTop(mem, root, d, s);
      while !done && (node == NULL || !mem[node].red) && node != root
        invariant node == RootOf(s) && (node != NULL ==> node in mem) && (s.Br? ==> node != NULL)
        invariant done ==> Settled(mem, root, tree) && Inorder(tree) == OrderAt(c, t) && node == root
        invariant !done ==> Focus(mem, root, d, s) && Deficit(d, s) && OrderAt(d, s) == OrderAt(c, t)
        invariant !done ==> parent == ParentOf(d) && (node != NULL ==> mem[node].red == s.red) && (d.Top? <==> node == root)
        invariant mem.Keys == old(mem).Keys && count == old(count)
        decreases !done, if Red(s) then 0 else 1 + Levels(d)
      {
        SiblingExists(d, s);
        SiblingReads(mem, root, d, s);
        if mem[parent].left == node {
          done, node, d, s, tree := EraseLeft(node, parent, d, s);
        } else {
          done, node, d, s, tree := EraseRight(node, parent, d, s);
        }
        if done {
          s := tree;
          SettledRoot(mem, root, tree);
        } else {
          AtTop(mem, root, d, s);
          parent := mem[node].parent;
        }
      }
      if done {
        RootPainted(mem, root, tree);
      } else {
        DebtPaid(mem, root, d, s);
        tree := Plug(d, Blacken(s));
      }
      if node != NULL {
        mem := SetRed(mem, node, false);
      }
    }

    // ---- Insertion and erasure of a node ---------------------------------------

    /** Memory holds `tree`, a red-black tree with as many nodes as `count` says. */
    ghost predicate Valid(tree: Tree)
      reads this
    {
      Settled(mem, root, tree) && count == |Inorder(tree)|
    }

    /** A node comes into being, with whatever its memory held; it is in no tree yet. */
    method AddNode(node: Ptr, cell: Cell, ghost tree: Tree)
      requires Valid(tree) && node != NULL && node !in mem
      modifies this`mem
      ensures Valid(tree) && mem == old(mem)[node := cell]
    {
      Nonzero(mem, tree, NULL);
      Frame(mem, mem[node := cell], tree, NULL);
      hide Rep, Balanced, Inorder;
      mem := mem[node := cell];
    }

    /** rb_link_node and aosl_rb_insert_color, at the place `c` where the search ended. */
    method Insert(node: Ptr, parent: Ptr, asLeft: bool, ghost c: Ctx, ghost tree: Tree) returns (ghost tree': Tree)
      requires Valid(tree) && Plug(c, Leaf) == tree
      requires node in mem && node != NULL && node !in Members(tree)
      requires parent == ParentOf(c) && (!c.Top? ==> asLeft == c.InLeft?)
      modifies this
      ensures Valid(tree') && Inorder(tree') == Before(c) + [node] + After(c)
      ensures mem.Keys == old(mem).Keys
    {
      ghost var t := Br(Leaf, node, true, Leaf);
      InsertPlace(mem, root, c, tree);
      Linked(mem, root, c, node);
      InsertedCount(c, node);
      hide Focus;
      mem := mem[node := Cell(NULL, NULL, parent, true)];
      if parent == NULL {
        root := node;
      } else if asLeft {
        mem := SetLeft(mem, parent, node);
      } else {
        mem := SetRight(mem, parent, node);
      }
      tree' := InsertColor(node, c, t);
    }

    /** Unlinks a node that has at most one child. */
    method Splice(node: Ptr, child: Ptr, ghost c: Ctx, ghost t: Tree, ghost sub: Tree)
      requires Focus(mem, root, c, t) && t.Br? && t.node == node && child == RootOf(sub)
      requires (t.left.Leaf? && sub == t.right) || (t.right.Leaf? && sub == t.left)
      modifies this
      ensures Focus(mem, root, c, sub) && mem.Keys == old(mem).Keys && count == old(count)
    {
      hide Rep, RepCtx, TopOf;
      SubReads(mem, root, c, t, sub);
      var parent := mem[node].parent;
      if child != NULL {
        mem := SetParent(mem, child, parent);
      }
      Relink(parent, node, child, c);
      SplicedOut(old(mem), mem, old(root), root, c, t, sub);
    }

    /** Puts `s`, which is in no tree, in the place of `node`. */
    method Replace(node: Ptr, s: Ptr, ghost c: Ctx, ghost t: Tree)
      requires Focus(mem, root, c, t) && t.Br? && t.left.Br? && t.node == node && s in mem && s != NULL && s !in Around(c) + Members(t)
      modifies this
      ensures Focus(mem, root, c, Br(t.left, s, t.red, t.right)) && mem.Keys == old(mem).Keys && count == old(count)
    {
      hide Rep, RepCtx, TopOf, Members, Distinct;
      ReplaceReady(mem, root, c, t, s);
      ghost var cell := mem[node];
      mem := mem[s := Cell(mem[node].left, mem[node].right, mem[node].parent, mem[node].red)];
      Relink(mem[node].parent, node, s, c);
      assert mem[node] == cell;
      ghost var linked := mem;
      mem := SetParent(mem, mem[node].left, s);
      if mem[node].right != NULL {
        mem := SetParent(mem, mem[node].right, s);
      }
      FrameCtxOnly(linked, mem, {t.left.node} + (if t.right.Br? then {t.right.node} else {}), c, s);
      Replaced(old(mem), mem, old(root), root, c, t, s);
    }

    /** The walk to the successor: right once, then left as far as it goes. */
    method Descend(node: Ptr, ghost c: Ctx, ghost t: Tree) returns (s: Ptr, ghost fs: Ctx, ghost low: Tree)
      requires Focus(mem, root, c, t) && t.Br? && t.node == node && t.right.Br?
      ensures Successor(c, t, fs, low) && low.left.Leaf? && s == low.node
      ensures Focus(mem, root, Append(fs, InRight(c, t.node, t.red, t.left)), low)
    {
      hide Focus;
      ghost var base := InRight(c, t.node, t.red, t.left);
      Refocus(mem, root, base, t.right);
      FocusReads(mem, root, c, t);
      fs, low := Top, t.right;
      s := mem[node].right;
      FocusReads(mem, root, Append(fs, base), low);
      while mem[s].left != NULL
        invariant low.Br? && s == low.node && s in mem && mem[s].left == RootOf(low.left)
        invariant low.left.Br? ==> low.left.node != NULL
        invariant AllLeft(fs) && Plug(fs, low) == t.right
        invariant Focus(mem, root, Append(fs, base), low)
        decreases low
      {
        AppendStep(fs, base, low.node, low.red, low.right);
        fs, low := InLeft(fs, low.node, low.red, low.right), low.left;
        Refocus(mem, root, Append(fs, base), low);
        FocusReads(mem, root, Append(fs, base), low);
        s := mem[s].left;
      }
    }

    /** The black-height debt left by an unlinked node, if any, is repaid. */
    method Rebalance(red: bool, child: Ptr, parent: Ptr, ghost c: Ctx, ghost t: Tree, ghost sub: Tree)
      returns (ghost tree: Tree)
      requires Focus(mem, root, c, sub) && child == RootOf(sub) && parent == ParentOf(c) && t.Br? && t.red == red
      requires (t.left.Leaf? && sub == t.right) || (t.right.Leaf? && sub == t.left)
      requires Balanced(t) && Fits(c, Height(t), Red(t)) && !TopRed(c) && (c.Top? ==> !Red(t))
      modifies this
      ensures Settled(mem, root, tree) && Inorder(tree) == OrderAt(c, sub)
      ensures mem.Keys == old(mem).Keys && count == old(count)
    {
      hide Focus;
      OneChild(c, t, sub);
      if !red {
        tree := EraseColor(child, parent, c, sub);
      } else {
        tree := Plug(c, sub);
        WholeTree(mem, root, c, sub);
      }
    }

    /** aosl_rb_erase for a node with two children. */
    method EraseInner(node: Ptr, ghost c: Ctx, ghost t: Tree) returns (ghost tree: Tree)
      requires Focus(mem, root, c, t) && t.Br? && t.node == node && t.left.Br? && t.right.Br?
      requires Balanced(t) && Fits(c, Height(t), Red(t)) && !TopRed(c) && (c.Top? ==> !Red(t))
      modifies this
      ensures Settled(mem, root, tree)
      ensures Inorder(tree) == (Before(c) + Inorder(t.left)) + (Inorder(t.right) + After(c))
      ensures mem.Keys == old(mem).Keys && count == old(count)
    {
      hide Focus, Balanced, Fits, TopRed, Inorder, Before, After, Height;
      ghost var base := InRight(c, t.node, t.red, t.left);
      var s;
      ghost var fs, low;
      s, fs, low := Descend(node, c, t);
      ghost var x := Append(fs, base);
      FocusReads(mem, root, x, low);
      var child := mem[s].right;
      var parent := mem[s].parent;
      var red := mem[s].red;
      Outside(mem, root, x, low);
      Splice(s, child, x, low, low.right);
      RefocusAll(mem, root, fs, base, low.right);
      ghost var rest := Plug(fs, low.right);
      Refocus(mem, root, base, rest);
      OutsideAll(fs, base, low.right, s);
      Replace(node, s, c, Br(t.left, t.node, t.red, rest));
      ghost var base' := InRight(c, s, t.red, t.left);
      Refocus(mem, root, base', rest);
      RefocusAll(mem, root, fs, base', low.right);
      if parent == node {
        parent := s;
      }
      ParentAppend(old(mem), old(root), fs, c, t, low);
      InnerErase(c, t, fs, low);
      tree := Rebalance(red, child, parent, Append(fs, base'), low, low.right);
    }

    /** aosl_rb_erase: the tree loses exactly `node`. */
    method Erase(node: Ptr, ghost tree: Tree) returns (ghost tree': Tree, ghost at: nat)
      requires Valid(tree) && node in Members(tree)
      modifies this
      ensures Valid(tree') && LostAt(Inorder(tree), Inorder(tree'), at, node)
      ensures mem.Keys == old(mem).Keys
    {
      ghost var c, t := Locate(tree, node);
      ErasePlace(mem, root, tree, c, t);
      Lost(Before(c) + Inorder(t.left), node, Inorder(t.right) + After(c));
      at := |Before(c) + Inorder(t.left)|;
      hide Focus, Balanced, Fits, TopRed, Inorder, Before, After, Height;
      if mem[node].left != NULL && mem[node].right != NULL {
        tree' := EraseInner(node, c, t);
      } else {
        var child := if mem[node].left == NULL then mem[node].right else mem[node].left;
        var parent, red := mem[node].parent, mem[node].red;
        ghost var sub := if t.left.Leaf? then t.right else t.left;
        OneChildOrder(c, t, sub);
        Splice(node, child, c, t, sub);
        tree' := Rebalance(red, child, parent, c, t, sub);
      }
      count := count - 1;
    }
  }
}

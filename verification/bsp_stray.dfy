/** Removal of a container by way of the entry of another tag than the one whose tree it is in. */
module BspStray {
  import opened Geometry
  import opened BspTree
  import opened BspLayout
  import opened BspOps
  import opened BspRuns
  import opened BspEntry
  import opened BspTag
  import opened BspHeap
  import opened BspNodes
  import opened BspWorkspace

  import opened Options

  /** The null pointer that is dereferenced first. */
  datatype Fault = NoFault | NullEntry | NullParent | NullGrandparent

  /** What is to be seen of a tag whose focus may have left its tree. */
  ghost predicate Holds(w: Workspace, e: Entry<Container>)
    reads w, w.NodesIn(), w.WindowsIn()
  {
    && w.shape.Some? && w.lastFocused != null && Hung(Top, w.shape.value).0 && w.root == NodeOf(w.shape.value)
    && e == Tiled(ViewOf(w.shape.value), w.lastFocused)
  }

  /**
   The container is looked for by way of the entry of another tag, whose root is `root` and whose
   last focused container is `focused`; there is no entry when `root` is null. The removal ends
   exactly when there is one and the leaf has a grandparent; its own entry then keeps the focus,
   even on the container that is gone.
   */
  method RemoveBy(w: Workspace, c: Container, root: Node?, focused: Container?)
    returns (fault: Fault, focused': Container?)
    requires w.Valid() && c in w.WindowsIn() && (root != null ==> root !in w.NodesIn())
    modifies w`shape, w.NodesIn(), c`bspNode
    ensures Present(old(w.Abs()), c)
    ensures fault == NoFault <==> root != null && Deep(old(w.Abs()).entry, c)
    ensures fault == NullEntry <==> root == null
    ensures fault == NullParent <==> root != null && Find(old(w.Abs()), c).0.Top?
    ensures fault != NoFault ==> w.Valid() && w.Abs() == old(w.Abs())
    ensures fault == NoFault ==>
              && c.bspNode == null && w.WindowsIn() == old(w.WindowsIn()) - {c}
              && Holds(w, Blinded(old(w.Abs()).entry, c, w.now.shown))
              && (w.Valid() <==> old(w.lastFocused) != c)
              && focused' == if focused == c then Heir(Find(old(w.Abs()), c).0) else focused
  {
    ghost var whole := w.shape.value;
    LocateViews(whole, c);
    ghost var k, leaf := Locate(whole, c), LeafOf(whole, c);
    PlugSets(k, leaf);
    OutermostView(k);
    if root == null {
      return NullEntry, focused;
    }
    TopIn(leaf);
    assert c.bspNode != root;
    if c.bspNode.parent == null {
      return NullParent, focused;
    }
    fault, focused' := RemoveBelow(w, c, c.bspNode, root, focused, k, leaf);
  }

  /** Removal of a leaf that has a parent. */
  method RemoveBelow(w: Workspace, c: Container, node: Node, root: Node, focused: Container?,
                     ghost k: ShapeCtx, ghost leaf: Shape)
    returns (fault: Fault, focused': Container?)
    requires w.Valid() && w.shape == Some(Plug(k, leaf)) && Hung(k, leaf).0 && leaf == Leaf(node, c)
    requires k.In? && root !in NodesAround(k)
    modifies w`shape, NodesAround(k), node`parent, c`bspNode
    ensures fault == if k.up.Top? then NullGrandparent else NoFault
    ensures focused' == if focused == c then Outermost(k.sib, k.side) else focused
    ensures k.up.Top? ==> w.Valid() && w.Abs() == old(w.Abs())
    ensures k.up.In? ==>
              && c.bspNode == null && w.WindowsIn() == WindowsAround(k)
              && Holds(w, Tiled(Plug(old(ViewAround(k.up)), old(ViewOf(k.sib))), old(w.lastFocused)))
              && (w.Valid() <==> old(w.lastFocused) in WindowsAround(k))
  {
    Neighbours(k, leaf);
    var parent := node.parent;
    var sibling := if parent.left == node then parent.right else parent.left;
    focused' := HandOn(c, node, focused, k, leaf);
    HungWhole(k, leaf);
    assert parent != root;
    if parent.parent == null {
      return NullGrandparent, focused';
    }
    PartsAround(k);
    Unhook(w, c, node, parent, sibling, k, leaf);
    PlugSets(k.up, k.sib);
    Remains(w, k.up, k.sib);
    fault := NoFault;
  }

  method HandOn(c: Container, node: Node, focused: Container?, ghost k: ShapeCtx, ghost leaf: Shape)
    returns (focused': Container?)
    requires k.In? && leaf == Leaf(node, c) && Hung(k, leaf).0
    ensures focused' == if focused == c then Outermost(k.sib, k.side) else focused
    ensures Hung(k, leaf) == old(Hung(k, leaf))
  {
    Exist(leaf);
    ExistAround(k);
    focused' := focused;
    if focused == c {
      var closest := ClosestLeaf(node, k, leaf);
      focused' := closest.container;
    }
  }

  /** The leaf and its parent leave the tree, which has more nodes; the entry is left alone. */
  method Unhook(w: Workspace, c: Container, node: Node, parent: Node, sibling: Node,
                ghost k: ShapeCtx, ghost leaf: Shape)
    requires w.Valid() && w.shape == Some(Plug(k, leaf)) && Hung(k, leaf).0 && leaf == Leaf(node, c)
    requires k.In? && k.up.In? && k.a == parent && NodeOf(k.sib) == sibling
    modifies w`shape, node`parent, sibling`parent, parent`left, parent`right
    modifies NodesAround(k.up)`left, NodesAround(k.up)`right, c`bspNode
    ensures c.bspNode == null && w.shape == Some(Plug(k.up, k.sib)) && w.root == NodeOf(w.shape.value)
    ensures Hung(k.up, k.sib) == (true, old(ViewAround(k.up)), old(ViewOf(k.sib)))
  {
    PlugRoot(k, leaf);
    Detach(node, parent, sibling, k, leaf);
    w.shape := Some(Plug(k.up, k.sib));
    assert Hung(k.up, k.sib) == (true, old(ViewAround(k.up)), old(ViewOf(k.sib)));
  }

  /** What is left is a tree; the entry is in order if its focus is still there. */
  lemma Remains(w: Workspace, k: ShapeCtx, s: Shape)
    requires w.shape == Some(Plug(k, s)) && w.root == NodeOf(w.shape.value) && Hung(k, s).0 && w.lastFocused != null
    ensures Holds(w, Tiled(Plug(ViewAround(k), ViewOf(s)), w.lastFocused))
    ensures w.Valid() <==> w.lastFocused in Windows(s) + WindowsAround(k)
  {
    PlugSets(k, s);
    HungWhole(k, s);
  }
}

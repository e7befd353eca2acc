/** The BSP operations of one tag, as the compositor runs them, refine the state machine of its runs. */
module BspWorkspace {
  import opened Geometry
  import opened BspTree
  import opened BspLayout
  import opened BspOps
  import opened BspRuns
  import opened BspEntry
  import opened BspQuiet
  import opened BspTag
  import opened BspMeaning
  import opened BspHeap
  import opened BspNodes

  import opened Options

  ghost predicate Children(p: Node?, c: Node?, d: Node?, side: Side)
    reads p, c, d
  {
    && p != null && c != null && d != null && c.parent == p == d.parent
    && (if side.Left? then p.left == c && p.right == d else p.left == d && p.right == c)
  }

  /**
   Two leaves, both enabled, share the box of the node above them: the longer side of `was` is
   divided. That box is `place`, when this is known.
   */
  ghost predicate ShareArea(p: Node?, c: Node?, d: Node?, side: Side, was: Box, place: Option<Box>)
    reads p, c, d
  {
    && Children(p, c, d, side) && c.enabled && d.enabled && (place.Some? ==> p.Area() == place.value)
    && (if side.Left? then Divided(was, p.Area(), c.Area(), d.Area()) else Divided(was, p.Area(), d.Area(), c.Area()))
  }

  /** What the value says of a shared box is so of the nodes. */
  lemma ShareViews(s: Shape, c: Container, d: Container, side: Side, was: Box, place: Option<Box>)
    requires Hung(Top, s).0 && c in Windows(s) && Shared(ViewOf(s), c, d, side, was)
    requires place.Some? ==> PlaceOf(ViewOf(s), c) == place.value
    ensures c.bspNode != null && ShareArea(c.bspNode.parent, c.bspNode, d.bspNode, side, was, place)
  {
    WindowsAreLeaves(s);
    LocateViews(s, c);
    LocateViews(s, d);
    Neighbours(Locate(s, c), LeafOf(s, c));
    HookedSide(Locate(s, c), LeafOf(s, c));
    Neighbours(Locate(s, d), LeafOf(s, d));
  }

  /** The BSP entry of a tag, with what its operations read from the output. */
  class Workspace {
    var root: Node?
    var lastFocused: Container?
    var scheduled: bool    // a layout of the tag is left to the idle callback
    var now: Setting       // what the layout of the tag depends on
    ghost var shape: Option<Shape>

    ghost function NodesIn(): set<Node>
      reads this`shape
    {
      if shape.Some? then Nodes(shape.value) else {}
    }

    ghost function WindowsIn(): set<Container>
      reads this`shape
    {
      if shape.Some? then Windows(shape.value) else {}
    }

    /** A tag without windows. */
    constructor (at: Setting)
      requires at.Valid()
      ensures Valid() && now == at && shape == None && Abs() == State(Vacant, false)
    {
      root, lastFocused, scheduled, now, shape := null, null, false, at, None;
    }

    ghost predicate Valid()
      reads this, NodesIn(), WindowsIn()
    {
      match shape
      case None => root == null && lastFocused == null
      case Some(s) => Hung(Top, s).0 && root == NodeOf(s) && lastFocused in Windows(s)
    }

    /** The state of the workspace as a value. */
    ghost function Abs(): State<Container>
      requires Valid()
      reads this, NodesIn(), WindowsIn()
    {
      State(if shape.None? then Vacant else Tiled(ViewOf(shape.value), lastFocused), scheduled)
    }

    /** The node above the leaf of a container, if there is one. */
    ghost function NodesAbove(c: Container): set<Node>
      reads this`shape, c`bspNode, if c.bspNode == null then {} else {c.bspNode}
    {
      set n | n in NodesIn() && c.bspNode != null && c.bspNode.parent == n
    }

    /** How that node is divided. */
    ghost function SplitOver(c: Container): SplitType
      reads c`bspNode, if c.bspNode == null then {} else {c.bspNode} + Above(c.bspNode)
    {
      if c.bspNode == null then SplitAuto else SplitAbove(c.bspNode)
    }

    method NodeEnable(n: Node, ghost k: ShapeCtx, ghost s: Shape)
      requires Hung(k, s).0 && NodeOf(s) == n
      modifies this`scheduled
      modifies Nodes(Plug(k, s))`enabled, Nodes(Plug(k, s))`x, Nodes(Plug(k, s))`y
      modifies Nodes(Plug(k, s))`width, Nodes(Plug(k, s))`height, Windows(Plug(k, s))`win
      ensures var out := Enable(old(ViewAround(k)), old(ViewOf(s)), now.shown);
              Hung(Top, Plug(k, s)) == (true, Top, out.t) && scheduled == (old(scheduled) || out.scheduled)
    {
      TopIn(s);
      PlugSets(k, s);
      var root := EnableClimb(n, k, s);
      ghost var whole := Plug(k, s);
      HungWhole(Top, whole);
      if root.kind == Internal {
        UpdateNode(root, whole, null, now.shown);
      } else {
        scheduled := true;
      }
    }

    method NodeDisable(n: Node, ghost k: ShapeCtx, ghost s: Shape)
      requires Hung(k, s).0 && NodeOf(s) == n
      modifies this`scheduled
      modifies Nodes(Plug(k, s))`enabled, Nodes(Plug(k, s))`x, Nodes(Plug(k, s))`y
      modifies Nodes(Plug(k, s))`width, Nodes(Plug(k, s))`height, Windows(Plug(k, s))`win
      ensures var out := Disable(old(ViewAround(k)), old(ViewOf(s)), now.shown);
              Hung(Top, Plug(k, s)) == (true, Top, out.t) && scheduled == (old(scheduled) || out.scheduled)
    {
      TopIn(s);
      PlugSets(k, s);
      var last;
      ghost var k', s';
      last, k', s' := DisableClimb(n, k, s);
      AfterDisable(last, k', s');
    }

    /** Relayouts below the parent of the topmost node that was disabled, or schedules a layout. */
    method AfterDisable(last: Node, ghost k: ShapeCtx, ghost s: Shape)
      requires Hung(k, s).0 && NodeOf(s) == last
      modifies this`scheduled
      modifies Nodes(Plug(k, s))`x, Nodes(Plug(k, s))`y
      modifies Nodes(Plug(k, s))`width, Nodes(Plug(k, s))`height, Windows(Plug(k, s))`win
      ensures var out := Finish(old(ViewAround(k)), old(ViewOf(s)), now.shown);
              Hung(Top, Plug(k, s)) == (true, Top, out.t) && scheduled == (old(scheduled) || out.scheduled)
    {
      HungWhole(k, s);
      assert s.Inner? <==> last.kind == Internal;
      assert k.Top? <==> last.parent == null;
      if last.kind == Internal && last.parent != null {
        HungUp(k, s);
        PlugSets(k.up, Join(k.side, k.a, s, k.sib));
        UpdateInside(last.parent, k.up, Join(k.side, k.a, s, k.sib), now.shown);
      } else if last.kind == Terminal {
        scheduled := true;
      }
    }

    method RemoveContainer(c: Container, update: bool)
      requires Valid() && c in WindowsIn()
      modifies this`root, this`lastFocused, this`shape, this`scheduled, NodesIn(), WindowsIn()`win, WindowsIn()`bspNode
      ensures Valid() && c.bspNode == null
      ensures NodesIn() <= old(NodesIn()) && WindowsIn() == old(WindowsIn()) - {c}
      ensures Present(old(Abs()), c) && Abs() == Removed(old(Abs()), c, update, now.shown)
    {
      ghost var whole := shape.value;
      LocateViews(whole, c);
      ghost var k, leaf := Locate(whole, c), LeafOf(whole, c);
      PlugSets(k, leaf);
      if k.In? { PlugTop(k, leaf); }
      OutermostView(k);
      var node := c.bspNode;
      if node == root {
        DestroyNode(root, whole, null);
        root, lastFocused, shape := null, null, None;
        return;
      }
      RemoveInner(c, node, update, k, leaf);
      PlugSets(k.up, k.sib);
    }

    /** Removal of a leaf that has a parent. */
    method RemoveInner(c: Container, node: Node, update: bool, ghost k: ShapeCtx, ghost leaf: Shape)
      requires k.In? && leaf == Leaf(node, c) && Hung(k, leaf).0 && root == NodeOf(Plug(k, leaf))
      modifies this`root, this`lastFocused, this`scheduled, this`shape
      modifies node`parent, c`bspNode, NodesAround(k), WindowsAround(k)`win
      ensures shape == Some(Plug(k.up, k.sib)) && root == NodeOf(shape.value) && c.bspNode == null
      ensures var out := Remove(old(ViewAround(k)), update, now.shown);
              Hung(Top, Plug(k.up, k.sib)) == (true, Top, out.t) && scheduled == (old(scheduled) || out.scheduled)
      ensures lastFocused == if old(lastFocused) == c then Outermost(k.sib, k.side) else old(lastFocused)
    {
      Neighbours(k, leaf);
      PartsAround(k);
      ghost var around := ViewAround(k);
      HandOnFocus(c, node, k, leaf);
      var grandparent := Unlink(c, node, k, leaf);
      PlugSets(k.up, k.sib);
      AfterRemove(grandparent, update, k, around);
    }

    method HandOnFocus(c: Container, node: Node, ghost k: ShapeCtx, ghost leaf: Shape)
      requires k.In? && leaf == Leaf(node, c) && Hung(k, leaf).0
      modifies this`lastFocused
      ensures lastFocused == if old(lastFocused) == c then Outermost(k.sib, k.side) else old(lastFocused)
      ensures Hung(k, leaf) == old(Hung(k, leaf))
    {
      Exist(leaf);
      ExistAround(k);
      if lastFocused == c {
        var closest := ClosestLeaf(node, k, leaf);
        lastFocused := closest.container;
      }
    }

    /** Hands the root on, and takes the leaf and its parent out of the tree. */
    method Unlink(c: Container, node: Node, ghost k: ShapeCtx, ghost leaf: Shape) returns (grandparent: Node?)
      requires k.In? && leaf == Leaf(node, c) && Hung(k, leaf).0 && root == NodeOf(Plug(k, leaf))
      modifies this`root, this`shape
      modifies node`parent, c`bspNode, k.a`left, k.a`right, NodeOf(k.sib)`parent
      modifies NodesAround(k.up)`left, NodesAround(k.up)`right
      ensures shape == Some(Plug(k.up, k.sib)) && root == NodeOf(shape.value) && c.bspNode == null
      ensures Hung(k.up, k.sib) == (true, old(ViewAround(k.up)), old(ViewOf(k.sib))) && grandparent == ParentOf(k.up)
    {
      Neighbours(k, leaf);
      PartsAround(k);
      PlugTop(k, leaf);
      TopIn(leaf);
      var parent := node.parent;
      var sibling := if parent.left == node then parent.right else parent.left;
      grandparent := null;
      if parent == root {
        root := sibling;
      } else {
        grandparent := parent.parent;
      }
      Detach(node, parent, sibling, k, leaf);
      shape := Some(Plug(k.up, k.sib));
      if k.up.In? { PlugTop(k.up, k.sib); }
      PlugRoot(k, leaf);
    }

    /** Relayouts below the grandparent of the removed node, or schedules a layout. */
    method AfterRemove(grandparent: Node?, update: bool, ghost k: ShapeCtx, ghost around: ViewCtx<Container>)
      requires k.In? && Hung(k.up, k.sib).0 && grandparent == ParentOf(k.up)
      requires around.In? && around.side == k.side && (around.up, around.sib) == (ViewAround(k.up), ViewOf(k.sib))
      modifies this`scheduled
      modifies Nodes(Plug(k.up, k.sib))`x, Nodes(Plug(k.up, k.sib))`y
      modifies Nodes(Plug(k.up, k.sib))`width, Nodes(Plug(k.up, k.sib))`height, Windows(Plug(k.up, k.sib))`win
      ensures var out := Remove(around, update, now.shown);
              Hung(Top, Plug(k.up, k.sib)) == (true, Top, out.t) && scheduled == (old(scheduled) || out.scheduled)
    {
      HungWhole(k.up, k.sib);
      if update {
        if grandparent != null {
          HungUp(k.up, k.sib);
          PlugSets(k.up.up, Join(k.up.side, k.up.a, k.sib, k.up.sib));
          UpdateInside(grandparent, k.up.up, Join(k.up.side, k.up.a, k.sib, k.up.sib), now.shown);
        } else {
          scheduled := true;
        }
      }
    }

    /** The container enters the tree enabled. */
    ghost predicate Visible(c: Container)
      reads this, c
    {
      c.ConfigureAllowed() && !c.minimized && !now.floats
    }

    /** A visible window goes beside the leaf of the container focused last, and that leaf is enabled. */
    ghost predicate Meets(c: Container)
      reads this, c, lastFocused, if lastFocused == null then null else lastFocused.bspNode
    {
      Visible(c) && lastFocused != null && lastFocused.bspNode != null && lastFocused.bspNode.enabled
    }

    /** The tree is laid out in the usable area. */
    ghost predicate LaidOut()
      requires Valid()
      reads this, NodesIn(), WindowsIn()
    {
      var e := Abs().entry;
      e.Tiled? && Flags(e.tree, false) && InPlace(e.tree, now.area, now.shown)
    }

    /** The box of the leaf of the container focused last. */
    ghost function NearBox(): Box
      reads this, lastFocused, if lastFocused == null then null else lastFocused.bspNode
    {
      if lastFocused == null || lastFocused.bspNode == null then ORIGIN else lastFocused.bspNode.Area()
    }

    /** The box of the node that is put over that leaf: the usable area at the root, where it was otherwise. */
    ghost function Room(): Option<Box>
      requires Valid()
      reads this, lastFocused, if lastFocused == null then null else lastFocused.bspNode, NodesIn(), WindowsIn()
    {
      if lastFocused != null && root == lastFocused.bspNode then Some(now.area)
      else if LaidOut() then Some(NearBox()) else None
    }

    method InsertContainer(c: Container, side: Side)
      requires Valid() && c.bspNode == null
      modifies this`root, this`shape, this`lastFocused, this`scheduled
      modifies c`bspNode, c`floating, c`win, NodesIn(), WindowsIn()`win
      ensures Valid() && WindowsIn() == old(WindowsIn()) + {c}
      ensures forall n :: n in NodesIn() ==> n in old(NodesIn()) || fresh(n)
      ensures !Present(old(Abs()), c) && !c.floating
      ensures Abs() == Done(Desk(old(Abs()), now), Add(old(GuestOf(c, now.floats)), side))
      ensures c.bspNode != null && lastFocused == c
      ensures old(Meets(c)) ==>
                ShareArea(c.bspNode.parent, c.bspNode, old(lastFocused).bspNode, side, old(NearBox()), old(Room()))
      ensures c.bspNode.enabled <==> old(root) == null || old(Visible(c))
    {
      Clear(c);
      if root == null {
        InsertFirst(c);
      } else {
        InsertFocused(c, side);
      }
    }

    /** The container stops floating; it is not in the tree, so the tree is not concerned. */
    method Clear(c: Container)
      requires Valid() && c.bspNode == null
      modifies c`floating
      ensures Valid() && !c.floating && c !in WindowsIn()
      ensures Abs() == old(Abs()) && !Present(Abs(), c) && (root != null ==> Present(Abs(), lastFocused))
      ensures (Visible(c), Meets(c)) == old((Visible(c), Meets(c))) && (NearBox(), Room()) == old((NearBox(), Room()))
    {
      if shape.Some? {
        HaveNodes(shape.value, null);
        WindowsAreLeaves(shape.value);
        var focused: Container := lastFocused;
        assert focused in Windows(shape.value);
      }
      c.floating := false;
      if shape.Some? { assert Hung(Top, shape.value) == old(Hung(Top, shape.value)); }
    }

    method InsertFirst(c: Container)
      requires Valid() && root == null && c.bspNode == null && !c.floating
      modifies this`root, this`shape, this`lastFocused, c`bspNode, c`win
      ensures Valid() && WindowsIn() == {c} && fresh(NodesIn())
      ensures c.bspNode != null && lastFocused == c && c.bspNode.enabled
      ensures var g := old(GuestOf(c, now.floats));
              Abs() == State(Tiled(if now.isBsp then First(g, now.area, now.shown) else g.Node(), c), scheduled)
    {
      root := FirstLeaf(c, now.area, now.isBsp, now.shown);
      shape := Some(Shape.Leaf(root, c));
      lastFocused := c;
    }

    /** Insertion next to the container that was focused last. */
    method InsertFocused(c: Container, side: Side)
      requires Valid() && root != null && c.bspNode == null && !c.floating && c !in WindowsIn()
      modifies this`root, this`shape, this`lastFocused, this`scheduled
      modifies c`bspNode, c`win, NodesIn(), WindowsIn()`win
      ensures Valid() && WindowsIn() == old(WindowsIn()) + {c}
      ensures forall n :: n in NodesIn() ==> n in old(NodesIn()) || fresh(n)
      ensures Present(old(Abs()), old(lastFocused))
      ensures Abs() == Added(old(Abs()), old(GuestOf(c, now.floats)), side, now.area, now.shown)
      ensures c.bspNode != null && lastFocused == c && (c.bspNode.enabled <==> old(Visible(c)))
      ensures old(Meets(c)) ==>
                ShareArea(c.bspNode.parent, c.bspNode, old(lastFocused).bspNode, side, old(NearBox()), old(Room()))
    {
      ghost var whole := shape.value;
      ghost var near: Container := lastFocused;
      LocateViews(whole, near);
      ghost var after := Added(Abs(), GuestOf(c, now.floats), side, now.area, now.shown);
      ghost var meets, was, room := Meets(c), NearBox(), Room();
      EntersFlag(c, side);
      if meets {
        MeetsValue(c, side);
      }
      InsertBeside(c, side, Locate(whole, near), LeafOf(whole, near));
      assert Abs() == after;
      LocateViews(shape.value, c);
      if meets {
        ShareViews(shape.value, c, near, side, was, room);
      }
    }

    lemma EntersFlag(c: Container, side: Side)
      requires Valid() && c !in WindowsIn() && shape.Some?
      ensures Present(Abs(), lastFocused)
      ensures var u := Added(Abs(), GuestOf(c, now.floats), side, now.area, now.shown).entry.tree;
              c in Leaves(u) && (Enabled(LeafOf(u, c)) <==> Visible(c))
    {
      WindowsAreLeaves(shape.value);
      ApartDistinct(shape.value);
      AddedBeside(Abs(), GuestOf(c, now.floats), side, now.area, now.shown);
    }

    /** What an insertion of a visible window beside an enabled leaf looks like on the value. */
    lemma MeetsValue(c: Container, side: Side)
      requires Valid() && Meets(c) && c !in WindowsIn() && shape.Some?
      ensures Present(Abs(), lastFocused)
      ensures var u := Added(Abs(), GuestOf(c, now.floats), side, now.area, now.shown).entry.tree;
              && Shared(u, c, lastFocused, side, NearBox())
              && (Room().Some? ==> PlaceOf(u, c) == Room().value)
    {
      ghost var whole := shape.value;
      WindowsAreLeaves(whole);
      ApartDistinct(whole);
      ghost var near: Container := lastFocused;
      LocateViews(whole, near);
      ghost var k, leaf := Locate(whole, near), LeafOf(whole, near);
      if k.In? { PlugTop(k, leaf); }
      AddedDivides(Abs(), GuestOf(c, now.floats), side, now.area, now.shown);
    }

    method InsertBeside(c: Container, side: Side, ghost k: ShapeCtx, ghost s: Shape)
      requires Valid() && shape == Some(Plug(k, s)) && Hung(k, s).0 && s.Leaf? && s.c == lastFocused
      requires !c.floating && c !in WindowsIn()
      modifies this`root, this`shape, this`lastFocused, this`scheduled
      modifies c`bspNode, c`win, NodesIn(), WindowsIn()`win
      ensures Valid() && WindowsIn() == old(WindowsIn()) + {c}
      ensures forall n :: n in NodesIn() ==> n in old(NodesIn()) || fresh(n)
      ensures var g := old(GuestOf(c, now.floats));
              var out := Insert(old(ViewAround(k)), old(ViewOf(s)), g, side, now.area, now.shown);
              Abs() == State(Tiled(out.t, c), old(scheduled) || out.scheduled)
    {
      PlugSets(k, s);
      ghost var grown := InsertNear(lastFocused, c, side, k, s);
      HoldGrown(c, grown);
    }

    /** The grown tree becomes that of the tag, with the new container focused last. */
    method HoldGrown(c: Container, ghost grown: Shape)
      requires Hung(Top, grown).0 && root == NodeOf(grown) && c in Windows(grown)
      modifies this`shape, this`lastFocused
      ensures shape == Some(grown) && Valid() && Abs() == old(State(Tiled(ViewOf(grown), c), scheduled))
    {
      shape := Some(grown);
      lastFocused := c;
      assert Hung(Top, grown) == old(Hung(Top, grown));
    }

    method InsertNear(near: Container, c: Container, side: Side, ghost k: ShapeCtx, ghost s: Shape)
      returns (ghost grown: Shape)
      requires Hung(k, s).0 && s.Leaf? && s.c == near && root == NodeOf(Plug(k, s))
      requires c !in Windows(s) && c !in WindowsAround(k) && !c.floating
      modifies this`root, this`scheduled, c`bspNode, c`win
      modifies Nodes(s), Windows(s)`win, NodesAround(k), WindowsAround(k)`win
      ensures root == NodeOf(grown) && Windows(grown) == Windows(s) + WindowsAround(k) + {c}
      ensures forall n :: n in Nodes(grown) ==> n in Nodes(s) || n in NodesAround(k) || fresh(n)
      ensures var g := old(GuestOf(c, now.floats));
              var at := InsertCtx(old(ViewAround(k)), old(ViewOf(s)), side, now.area);
              var out := Enter(at, g.Node(), g.Hidden(), now.shown);
              Hung(Top, grown) == (true, Top, out.t) && scheduled == (old(scheduled) || out.scheduled)
    {
      if k.In? { PlugTop(k, s); }
      TopIn(s);
      ghost var g := GuestOf(c, now.floats);
      var sibling := near.bspNode;
      var parent, leaf := InsertNode(sibling, sibling == root, now.area, c, side, k, s);
      ghost var k' := In(side, parent, s, k);
      grown := Plug(k', Shape.Leaf(leaf, c));
      GrownSets(k, s, side, parent, leaf, c);
      PlugRoots(k', Leaf(leaf, c), s);
      EnterTree(c, leaf, k', g.Hidden(), sibling);
    }

    /**
     The parent of the new leaf becomes the root when the sibling was; a hidden container then
     enters the tree disabled, any other one enabled.
     */
    method EnterTree(c: Container, leaf: Node, ghost k: ShapeCtx, ghost hidden: bool, sibling: Node)
      requires k.In? && Hung(k, Leaf(leaf, c)).0
      requires hidden <==> c.fullscreen || c.maximized || c.minimized || c.floating || now.floats
      modifies this`root, this`scheduled
      modifies Nodes(Plug(k, Leaf(leaf, c)))`enabled, Nodes(Plug(k, Leaf(leaf, c)))`x, Nodes(Plug(k, Leaf(leaf, c)))`y
      modifies Nodes(Plug(k, Leaf(leaf, c)))`width, Nodes(Plug(k, Leaf(leaf, c)))`height
      modifies Windows(Plug(k, Leaf(leaf, c)))`win
      ensures var (v, t) := (old(ViewAround(k)), old(ViewOf(Leaf(leaf, c))));
              var out := Enter(v, t, hidden, now.shown);
              && Hung(Top, Plug(k, Leaf(leaf, c))) == (true, Top, out.t)
              && scheduled == (old(scheduled) || out.scheduled)
      ensures root == if old(root) == sibling then k.a else old(root)
    {
      Neighbours(k, Leaf(leaf, c));
      if sibling == root {
        root := leaf.parent;
      }
      assert Hung(k, Leaf(leaf, c)) == old(Hung(k, Leaf(leaf, c)));
      if c.fullscreen || c.maximized || c.minimized || c.floating || now.floats {
        NodeDisable(leaf, k, Leaf(leaf, c));
      } else {
        NodeEnable(leaf, k, Leaf(leaf, c));
      }
    }

    // ---- operations on a container of the tree ----

    method EnableContainer(c: Container)
      requires Valid() && c in WindowsIn()
      modifies this`scheduled, NodesIn(), WindowsIn()`win
      ensures Valid() && Present(old(Abs()), c) && Abs() == Act(old(Abs()), c, Show, now.shown)
    {
      ghost var whole := shape.value;
      LocateViews(whole, c);
      NodeEnable(c.bspNode, Locate(whole, c), LeafOf(whole, c));
    }

    method DisableContainer(c: Container)
      requires Valid() && c in WindowsIn()
      modifies this`scheduled, NodesIn(), WindowsIn()`win
      ensures Valid() && Present(old(Abs()), c) && Abs() == Act(old(Abs()), c, Hide, now.shown)
    {
      ghost var whole := shape.value;
      LocateViews(whole, c);
      NodeDisable(c.bspNode, Locate(whole, c), LeafOf(whole, c));
    }

    /** The node above the leaf divides the other side, and no other node does so. */
    method ToggleSplit(c: Container)
      requires Valid() && c in WindowsIn()
      modifies NodesAbove(c)`split
      modifies NodesIn()`x, NodesIn()`y, NodesIn()`width, NodesIn()`height, WindowsIn()`win
      ensures c.bspNode != null && NodesAbove(c) == Above(c.bspNode)
      ensures c.bspNode.parent != null ==> Turns(old(SplitOver(c)), SplitOver(c))
      ensures Valid() && Present(old(Abs()), c) && Abs() == Act(old(Abs()), c, Rotate, now.shown)
    {
      ghost var whole := shape.value;
      LocateViews(whole, c);
      ghost var k, s := Locate(whole, c), LeafOf(whole, c);
      PlugSets(k, s);
      HungWhole(k, s);
      assert NodesAbove(c) == Above(c.bspNode);
      ToggleNode(c.bspNode, k, s, now.shown);
    }

    method SetFactor(c: Container, fact: real)
      requires Valid() && c in WindowsIn()
      modifies this`scheduled, NodesIn()`fact
      ensures Valid() && Present(old(Abs()), c) && Abs() == Act(old(Abs()), c, Resize(fact), now.shown)
    {
      ghost var whole := shape.value;
      LocateViews(whole, c);
      if c.bspNode.parent == null {
        return;
      }
      SetParentFactor(c.bspNode.parent, fact, Locate(whole, c), LeafOf(whole, c));
      Schedule();
    }

    method FocusContainer(c: Container)
      requires Valid() && c in WindowsIn()
      modifies this`lastFocused
      ensures Valid() && Present(old(Abs()), c) && Abs() == Act(old(Abs()), c, Focus, now.shown)
    {
      WindowsAreLeaves(shape.value);
      LocateViews(shape.value, c);
      lastFocused := c;
      assert Hung(Top, shape.value) == old(Hung(Top, shape.value));
    }

    /** The container is destroyed; the tag is laid out at once if it was tiled, and is not taken for a `lost` one. */
    method CloseContainer(c: Container, lost: bool)
      requires Valid() && c in WindowsIn()
      modifies this`root, this`lastFocused, this`shape, this`scheduled, NodesIn(), WindowsIn()`win, WindowsIn()`bspNode
      ensures Valid() && c.bspNode == null
      ensures NodesIn() <= old(NodesIn()) && WindowsIn() == old(WindowsIn()) - {c}
      ensures Present(old(Abs()), c) && Abs() == Closed(Desk(old(Abs()), now), c, lost || old(c.minimized))
    {
      LocateViews(shape.value, c);
      var tiled := c.ConfigureAllowed() && !c.minimized && !c.floating;
      var relays := !lost && tiled && now.isBsp && now.shown;
      RemoveContainer(c, false);
      if relays {
        RelayoutTag();
      }
    }

    /** Layout of the whole workspace, whatever is scheduled. */
    method RelayoutTag()
      requires Valid()
      modifies NodesIn(), WindowsIn()`win
      ensures Valid() && Abs() == old(Abs()).(entry := Laid(old(Abs()).entry, now.area, now.shown))
    {
      if root != null {
        RelayoutRoot(root, shape.value, now.area, now.shown);
      }
    }

    /** The container goes to another output. */
    method LeaveTag(c: Container)
      requires Valid() && c in WindowsIn()
      modifies this`root, this`lastFocused, this`shape, this`scheduled, NodesIn(), WindowsIn()`win, WindowsIn()`bspNode
      ensures Valid() && c.bspNode == null
      ensures NodesIn() <= old(NodesIn()) && WindowsIn() == old(WindowsIn()) - {c}
      ensures Present(old(Abs()), c) && Abs() == Departed(Desk(old(Abs()), now), c)
    {
      RemoveContainer(c, false);
      if now.isCurrent {
        Schedule();
      }
    }

    /** A cursor drags the line of the n-th node above the container. */
    method DragLine(c: Container, n: nat, fact: real, passed: bool)
      requires Valid() && c in WindowsIn()
      modifies this`scheduled, NodesIn()`fact
      ensures Valid() && Present(old(Abs()), c) && Abs() == Tugged(Desk(old(Abs()), now), c, n, fact, passed)
    {
      ghost var whole := shape.value;
      LocateViews(whole, c);
      DragNode(c.bspNode, n, fact, Locate(whole, c), LeafOf(whole, c));
      if passed && now.isCurrent {
        Schedule();
      }
    }

    method DragNode(node: Node, n: nat, fact: real, ghost k: ShapeCtx, ghost s: Shape)
      requires Hung(k, s).0 && NodeOf(s) == node
      modifies Nodes(Plug(k, s))`fact
      ensures Hung(Top, Plug(k, s)) == (true, Top, Plug(Dragged(old(ViewAround(k)), n, Clamp(fact)), old(ViewOf(s))))
      decreases k
    {
      HungWhole(k, s);
      if node.parent == null {
        return;
      }
      if n == 0 {
        SetParentFactor(node.parent, fact, k, s);
      } else {
        HungUp(k, s);
        DragNode(node.parent, n - 1, fact, k.up, Join(k.side, k.a, s, k.sib));
      }
    }

    /** Layout of the whole workspace, as the idle callback asks for it. */
    method FlushLayout()
      requires Valid()
      modifies this`scheduled, NodesIn(), WindowsIn()`win
      ensures Valid() && Abs() == Done(Desk(old(Abs()), now), Flush)
    {
      if root != null && now.isBsp && now.shown {
        RelayoutRoot(root, shape.value, now.area, now.shown);
      }
      scheduled := false;
      if shape.Some? { assert Hung(Top, shape.value) == Hung(Top, shape.value); }
    }

    /** The state of a container of the tree changes, and a layout is asked for. */
    method MarkContainer(c: Container, fullscreen: bool, maximized: bool, floating: bool)
      requires Valid() && c in WindowsIn()
      modifies this`scheduled, c`fullscreen, c`maximized, c`floating
      ensures Valid() && Present(old(Abs()), c)
      ensures (c.fullscreen, c.maximized, c.floating) == (fullscreen, maximized, floating)
      ensures Abs() == Act(old(Abs()), c, Mark(!fullscreen && !maximized, floating), now.shown)
    {
      ghost var whole := shape.value;
      LocateViews(whole, c);
      MarkMember(c, fullscreen, maximized, floating, Locate(whole, c), LeafOf(whole, c));
      Schedule();
    }

    /** Nothing of this is in the tree. */
    method AlterOutside(c: Container, fullscreen: bool, maximized: bool, floating: bool)
      requires Valid() && c !in WindowsIn()
      modifies c`fullscreen, c`maximized, c`floating
      ensures Valid() && Abs() == old(Abs())
      ensures (c.fullscreen, c.maximized, c.floating) == (fullscreen, maximized, floating)
    {
      c.fullscreen, c.maximized, c.floating := fullscreen, maximized, floating;
      if shape.Some? { assert Hung(Top, shape.value) == old(Hung(Top, shape.value)); }
    }

    method Minimize(c: Container, minimized: bool)
      requires Valid()
      modifies c`minimized
      ensures c.minimized == minimized && Valid() && Abs() == old(Abs())
    {
      c.minimized := minimized;
      if shape.Some? { assert Hung(Top, shape.value) == old(Hung(Top, shape.value)); }
    }

    method MarkMember(c: Container, fullscreen: bool, maximized: bool, floating: bool,
                      ghost k: ShapeCtx, ghost s: Shape)
      requires Valid() && shape == Some(Plug(k, s)) && Hung(k, s).0 && s.Leaf? && s.c == c
      modifies c`fullscreen, c`maximized, c`floating
      ensures Valid()
      ensures (c.fullscreen, c.maximized, c.floating) == (fullscreen, maximized, floating)
      ensures var t := Marked(old(ViewOf(s)), !fullscreen && !maximized, floating);
              Abs() == State(Tiled(Plug(old(ViewAround(k)), t), lastFocused), scheduled)
    {
      MarkLeaf(c, fullscreen, maximized, floating, k, s);
    }

    /** The setting of the tag changes, and a layout is asked for unless requests are being served. */
    method ChangeSetting(to: Setting, serving: bool)
      requires Valid()
      modifies this`now, this`scheduled
      ensures Valid() && now == to
      ensures var (was, modes) := (old(now), old((now.isBsp, now.floats)));
              var changed := if to.isCurrent then to != was else (to.isBsp, to.floats) != modes;
              scheduled == (old(scheduled) || (changed && !serving))
      ensures Abs() == old(Abs()).(pending := old(scheduled) || (!serving && old(now).Asks(to)))
    {
      var asks := !serving && now.Asks(to);
      Adopt(to);
      if asks {
        Schedule();
      }
    }

    method Adopt(to: Setting)
      requires Valid()
      modifies this`now
      ensures Valid() && now == to && Abs() == old(Abs())
    {
      now := to;
      if shape.Some? { assert Hung(Top, shape.value) == old(Hung(Top, shape.value)); }
    }

    method Schedule()
      requires Valid()
      modifies this`scheduled
      ensures Valid() && Abs() == old(Abs()).(pending := true)
    {
      scheduled := true;
      if shape.Some? { assert Hung(Top, shape.value) == old(Hung(Top, shape.value)); }
    }

    /** A container with a node is in the tree, one without is not. */
    lemma NodeTells(c: Container)
      requires Valid() && (c.bspNode != null ==> c in WindowsIn())
      ensures c.bspNode != null <==> c in WindowsIn()
      ensures Present(Abs(), c) <==> c in WindowsIn()
    {
      if shape.Some? {
        HaveNodes(shape.value, null);
        WindowsAreLeaves(shape.value);
      }
    }
  }
}

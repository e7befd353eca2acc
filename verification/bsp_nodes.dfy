/** The pointer operations below the BSP entry points: on linked nodes, in place. */
module BspNodes {
  import opened Lists
  import opened Geometry
  import opened BspTree
  import opened BspLayout
  import opened BspOps
  import opened BspRuns
  import opened BspFence
  import opened BspHeap

  /** Everything a shape names exists. */
  lemma {:induction false} Exist(s: Shape)
    ensures forall m :: m in Nodes(s) ==> allocated(m)
    ensures forall c :: c in Windows(s) ==> allocated(c)
  {
    match s
    case Leaf(_, _) =>
    case Inner(_, l, r) =>
      Exist(l);
      Exist(r);
  }

  lemma Parts(s: Shape)
    requires s.Inner? && Apart(s)
    ensures Nodes(s) == {s.a} + Nodes(s.l) + Nodes(s.r) && Windows(s) == Windows(s.l) + Windows(s.r)
    ensures NodeOf(s.l) in Nodes(s.l) && NodeOf(s.r) in Nodes(s.r)
  {
  }

  /** All that is known of a subtree, at once. */
  ghost function Tied(s: Shape, above: Node?): (bool, View<Container>)
    reads Nodes(s), Windows(s)
  {
    (Linked(s, above), ViewOf(s))
  }

  // ---- layout ----

  function MoveTo(t: View<Container>, b: Box): View<Container> {
    match t
    case Leaf(p, c) => Leaf(p.(box := b), c)
    case Inner(a, l, r) => Inner(a.(box := b), l, r)
  }

  lemma PlaceMoved(t: View<Container>, b: Box, shown: bool)
    ensures Place(MoveTo(t, b), b, shown) == Place(t, b, shown)
    ensures Enabled(MoveTo(t, b)) == Enabled(t)
  {
  }

  method LeafConfigure(n: Node, c: Container, b: Box, shown: bool)
    modifies n`x, n`y, n`width, n`height, c`win
    ensures c.ConfigureAllowed() ==> n.Area() == b
    ensures !c.ConfigureAllowed() ==> n.Area() == old(n.Area())
    ensures c.win == if c.ConfigureAllowed() && !c.floating && shown then b else old(c.win)
  {
    if !c.ConfigureAllowed() {
      return;
    }
    if !c.floating && shown {
      c.win := b;
    }
    n.x, n.y := b.x, b.y;
    n.width, n.height := b.width, b.height;
  }

  /** The boxes of both children of a node. */
  method ChildAreas(parent: Node, left: Node, right: Node) returns (lb: Box, rb: Box)
    requires parent.split != SplitAuto
    ensures (lb, rb) == Shares(parent.Area(), CutOf(parent).orient, parent.fact, left.enabled, right.enabled)
  {
    var x, y, width, height := parent.x, parent.y, parent.width, parent.height;
    lb := Box(x, y, 0, 0);
    if parent.split == SplitHorizontal {
      lb := lb.(width := Scale(width, parent.fact), height := height);
      rb := Box(lb.x + lb.width, lb.y, width - lb.width, height);
    } else {
      lb := lb.(width := width, height := Scale(height, parent.fact));
      rb := Box(lb.x, lb.y + lb.height, width, height - lb.height);
    }
    if !right.enabled {
      lb := lb.(width := width, height := height);
    }
    if !left.enabled {
      rb := Box(x, y, width, height);
    }
  }

  method SetArea(n: Node, b: Box, ghost s: Shape, ghost above: Node?)
    requires NodeOf(s) == n && Apart(s) && Tied(s, above).0
    modifies n`x, n`y, n`width, n`height
    ensures n.Area() == b && Tied(s, above) == (true, MoveTo(old(ViewOf(s)), b))
  {
    n.x, n.y, n.width, n.height := b.x, b.y, b.width, b.height;
    if s.Inner? {
      Parts(s);
      assert Tied(s.l, n) == old(Tied(s.l, n));
      assert Tied(s.r, n) == old(Tied(s.r, n));
    }
  }

  /** Gives the children of the node at the top of `s` their boxes, and moves nothing else. */
  method DivideBelow(parent: Node, ghost s: Shape)
    requires s.Inner? && s.a == parent && Apart(s)
    requires Tied(s.l, parent).0 && Tied(s.r, parent).0
    requires parent.left == NodeOf(s.l) && parent.right == NodeOf(s.r) && parent.split != SplitAuto
    modifies {NodeOf(s.l), NodeOf(s.r)}`x, {NodeOf(s.l), NodeOf(s.r)}`y
    modifies {NodeOf(s.l), NodeOf(s.r)}`width, {NodeOf(s.l), NodeOf(s.r)}`height
    ensures var (orient, enabled) := (CutOf(parent).orient, (parent.left.enabled, parent.right.enabled));
            var (lb, rb) := Shares(parent.Area(), orient, parent.fact, enabled.0, enabled.1);
            && NodeOf(s.l).Area() == lb && Tied(s.l, parent) == (true, MoveTo(old(ViewOf(s.l)), lb))
            && NodeOf(s.r).Area() == rb && Tied(s.r, parent) == (true, MoveTo(old(ViewOf(s.r)), rb))
  {
    Exist(s);
    Parts(s);
    var lb, rb := ChildAreas(parent, parent.left, parent.right);
    SetArea(parent.left, lb, s.l, parent);
    assert Tied(s.r, parent) == old(Tied(s.r, parent));
    label Half:
    SetArea(parent.right, rb, s.r, parent);
    assert Tied(s.l, parent) == old@Half(Tied(s.l, parent));
  }

  method UpdateNode(parent: Node, ghost s: Shape, ghost above: Node?, shown: bool)
    requires s.Inner? && s.a == parent && Apart(s) && Tied(s, above).0
    modifies Nodes(s)`x, Nodes(s)`y, Nodes(s)`width, Nodes(s)`height, Windows(s)`win
    ensures Tied(s, above) == (true, Update(old(ViewOf(s)), shown))
    decreases s, 1
  {
    Parts(s);
    UpdateBelow(parent, s, shown);
  }

  method UpdateBelow(parent: Node, ghost s: Shape, shown: bool)
    requires s.Inner? && s.a == parent && Apart(s)
    requires Tied(s.l, parent).0 && Tied(s.r, parent).0
    requires parent.left == NodeOf(s.l) && parent.right == NodeOf(s.r) && parent.split != SplitAuto
    modifies Nodes(s.l)`x, Nodes(s.l)`y, Nodes(s.l)`width, Nodes(s.l)`height, Windows(s.l)`win
    modifies Nodes(s.r)`x, Nodes(s.r)`y, Nodes(s.r)`width, Nodes(s.r)`height, Windows(s.r)`win
    ensures CutOf(parent) == old(CutOf(parent))
    ensures var (ul, ur) := (old(ViewOf(s.l)), old(ViewOf(s.r)));
            var (lb, rb) := Shares(parent.Area(), CutOf(parent).orient, parent.fact, Enabled(ul), Enabled(ur));
            && Tied(s.l, parent) == (true, Place(ul, lb, shown))
            && Tied(s.r, parent) == (true, Place(ur, rb, shown))
    decreases s, 0, 1
  {
    Exist(s);
    Parts(s);
    ghost var ul, ur, cut := ViewOf(s.l), ViewOf(s.r), CutOf(parent);
    ghost var (lb, rb) := Shares(cut.box, cut.orient, cut.fact, Enabled(ul), Enabled(ur));
    assert parent.left.enabled == Enabled(ul) && parent.right.enabled == Enabled(ur);
    DivideBelow(parent, s);
    PlaceMoved(ul, lb, shown);
    PlaceMoved(ur, rb, shown);
    UpdateChildren(parent, s, shown);
  }

  /** Continues the layout below both children. */
  method UpdateChildren(parent: Node, ghost s: Shape, shown: bool)
    requires s.Inner? && s.a == parent && Apart(s)
    requires Tied(s.l, parent).0 && Tied(s.r, parent).0
    requires parent.left == NodeOf(s.l) && parent.right == NodeOf(s.r)
    modifies Nodes(s.l)`x, Nodes(s.l)`y, Nodes(s.l)`width, Nodes(s.l)`height, Windows(s.l)`win
    modifies Nodes(s.r)`x, Nodes(s.r)`y, Nodes(s.r)`width, Nodes(s.r)`height, Windows(s.r)`win
    ensures Tied(s.l, parent) == (true, Place(old(ViewOf(s.l)), old(NodeOf(s.l).Area()), shown))
    ensures Tied(s.r, parent) == (true, Place(old(ViewOf(s.r)), old(NodeOf(s.r).Area()), shown))
    decreases s, 0, 0
  {
    Exist(s);
    Parts(s);
    UpdateChild(parent.left, s.l, parent, shown);
    assert Tied(s.r, parent) == old(Tied(s.r, parent));
    label Half:
    UpdateChild(parent.right, s.r, parent, shown);
    assert Tied(s.l, parent) == old@Half(Tied(s.l, parent));
  }

  /** Continues the layout below a child that has been given its box. */
  method UpdateChild(n: Node, ghost s: Shape, ghost above: Node?, shown: bool)
    requires NodeOf(s) == n && Apart(s) && Tied(s, above).0
    modifies Nodes(s)`x, Nodes(s)`y, Nodes(s)`width, Nodes(s)`height, Windows(s)`win
    ensures Tied(s, above) == (true, Place(old(ViewOf(s)), old(n.Area()), shown))
    decreases s, 2
  {
    if n.enabled {
      if n.kind == Terminal {
        LeafConfigure(n, n.container, n.Area(), shown);
      } else {
        UpdateNode(n, s, above, shown);
      }
    }
  }

  // ---- enable, disable ----

  /** All that is known of a subtree and its surroundings, at once. */
  ghost function Hung(k: ShapeCtx, s: Shape): (bool, ViewCtx<Container>, View<Container>)
    reads Nodes(s), Windows(s), NodesAround(k), WindowsAround(k)
  {
    (Hangs(k, s), ViewAround(k), ViewOf(s))
  }

  ghost function TiedAround(k: ShapeCtx, hole: Node): (bool, ViewCtx<Container>)
    reads NodesAround(k), WindowsAround(k)
  {
    (LinkedAround(k, hole), ViewAround(k))
  }

  lemma TopIn(s: Shape)
    ensures NodeOf(s) in Nodes(s)
  {
  }

  lemma {:induction false} ExistAround(k: ShapeCtx)
    ensures forall m :: m in NodesAround(k) ==> allocated(m)
    ensures forall c :: c in WindowsAround(k) ==> allocated(c)
  {
    match k
    case Top =>
    case In(_, _, sib, up) =>
      Exist(sib);
      ExistAround(up);
  }

  lemma HungUp(k: ShapeCtx, s: Shape)
    requires k.In? && Hung(k, s).0
    ensures Hung(k.up, Join(k.side, k.a, s, k.sib))
         == (true, ViewAround(k.up), Join(k.side, CutOf(k.a), ViewOf(s), ViewOf(k.sib)))
  {
    HangsUp(k, s);
  }

  lemma HungWhole(k: ShapeCtx, s: Shape)
    requires Hung(k, s).0
    ensures Hung(Top, Plug(k, s)) == (true, Top, Plug(ViewAround(k), ViewOf(s)))
    ensures Apart(Plug(k, s)) && Tied(Plug(k, s), null).0
  {
    PlugHangs(k, s);
  }

  /** The flag of the node at the top, set in place. */
  method SetFlag(n: Node, ghost k: ShapeCtx, ghost s: Shape, enabled: bool)
    requires NodeOf(s) == n && Hung(k, s).0
    modifies n`enabled
    ensures Hung(k, s) == (true, old(ViewAround(k)), SetEnabled(old(ViewOf(s)), enabled))
  {
    TopIn(s);
    n.enabled := enabled;
    assert TiedAround(k, n) == old(TiedAround(k, n));
    if s.Inner? {
      Parts(s);
      assert Tied(s.l, n) == old(Tied(s.l, n));
      assert Tied(s.r, n) == old(Tied(s.r, n));
    }
  }

  method EnableClimb(n: Node, ghost k: ShapeCtx, ghost s: Shape) returns (root: Node)
    requires Hung(k, s).0 && NodeOf(s) == n
    modifies n`enabled, NodesAround(k)`enabled
    ensures root == NodeOf(Plug(k, s))
    ensures Hung(Top, Plug(k, s)) == (true, Top, EnableUp(old(ViewAround(k)), old(ViewOf(s))))
    decreases k
  {
    SetFlag(n, k, s, true);
    if n.parent == null {
      return n;
    }
    HungUp(k, s);
    root := EnableClimb(n.parent, k.up, Join(k.side, k.a, s, k.sib));
  }

  /** What remains to be done where the climb of a disable has stopped. */
  function Finish<C>(k: ViewCtx<C>, t: View<C>, shown: bool): Outcome<C> {
    match k
    case Top => Outcome(t, t.Leaf?)
    case In(side, a, sib, up) =>
      var parent := Join(side, a, t, sib);
      if t.Inner? then Outcome(Plug(up, Update(parent, shown)), false)
      else Outcome(Plug(up, parent), true)
  }

  method DisableClimb(n: Node, ghost k: ShapeCtx, ghost s: Shape)
    returns (last: Node, ghost k': ShapeCtx, ghost s': Shape)
    requires Hung(k, s).0 && NodeOf(s) == n
    modifies n`enabled, NodesAround(k)`enabled
    ensures Plug(k', s') == Plug(k, s) && NodeOf(s') == last && Hung(k', s').0
    ensures forall shown ::
              Disable(old(ViewAround(k)), old(ViewOf(s)), shown) == Finish(ViewAround(k'), ViewOf(s'), shown)
    decreases k
  {
    SetFlag(n, k, s, false);
    var parent := n.parent;
    if parent == null {
      return n, k, s;
    }
    assert Enabled(ViewOf(k.sib)) == NodeOf(k.sib).enabled;
    if !parent.left.enabled && !parent.right.enabled {
      HungUp(k, s);
      last, k', s' := DisableClimb(parent, k.up, Join(k.side, k.a, s, k.sib));
    } else {
      return n, k, s;
    }
  }

  // ---- pointer surgery ----

  datatype Position = PosLeft | PosRight | PosRoot

  function PositionOf(side: Side): Position {
    if side.Left? then PosLeft else PosRight
  }

  /** Unhooks a node from its parent and hooks it below another one. */
  method Reparent(parent: Node?, n: Node, pos: Position)
    requires pos.PosRoot? <==> parent == null
    requires n.parent != null && n.parent == parent ==> parent.left != n && parent.right != n
    modifies n`parent
    modifies (if n.parent != null then {n.parent} else {})`left, (if n.parent != null then {n.parent} else {})`right
    modifies (if parent != null then {parent} else {})`left, (if parent != null then {parent} else {})`right
    ensures n.parent == parent
    ensures parent != null ==>
              && parent.left == (if pos.PosLeft? then n else old(parent.left))
              && parent.right == (if pos.PosRight? then n else old(parent.right))
    ensures var was := old(n.parent);
            was != null && was != parent ==>
              && was.left == (if old(was.left) == n then null else old(was.left))
              && was.right == (if old(was.left) != n && old(was.right) == n then null else old(was.right))
  {
    if n.parent != null {
      if n.parent.left == n {
        n.parent.left := null;
      } else if n.parent.right == n {
        n.parent.right := null;
      }
    }
    match pos {
      case PosLeft => parent.left := n;
      case PosRight => parent.right := n;
      case PosRoot =>
    }
    n.parent := parent;
  }

  lemma PartsAround(k: ShapeCtx)
    requires k.In? && ApartAround(k)
    ensures NodesAround(k) == {k.a} + Nodes(k.sib) + NodesAround(k.up)
    ensures WindowsAround(k) == Windows(k.sib) + WindowsAround(k.up)
    ensures k.a !in Nodes(k.sib) && k.a !in NodesAround(k.up) && Nodes(k.sib) !! NodesAround(k.up)
    ensures NodeOf(k.sib) in Nodes(k.sib) && ApartAround(k.up)
  {
  }

  twostate lemma {:induction false} Existed(s: Shape)
    ensures forall m :: m in Nodes(s) ==> old(allocated(m))
    ensures forall c :: c in Windows(s) ==> old(allocated(c))
  {
    match s
    case Leaf(_, _) =>
    case Inner(_, l, r) =>
      Existed(l);
      Existed(r);
  }

  twostate lemma {:induction false} ExistedAround(k: ShapeCtx)
    ensures forall m :: m in NodesAround(k) ==> old(allocated(m))
    ensures forall c :: c in WindowsAround(k) ==> old(allocated(c))
  {
    match k
    case Top =>
    case In(_, _, sib, up) =>
      Existed(sib);
      ExistedAround(up);
  }

  twostate predicate SameButHooks(n: Node)
    reads n
  {
    && n.kind == old(n.kind) && n.container == old(n.container) && n.enabled == old(n.enabled)
    && n.split == old(n.split) && n.fact == old(n.fact)
    && n.x == old(n.x) && n.y == old(n.y) && n.width == old(n.width) && n.height == old(n.height)
  }

  /** Of a subtree, only the parent pointer at the top may have changed. */
  twostate predicate OnlyParent(s: Shape)
    reads Nodes(s), Windows(s)
  {
    && (forall m: Node :: m in Nodes(s) && m != NodeOf(s) && old(allocated(m)) ==> unchanged(m))
    && (old(allocated(NodeOf(s))) ==>
          && SameButHooks(NodeOf(s))
          && NodeOf(s).left == old(NodeOf(s).left) && NodeOf(s).right == old(NodeOf(s).right))
    && (forall c: Container :: c in Windows(s) && old(allocated(c)) ==> unchanged(c))
  }

  twostate lemma Rehung(s: Shape)
    requires Apart(s) && old(Tied(s, NodeOf(s).parent)).0 && OnlyParent(s)
    ensures Tied(s, NodeOf(s).parent) == (true, old(ViewOf(s)))
  {
    Existed(s);
    TopIn(s);
    match s
    case Leaf(_, c) => assert c in Windows(s);
    case Inner(n, l, r) =>
      Parts(s);
      assert Tied(l, n) == old(Tied(l, n));
      assert Tied(r, n) == old(Tied(r, n));
  }

  ghost function HoleOf(k: ShapeCtx): Node?
    requires k.In?
    reads k.a
  {
    if k.side.Left? then k.a.left else k.a.right
  }

  /** Of the surroundings of a hole, only the pointer to the hole may have changed. */
  twostate predicate OnlyHole(k: ShapeCtx)
    requires k.In?
    reads NodesAround(k), WindowsAround(k)
  {
    && (forall m: Node :: m in NodesAround(k) && m != k.a && old(allocated(m)) ==> unchanged(m))
    && SameButHooks(k.a) && k.a.parent == old(k.a.parent)
    && (if k.side.Left? then k.a.right == old(k.a.right) else k.a.left == old(k.a.left))
    && (forall c: Container :: c in WindowsAround(k) && old(allocated(c)) ==> unchanged(c))
  }

  twostate lemma Refilled(k: ShapeCtx)
    requires k.In? && ApartAround(k) && HoleOf(k) != null && OnlyHole(k)
    requires old(HoleOf(k) != null && TiedAround(k, HoleOf(k)).0)
    ensures TiedAround(k, HoleOf(k)) == (true, old(ViewAround(k)))
  {
    ExistedAround(k);
    PartsAround(k);
    assert Tied(k.sib, k.a) == old(Tied(k.sib, k.a));
    assert TiedAround(k.up, k.a) == old(TiedAround(k.up, k.a));
  }

  lemma HungFrom(k: ShapeCtx, s: Shape)
    requires Apart(s) && ApartAround(k) && Nodes(s) !! NodesAround(k) && Windows(s) !! WindowsAround(k)
    requires Tied(s, ParentOf(k)).0 && TiedAround(k, NodeOf(s)).0
    ensures Hung(k, s).0
  {
  }

  /** What hanging in the hole of `k` says about the nodes next to it. */
  lemma Neighbours(k: ShapeCtx, s: Shape)
    requires k.In? && Hung(k, s).0
    ensures HoleOf(k) == NodeOf(s) && k.a.parent == ParentOf(k.up) && k.a.kind == Internal
    ensures Tied(k.sib, k.a).0 && TiedAround(k.up, k.a).0
    ensures (if k.side.Left? then k.a.right else k.a.left) == NodeOf(k.sib)
    ensures k.up.In? ==> HoleOf(k.up) == k.a
    ensures ViewAround(k) == In(k.side, CutOf(k.a), ViewOf(k.sib), ViewAround(k.up))
  {
    HungUp(k, s);
  }

  // ---- removal ----

  /** Moves a subtree from below a node that is given up into a hole of other surroundings. */
  method Rehang(parent: Node, n: Node, pos: Position, ghost k: ShapeCtx, ghost s: Shape)
    requires k.In? && k.a == parent && pos == PositionOf(k.side) && NodeOf(s) == n
    requires Apart(s) && ApartAround(k) && Nodes(s) !! NodesAround(k) && Windows(s) !! WindowsAround(k)
    requires HoleOf(k) != null && TiedAround(k, HoleOf(k)).0
    requires n.parent != null && n.parent !in Nodes(s) && n.parent !in NodesAround(k) && Tied(s, n.parent).0
    modifies n`parent, n.parent`left, n.parent`right, parent`left, parent`right
    ensures Hung(k, s) == (true, old(ViewAround(k)), old(ViewOf(s)))
    ensures HoleOf(k) == n
  {
    Exist(s);
    ExistAround(k);
    TopIn(s);
    PartsAround(k);
    Reparent(parent, n, pos);
    Refilled(k);
    Rehung(s);
    HungFrom(k, s);
  }

  /** The sibling takes the place of the parent below the grandparent, or at the root. */
  method Promote(parent: Node, sibling: Node, ghost k: ShapeCtx, ghost s: Shape)
    requires Hung(k, s).0
    requires k.In? && k.a == parent && NodeOf(k.sib) == sibling
    modifies sibling`parent, parent`left, parent`right, NodesAround(k.up)`left, NodesAround(k.up)`right
    ensures Hung(k.up, k.sib) == (true, old(ViewAround(k.up)), old(ViewOf(k.sib)))
  {
    PartsAround(k);
    Neighbours(k, s);
    var grandparent := parent.parent;
    if grandparent == null {
      Exist(k.sib);
      Reparent(null, sibling, PosRoot);
      Rehung(k.sib);
      HungFrom(k.up, k.sib);
    } else {
      PartsAround(k.up);
      HungUp(k, s);
      Neighbours(k.up, Join(k.side, k.a, s, k.sib));
      Rehang(grandparent, sibling, if grandparent.left == parent then PosLeft else PosRight, k.up, k.sib);
    }
  }

  /** Gives up a leaf and its parent. */
  method Detach(n: Node, parent: Node, sibling: Node, ghost k: ShapeCtx, ghost s: Shape)
    requires Hung(k, s).0 && s.Leaf? && s.p == n
    requires k.In? && k.a == parent && NodeOf(k.sib) == sibling
    modifies n`parent, sibling`parent, parent`left, parent`right, NodesAround(k.up)`left, NodesAround(k.up)`right
    modifies s.c`bspNode
    ensures Hung(k.up, k.sib) == (true, old(ViewAround(k.up)), old(ViewOf(k.sib)))
    ensures s.c.bspNode == null
  {
    PartsAround(k);
    TopIn(s);
    var c := n.container;
    Promote(parent, sibling, k, s);
    LetGo(n, c, k.up, k.sib);
  }

  /** A leaf outside the tree is given up. */
  method LetGo(n: Node, c: Container, ghost k: ShapeCtx, ghost s: Shape)
    requires Hung(k, s).0 && n !in Nodes(s) && n !in NodesAround(k) && c !in Windows(s) && c !in WindowsAround(k)
    requires n.parent != null && n.parent !in Nodes(s) && n.parent !in NodesAround(k)
    modifies n`parent, n.parent`left, n.parent`right, c`bspNode
    ensures Hung(k, s) == old(Hung(k, s)) && c.bspNode == null
  {
    Exist(s);
    ExistAround(k);
    Reparent(null, n, PosRoot);
    c.bspNode := null;
    assert Hung(k, s) == old(Hung(k, s));
  }

  method LeafGet(n: Node, toLeft: bool, ghost s: Shape, ghost above: Node?) returns (r: Node)
    requires NodeOf(s) == n && Tied(s, above).0
    ensures r.container == Outermost(s, if toLeft then Left else Right) && r.container in Windows(s)
    decreases s
  {
    if n.kind == Terminal {
      return n;
    }
    if toLeft {
      r := LeafGet(n.left, true, s.l, n);
    } else {
      r := LeafGet(n.right, false, s.r, n);
    }
  }

  method ClosestLeaf(n: Node, ghost k: ShapeCtx, ghost s: Shape) returns (r: Node)
    requires k.In? && Hung(k, s).0 && NodeOf(s) == n
    ensures r.container == Outermost(k.sib, k.side) && r.container in Windows(k.sib)
  {
    Neighbours(k, s);
    PartsAround(k);
    TopIn(s);
    var parent := n.parent;
    if parent.right == n {
      r := LeafGet(parent.left, false, k.sib, parent);
    } else {
      r := LeafGet(parent.right, true, k.sib, parent);
    }
  }

  lemma {:induction false} PlugTop(k: ShapeCtx, s: Shape)
    requires k.In?
    ensures NodeOf(Plug(k, s)) in NodesAround(k) && Plug(k, s).Inner?
    ensures k.up.Top? ==> NodeOf(Plug(k, s)) == k.a
    ensures k.up.In? ==> NodeOf(Plug(k, s)) in NodesAround(k.up)
    decreases k
  {
    if k.up.In? { PlugTop(k.up, Join(k.side, k.a, s, k.sib)); }
  }

  lemma {:induction false} OutermostOfView(s: Shape, side: Side)
    ensures Outermost(ViewOf(s), side) == Outermost(s, side) && Outermost(s, side) in Windows(s)
  {
    match s
    case Leaf(_, _) =>
    case Inner(_, l, r) => OutermostOfView(if side.Left? then l else r, side);
  }

  lemma OutermostView(k: ShapeCtx)
    ensures k.In? ==> Heir(ViewAround(k)) == Outermost(k.sib, k.side) && Outermost(k.sib, k.side) in Windows(k.sib)
  {
    if k.In? { OutermostOfView(k.sib, k.side); }
  }

  /** Without a new root, the node at the top stays. */
  lemma {:induction false} PlugRoot(k: ShapeCtx, s: Shape)
    requires k.In?
    ensures k.up.In? ==> NodeOf(Plug(k.up, k.sib)) == NodeOf(Plug(k, s))
  {
    if k.up.In? { SameTop(k.up, k.sib, Join(k.side, k.a, s, k.sib)); }
  }

  lemma {:induction false} SameTop(k: ShapeCtx, s: Shape, u: Shape)
    requires k.In?
    ensures NodeOf(Plug(k, s)) == NodeOf(Plug(k, u))
    decreases k
  {
    if k.up.In? { SameTop(k.up, Join(k.side, k.a, s, k.sib), Join(k.side, k.a, u, k.sib)); }
  }

  /** Frees a tree: its containers forget their nodes. */
  method DestroyNode(n: Node, ghost s: Shape, ghost above: Node?)
    requires NodeOf(s) == n && Apart(s) && Tied(s, above).0
    modifies Windows(s)`bspNode
    ensures forall c :: c in Windows(s) ==> c.bspNode == null
    decreases s
  {
    Exist(s);
    if s.Inner? { Parts(s); }
    if n.left != null {
      DestroyNode(n.left, s.l, n);
      assert Tied(s.r, n) == old(Tied(s.r, n));
    }
    if n.right != null {
      DestroyNode(n.right, s.r, n);
    }
    if n.container != null {
      n.container.bspNode := null;
    }
  }

  /** Layout below a node somewhere inside a tree. */
  method UpdateInside(n: Node, ghost k: ShapeCtx, ghost s: Shape, shown: bool)
    requires Hung(k, s).0 && s.Inner? && s.a == n
    modifies Nodes(s)`x, Nodes(s)`y, Nodes(s)`width, Nodes(s)`height, Windows(s)`win
    ensures Hung(Top, Plug(k, s)) == (true, Top, Plug(old(ViewAround(k)), Update(old(ViewOf(s)), shown)))
  {
    ExistAround(k);
    UpdateNode(n, s, ParentOf(k), shown);
    assert TiedAround(k, n) == old(TiedAround(k, n));
    HungWhole(k, s);
  }

  // ---- insertion ----

  /** Hooks a new node into a hole, in place of what hangs there. */
  method Hook(parent: Node, n: Node, pos: Position, ghost k: ShapeCtx)
    requires k.In? && k.a == parent && pos == PositionOf(k.side) && ApartAround(k)
    requires HoleOf(k) != null && TiedAround(k, HoleOf(k)).0
    requires n.parent == null && n !in NodesAround(k)
    modifies n`parent, parent`left, parent`right
    ensures n.parent == parent && TiedAround(k, n) == (true, old(ViewAround(k)))
  {
    ExistAround(k);
    PartsAround(k);
    Reparent(parent, n, pos);
    Refilled(k);
  }

  /** The node over the insertion sibling, in its place below the grandparent or at the root. */
  method InternalCreate(sibling: Node, b: Box, split: SplitType, ghost k: ShapeCtx, ghost s: Shape)
    returns (n: Node)
    requires Hung(k, s).0 && NodeOf(s) == sibling && split != SplitAuto
    modifies NodesAround(k)`left, NodesAround(k)`right
    ensures fresh(n) && n.kind == Internal && n.container == null && n.left == null && n.right == null
    ensures n.parent == ParentOf(k) && n.split == split
    ensures CutOf(n) == Cut(true, b, if split == SplitVertical then Vertical else Horizontal, 0.5)
    ensures TiedAround(k, n) == (true, old(ViewAround(k)))
    ensures Tied(s, ParentOf(k)) == old(Tied(s, ParentOf(k)))
  {
    Exist(s);
    ExistAround(k);
    n := new Node.NewInternal(b, split);
    assert Hung(k, s) == old(Hung(k, s));
    TakePlace(n, sibling, k, s);
  }

  /** A new node is hooked where the sibling hangs, which still points up as before. */
  method TakePlace(n: Node, sibling: Node, ghost k: ShapeCtx, ghost s: Shape)
    requires Hung(k, s).0 && NodeOf(s) == sibling
    requires n.parent == null && n !in NodesAround(k) && n !in Nodes(s)
    modifies n`parent, NodesAround(k)`left, NodesAround(k)`right
    ensures n.parent == ParentOf(k) && TiedAround(k, n) == (true, old(ViewAround(k)))
    ensures Tied(s, ParentOf(k)) == old(Tied(s, ParentOf(k)))
  {
    Exist(s);
    var grandparent := sibling.parent;
    if grandparent != null {
      PartsAround(k);
      HookedSide(k, s);
      Hook(grandparent, n, if grandparent.left == sibling then PosLeft else PosRight, k);
    }
    assert Tied(s, ParentOf(k)) == old(Tied(s, ParentOf(k)));
  }

  lemma HookedSide(k: ShapeCtx, s: Shape)
    requires k.In? && Hung(k, s).0
    ensures HoleOf(k) == NodeOf(s) && (k.a.left == NodeOf(s) <==> k.side.Left?)
  {
    TopIn(s);
    TopIn(k.sib);
    Neighbours(k, s);
    PartsAround(k);
  }

  /** Moves the sibling below the new node, whose place in the tree stays the same. */
  method MoveSibling(parent: Node, sibling: Node, pos: Position, ghost k: ShapeCtx, ghost s: Shape)
    requires s.Leaf? && s.p == sibling && Tied(s, ParentOf(k)).0
    requires ApartAround(k) && Nodes(s) !! NodesAround(k) && Windows(s) !! WindowsAround(k)
    requires parent !in NodesAround(k) && parent != sibling && !pos.PosRoot?
    requires TiedAround(k, parent).0
    modifies sibling`parent, parent`left, parent`right, NodesAround(k)`left, NodesAround(k)`right
    ensures sibling.parent == parent
    ensures parent.left == (if pos.PosLeft? then sibling else old(parent.left))
    ensures parent.right == (if pos.PosRight? then sibling else old(parent.right))
    ensures TiedAround(k, parent) == old(TiedAround(k, parent))
    ensures Tied(s, parent) == (true, old(ViewOf(s)))
  {
    Exist(s);
    ExistAround(k);
    if k.In? {
      PartsAround(k);
      assert HoleOf(k) == parent;
    }
    Reparent(parent, sibling, pos);
    if k.In? { Refilled(k); }
  }

  /** A subtree and surroundings that are not hooked to each other. */
  ghost function Loose(k: ShapeCtx, hole: Node, s: Shape, above: Node?)
    : ((bool, ViewCtx<Container>), (bool, View<Container>))
    reads Nodes(s), Windows(s), NodesAround(k), WindowsAround(k)
  {
    (TiedAround(k, hole), Tied(s, above))
  }

  /** A leaf for a container below a node without children. */
  method LeafCreate(parent: Node, c: Container, side: Side) returns (leaf: Node)
    requires parent.left == null && parent.right == null
    modifies parent`left, parent`right, c`bspNode
    ensures fresh(leaf) && leaf.parent == parent && c.bspNode == leaf
    ensures leaf.kind == Terminal && leaf.container == c && leaf.left == null && leaf.right == null
    ensures PaneOf(leaf, c) == Pane(true, ORIGIN, c.ConfigureAllowed(), c.floating, c.win)
    ensures if side.Left? then parent.left == leaf && parent.right == null
            else parent.right == leaf && parent.left == null
  {
    leaf := new Node.NewLeaf(c);
    leaf.parent := parent;
    Reparent(parent, leaf, PositionOf(side));
    c.bspNode := leaf;
  }

  /** The new node, with its two children in place, is part of the surroundings of the new leaf. */
  lemma Grafted(k: ShapeCtx, s: Shape, parent: Node, side: Side, leaf: Node, c: Container)
    requires Apart(s) && ApartAround(k) && Nodes(s) !! NodesAround(k) && Windows(s) !! WindowsAround(k)
    requires parent !in NodesAround(k) && parent !in Nodes(s) && c !in Windows(s) && c !in WindowsAround(k)
    requires leaf != parent && leaf !in Nodes(s) && leaf !in NodesAround(k)
    requires parent.kind == Internal && parent.container == null
    requires parent.split != SplitAuto && parent.parent == ParentOf(k)
    requires parent.left == if side.Left? then leaf else NodeOf(s)
    requires parent.right == if side.Left? then NodeOf(s) else leaf
    requires leaf.kind == Terminal && leaf.container == c && c.bspNode == leaf
    requires leaf.left == null && leaf.right == null
    requires leaf.parent == parent && TiedAround(k, parent).0 && Tied(s, parent).0
    ensures Hung(In(side, parent, s, k), Leaf(leaf, c))
         == (true, In(side, CutOf(parent), ViewOf(s), ViewAround(k)), Leaf(PaneOf(leaf, c), c))
  {
  }

  /** Hangs the new leaf and its sibling below the new node. */
  method Graft(parent: Node, sibling: Node, c: Container, side: Side, ghost k: ShapeCtx, ghost s: Shape)
    returns (leaf: Node)
    requires s.Leaf? && s.p == sibling && Tied(s, ParentOf(k)).0
    requires ApartAround(k) && Nodes(s) !! NodesAround(k) && Windows(s) !! WindowsAround(k)
    requires parent !in NodesAround(k) && parent != sibling && c !in Windows(s) && c !in WindowsAround(k)
    requires parent.kind == Internal && parent.container == null && parent.split != SplitAuto
    requires parent.left == null && parent.right == null && parent.parent == ParentOf(k)
    requires TiedAround(k, parent).0
    modifies sibling`parent, parent`left, parent`right, NodesAround(k)`left, NodesAround(k)`right, c`bspNode
    ensures fresh(leaf)
    ensures Hung(In(side, parent, s, k), Leaf(leaf, c))
         == (true, In(side, CutOf(parent), old(ViewOf(s)), old(ViewAround(k))),
             Leaf(Pane(true, ORIGIN, c.ConfigureAllowed(), c.floating, c.win), c))
  {
    Exist(s);
    ExistAround(k);
    leaf := LeafCreate(parent, c, side);
    assert Loose(k, parent, s, ParentOf(k)) == old(Loose(k, parent, s, ParentOf(k)));
    MoveSibling(parent, sibling, if side.Left? then PosRight else PosLeft, k, s);
    Grafted(k, s, parent, side, leaf, c);
  }

  method RelayoutRoot(root: Node, ghost s: Shape, area: Box, shown: bool)
    requires Hung(Top, s).0 && NodeOf(s) == root
    modifies Nodes(s)`x, Nodes(s)`y, Nodes(s)`width, Nodes(s)`height, Windows(s)`win
    ensures Hung(Top, s) == (true, Top, UpdateRoot(old(ViewOf(s)), area, shown))
  {
    TopIn(s);
    if root.kind == Terminal {
      LeafConfigure(root, root.container, area, shown);
    } else {
      SetArea(root, area, s, null);
      UpdateNode(root, s, null, shown);
    }
  }

  /** A node is divided, and not as it was. */
  predicate Turns(was: SplitType, now: SplitType) {
    now != was && now != SplitAuto
  }

  ghost function Above(n: Node): set<Node>
    reads n`parent
  {
    if n.parent == null then {} else {n.parent}
  }

  /** How the node above `n` is divided. */
  ghost function SplitAbove(n: Node): SplitType
    reads n`parent, Above(n)`split
  {
    if n.parent == null then SplitAuto else n.parent.split
  }

  /** Flips the split of a leaf's parent. */
  method ToggleNode(n: Node, ghost k: ShapeCtx, ghost s: Shape, shown: bool)
    requires Hung(k, s).0 && s.Leaf? && s.p == n
    modifies Above(n)`split, Nodes(Plug(k, s))`x, Nodes(Plug(k, s))`y
    modifies Nodes(Plug(k, s))`width, Nodes(Plug(k, s))`height, Windows(Plug(k, s))`win
    ensures n.parent != null ==> Turns(old(SplitAbove(n)), n.parent.split)
    ensures Hung(Top, Plug(k, s)) == (true, Top, Toggle(old(ViewAround(k)), old(ViewOf(s)), shown))
  {
    PlugSets(k, s);
    HungWhole(k, s);
    var parent := n.parent;
    if parent == null {
      return;
    }
    FlipSplit(parent, k, s);
    HungUp(k, s);
    UpdateInside(parent, k.up, Join(k.side, k.a, s, k.sib), shown);
  }

  method FlipSplit(parent: Node, ghost k: ShapeCtx, ghost s: Shape)
    requires k.In? && k.a == parent && Hung(k, s).0
    modifies parent`split
    ensures Turns(old(parent.split), parent.split)
    ensures var v := old(ViewAround(k));
            Hung(k, s) == (true, In(v.side, v.a.(orient := Flip(v.a.orient)), v.sib, v.up), old(ViewOf(s)))
  {
    PartsAround(k);
    Neighbours(k, s);
    SetSplit(parent, if parent.split == SplitHorizontal then SplitVertical else SplitHorizontal, k, s);
    HungFrom(k, s);
  }

  method SetSplit(parent: Node, split: SplitType, ghost k: ShapeCtx, ghost s: Shape)
    requires k.In? && k.a == parent
    requires parent !in Nodes(s) && parent !in Nodes(k.sib) && parent !in NodesAround(k.up)
    modifies parent`split
    ensures parent.split == split
    ensures Tied(k.sib, parent) == old(Tied(k.sib, parent))
    ensures Loose(k.up, parent, s, parent) == old(Loose(k.up, parent, s, parent))
  {
    parent.split := split;
    assert Loose(k.up, parent, s, parent) == old(Loose(k.up, parent, s, parent));
    assert Tied(k.sib, parent) == old(Tied(k.sib, parent));
  }

  /** The state of the container in a leaf changes. */
  method MarkLeaf(c: Container, fullscreen: bool, maximized: bool, floating: bool, ghost k: ShapeCtx, ghost s: Shape)
    requires Hung(k, s).0 && s.Leaf? && s.c == c
    modifies c`fullscreen, c`maximized, c`floating
    ensures (c.fullscreen, c.maximized, c.floating) == (fullscreen, maximized, floating)
    ensures Hung(Top, Plug(k, s))
         == (true, Top, Plug(old(ViewAround(k)), BspRuns.Marked(old(ViewOf(s)), !fullscreen && !maximized, floating)))
  {
    TopIn(s);
    c.fullscreen, c.maximized, c.floating := fullscreen, maximized, floating;
    assert TiedAround(k, s.p) == old(TiedAround(k, s.p));
    HungFrom(k, s);
    HungWhole(k, s);
  }

  method SetParentFactor(parent: Node, fact: real, ghost k: ShapeCtx, ghost s: Shape)
    requires k.In? && k.a == parent && Hung(k, s).0
    modifies Nodes(Plug(k, s))`fact
    ensures Hung(Top, Plug(k, s))
         == (true, Top, BspRuns.SetFactor(old(ViewAround(k)), old(ViewOf(s)), fact))
  {
    PlugSets(k, s);
    PartsAround(k);
    Neighbours(k, s);
    parent.fact := Clamp(fact);
    assert Loose(k.up, parent, s, parent) == old(Loose(k.up, parent, s, parent));
    assert Tied(k.sib, parent) == old(Tied(k.sib, parent));
    HungFrom(k, s);
    HungWhole(k, s);
  }

  /** The leaf of the first container of a tag. */
  method FirstLeaf(c: Container, area: Box, isBsp: bool, shown: bool) returns (n: Node)
    requires !c.floating
    modifies c`bspNode, c`win
    ensures fresh(n)
    ensures var g := old(GuestOf(c, false));
            Hung(Top, Leaf(n, c)) == (true, Top, if isBsp then First(g, area, shown) else g.Node())
  {
    n := new Node.NewLeaf(c);
    c.bspNode := n;
    if isBsp {
      LeafConfigure(n, c, area, shown);
    }
  }

  /** The new leaf and its parent, hooked into the tree but with their flags still as created. */
  method InsertNode(sibling: Node, isRoot: bool, area: Box, c: Container, side: Side, ghost k: ShapeCtx, ghost s: Shape)
    returns (parent: Node, leaf: Node)
    requires Hung(k, s).0 && s.Leaf? && s.p == sibling && (isRoot <==> k.Top?)
    requires c !in Windows(s) && c !in WindowsAround(k) && !c.floating
    modifies c`bspNode, sibling`parent, NodesAround(k)`left, NodesAround(k)`right
    ensures fresh(parent) && fresh(leaf) && leaf != parent && parent.enabled && parent.fact == 0.5
    ensures parent.Area() == if isRoot then area else sibling.Area()
    ensures parent.split == if sibling.width >= sibling.height then SplitHorizontal else SplitVertical
    ensures Hung(In(side, parent, s, k), Leaf(leaf, c))
         == (true, InsertCtx(old(ViewAround(k)), old(ViewOf(s)), side, area), old(GuestOf(c, false)).Node())
  {
    Exist(s);
    ExistAround(k);
    var b := if isRoot then area else sibling.Area();
    var split := if sibling.width >= sibling.height then SplitHorizontal else SplitVertical;
    assert ViewAround(k).Top? <==> k.Top?;
    parent := InternalCreate(sibling, b, split, k, s);
    leaf := Graft(parent, sibling, c, side, k, s);
  }

  /** The objects of a tree in which a new leaf and its parent have been put over `s`. */
  lemma GrownSets(k: ShapeCtx, s: Shape, side: Side, parent: Node, leaf: Node, c: Container)
    ensures var grown := Plug(In(side, parent, s, k), Shape.Leaf(leaf, c));
            && Nodes(grown) == Nodes(s) + NodesAround(k) + {parent, leaf}
            && Windows(grown) == Windows(s) + WindowsAround(k) + {c}
  {
    PlugSets(In(side, parent, s, k), Shape.Leaf(leaf, c));
  }

  /** The node at the top of a tree grown at `s` is the old one, unless `s` was the whole tree. */
  lemma PlugRoots(k: ShapeCtx, t: Shape, s: Shape)
    requires k.In? && k.sib == s
    ensures k.up.Top? ==> NodeOf(Plug(k, t)) == k.a
    ensures k.up.In? ==> NodeOf(Plug(k, t)) == NodeOf(Plug(k.up, s))
  {
    if k.up.In? { SameTop(k.up, Join(k.side, k.a, t, s), s); }
  }

  lemma {:induction false} HaveNodes(s: Shape, above: Node?)
    requires Linked(s, above)
    ensures forall c :: c in Windows(s) ==> c.bspNode != null && c.bspNode in Nodes(s)
  {
    match s
    case Leaf(_, _) =>
    case Inner(n, l, r) =>
      HaveNodes(l, n);
      HaveNodes(r, n);
  }

  /** In a tag in floating mode a container counts as floating even when it is not itself. */
  ghost function GuestOf(c: Container, floats: bool): Guest<Container>
    reads c
  {
    Guest(c, c.ConfigureAllowed(), c.minimized || floats, c.win)
  }

  // ---- resize fence ----

  function SplitOf(orient: Orient): SplitType {
    if orient.Horizontal? then SplitHorizontal else SplitVertical
  }

  /** The node whose line is dragged, found by walking up; `kf` are the surroundings it heads. */
  method FindFence(reference: Node, orient: Orient, side: Side, ghost k: ShapeCtx, ghost s: Shape)
    returns (fence: Node?, ghost kf: ShapeCtx)
    requires Hung(k, s).0 && NodeOf(s) == reference
    ensures ViewAround(kf) == Fence(ViewAround(k), orient, side) && fence == ParentOf(kf)
    ensures Hung(k, s) == old(Hung(k, s))
  {
    Exist(s);
    ExistAround(k);
    var node, parent := reference, reference.parent;
    kf := k;
    ghost var t := s;
    while parent != null
      invariant Hung(kf, t).0 && NodeOf(t) == node && parent == ParentOf(kf)
      invariant Fence(ViewAround(kf), orient, side) == Fence(ViewAround(k), orient, side)
      decreases kf
    {
      FenceUp(kf, t, orient, side);
      if parent.split == SplitOf(orient) {
        if side.Right? && parent.right == node {
          return parent, kf;
        }
        if side.Left? && parent.left == node {
          return parent, kf;
        }
      }
      kf, t := kf.up, Join(kf.side, kf.a, t, kf.sib);
      node := parent;
      parent := parent.parent;
    }
    fence := null;
  }

  /** The walk stops at a node that is split along `orient` and has the subtree on the given side. */
  lemma FenceUp(k: ShapeCtx, s: Shape, orient: Orient, side: Side)
    requires k.In? && Hung(k, s).0
    ensures k.a.parent == ParentOf(k.up) && Hung(k.up, Join(k.side, k.a, s, k.sib)).0
    ensures NodeOf(Join(k.side, k.a, s, k.sib)) == k.a
    ensures var stops := k.a.split == SplitOf(orient) && (if side.Right? then k.a.right else k.a.left) == NodeOf(s);
            Fence(ViewAround(k), orient, side) == if stops then ViewAround(k) else Fence(ViewAround(k.up), orient, side)
  {
    Neighbours(k, s);
    HookedSide(k, s);
    HungUp(k, s);
  }

  /** The nodes dragged by the given edges, vertical and horizontal; null when there is none. */
  method FindResizeFence(reference: Node, e: Edges, ghost k: ShapeCtx, ghost s: Shape)
    returns (vertical: Node?, horizontal: Node?, ghost kv: ShapeCtx, ghost kh: ShapeCtx)
    requires Hung(k, s).0 && NodeOf(s) == reference
    ensures (ViewAround(kv), ViewAround(kh)) == ResizeFence(ViewAround(k), e)
    ensures vertical == ParentOf(kv) && horizontal == ParentOf(kh)
  {
    Exist(s);
    ExistAround(k);
    vertical, horizontal, kv, kh := null, null, Top, Top;
    if reference.parent == null {
      return;
    }
    if e.top {
      vertical, kv := FindFence(reference, Vertical, Right, k, s);
    } else if e.bottom {
      vertical, kv := FindFence(reference, Vertical, Left, k, s);
    }
    ExistAround(kv);
    label Half:
    if e.left {
      horizontal, kh := FindFence(reference, Horizontal, Right, k, s);
    } else if e.right {
      horizontal, kh := FindFence(reference, Horizontal, Left, k, s);
    }
    assert ViewAround(kv) == old@Half(ViewAround(kv));
  }
}

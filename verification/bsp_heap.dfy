/** The nodes and containers as linked objects, and the tree value they stand for. */
module BspHeap {
  import opened Lists
  import opened Geometry
  import opened BspTree
  import opened BspLayout

  datatype NodeType = Internal | Terminal

  datatype SplitType = SplitAuto | SplitHorizontal | SplitVertical

  class Container {
    var bspNode: Node?
    var win: Box           // the box last handed to the container by a layout
    var fullscreen: bool
    var maximized: bool
    var minimized: bool
    var floating: bool

    constructor ()
      ensures bspNode == null
    {
      bspNode, win := null, ORIGIN;
      fullscreen, maximized, minimized, floating := false, false, false, false;
    }

    predicate ConfigureAllowed()
      reads this`fullscreen, this`maximized
    {
      !fullscreen && !maximized
    }
  }

  class Node {
    var kind: NodeType
    var container: Container?
    var parent: Node?
    var left: Node?
    var right: Node?
    var enabled: bool
    var split: SplitType
    var fact: real
    var x: int
    var y: int
    var width: int
    var height: int

    /** An inner node with equal shares and without children. */
    constructor NewInternal(b: Box, split: SplitType)
      ensures kind == Internal && container == null && parent == null && left == null && right == null
      ensures enabled && this.split == split && fact == 0.5 && Area() == b
    {
      kind := Internal;
      container, parent, left, right := null, null, null, null;
      enabled, this.split, fact := true, split, 0.5;
      x, y, width, height := b.x, b.y, b.width, b.height;
    }

    /** A leaf for a container, enabled and without a box yet. */
    constructor NewLeaf(c: Container)
      ensures kind == Terminal && container == c && parent == null && left == null && right == null
      ensures enabled && split == SplitAuto && fact == 0.0 && Area() == ORIGIN
    {
      kind := Terminal;
      container, parent, left, right := c, null, null, null;
      enabled, split, fact := true, SplitAuto, 0.0;
      x, y, width, height := 0, 0, 0, 0;
    }

    function Area(): Box
      reads this`x, this`y, this`width, this`height
    {
      Box(x, y, width, height)
    }
  }

  /** Which objects make up a tree; a ghost companion of the pointers. */
  type Shape = Tree<Node, Node, Container>
  type ShapeCtx = Ctx<Node, Node, Container>

  ghost function NodeOf(s: Shape): Node {
    match s
    case Leaf(n, _) => n
    case Inner(n, _, _) => n
  }

  ghost function Nodes(s: Shape): set<Node> {
    match s
    case Leaf(n, _) => {n}
    case Inner(n, l, r) => {n} + Nodes(l) + Nodes(r)
  }

  ghost function Windows(s: Shape): set<Container> {
    match s
    case Leaf(_, c) => {c}
    case Inner(_, l, r) => Windows(l) + Windows(r)
  }

  ghost function NodesAround(k: ShapeCtx): set<Node> {
    match k
    case Top => {}
    case In(_, n, sib, up) => {n} + Nodes(sib) + NodesAround(up)
  }

  ghost function WindowsAround(k: ShapeCtx): set<Container> {
    match k
    case Top => {}
    case In(_, _, sib, up) => Windows(sib) + WindowsAround(up)
  }

  ghost function ParentOf(k: ShapeCtx): Node? {
    if k.Top? then null else k.a
  }

  // ---- no object occurs twice ----

  ghost predicate Apart(s: Shape) {
    s.Inner? ==>
      && s.a !in Nodes(s.l) && s.a !in Nodes(s.r)
      && Nodes(s.l) !! Nodes(s.r) && Windows(s.l) !! Windows(s.r)
      && Apart(s.l) && Apart(s.r)
  }

  ghost predicate ApartAround(k: ShapeCtx) {
    k.In? ==>
      && k.a !in Nodes(k.sib) && k.a !in NodesAround(k.up)
      && Nodes(k.sib) !! NodesAround(k.up) && Windows(k.sib) !! WindowsAround(k.up)
      && Apart(k.sib) && ApartAround(k.up)
  }

  // ---- the pointers agree with the shape ----

  ghost predicate Linked(s: Shape, parent: Node?)
    reads Nodes(s)`kind, Nodes(s)`container, Nodes(s)`parent, Nodes(s)`left, Nodes(s)`right, Nodes(s)`split
    reads Windows(s)`bspNode
  {
    match s
    case Leaf(n, c) =>
      && n.kind == Terminal && n.container == c && c.bspNode == n
      && n.parent == parent && n.left == null && n.right == null
    case Inner(n, l, r) =>
      && n.kind == Internal && n.container == null && n.split != SplitAuto
      && n.parent == parent && n.left == NodeOf(l) && n.right == NodeOf(r)
      && Linked(l, n) && Linked(r, n)
  }

  ghost predicate LinkedAround(k: ShapeCtx, hole: Node)
    reads NodesAround(k)`kind, NodesAround(k)`container, NodesAround(k)`parent
    reads NodesAround(k)`left, NodesAround(k)`right, NodesAround(k)`split
    reads WindowsAround(k)`bspNode
  {
    match k
    case Top => true
    case In(side, n, sib, up) =>
      && n.kind == Internal && n.container == null && n.split != SplitAuto
      && n.parent == ParentOf(up)
      && n.left == (if side.Left? then hole else NodeOf(sib))
      && n.right == (if side.Left? then NodeOf(sib) else hole)
      && Linked(sib, n) && LinkedAround(up, n)
  }

  /** The objects of `s` form a proper tree in which `s` hangs in the hole of `k`. */
  ghost predicate Hangs(k: ShapeCtx, s: Shape)
    reads NodesAround(k)`kind, NodesAround(k)`container, NodesAround(k)`parent
    reads NodesAround(k)`left, NodesAround(k)`right, NodesAround(k)`split
    reads WindowsAround(k)`bspNode
    reads Nodes(s)`kind, Nodes(s)`container, Nodes(s)`parent, Nodes(s)`left, Nodes(s)`right, Nodes(s)`split
    reads Windows(s)`bspNode
  {
    && Apart(s) && ApartAround(k)
    && Nodes(s) !! NodesAround(k) && Windows(s) !! WindowsAround(k)
    && Linked(s, ParentOf(k)) && LinkedAround(k, NodeOf(s))
  }

  // ---- the value ----

  ghost function CutOf(n: Node): Cut
    reads n`enabled, n`split, n`fact, n`x, n`y, n`width, n`height
  {
    Cut(n.enabled, n.Area(), if n.split == SplitVertical then Vertical else Horizontal, n.fact)
  }

  ghost function PaneOf(n: Node, c: Container): Pane
    reads n`enabled, n`x, n`y, n`width, n`height, c`fullscreen, c`maximized, c`floating, c`win
  {
    Pane(n.enabled, n.Area(), c.ConfigureAllowed(), c.floating, c.win)
  }

  ghost function ViewOf(s: Shape): View<Container>
    reads Nodes(s)`enabled, Nodes(s)`split, Nodes(s)`fact, Nodes(s)`x, Nodes(s)`y, Nodes(s)`width, Nodes(s)`height
    reads Windows(s)`fullscreen, Windows(s)`maximized, Windows(s)`floating, Windows(s)`win
  {
    match s
    case Leaf(n, c) => Leaf(PaneOf(n, c), c)
    case Inner(n, l, r) => Inner(CutOf(n), ViewOf(l), ViewOf(r))
  }

  ghost function ViewAround(k: ShapeCtx): ViewCtx<Container>
    reads NodesAround(k)`enabled, NodesAround(k)`split, NodesAround(k)`fact
    reads NodesAround(k)`x, NodesAround(k)`y, NodesAround(k)`width, NodesAround(k)`height
    reads WindowsAround(k)`fullscreen, WindowsAround(k)`maximized, WindowsAround(k)`floating, WindowsAround(k)`win
  {
    match k
    case Top => Top
    case In(side, n, sib, up) => In(side, CutOf(n), ViewOf(sib), ViewAround(up))
  }

  lemma {:induction false} PlugSets(k: ShapeCtx, s: Shape)
    ensures Nodes(Plug(k, s)) == Nodes(s) + NodesAround(k)
    ensures Windows(Plug(k, s)) == Windows(s) + WindowsAround(k)
  {
    match k
    case Top =>
    case In(side, n, sib, up) => PlugSets(up, Join(side, n, s, sib));
  }

  /** Hanging below a node is hanging, with that node and the sibling, one level up. */
  lemma HangsUp(k: ShapeCtx, s: Shape)
    requires k.In?
    ensures Hangs(k, s) <==> Hangs(k.up, Join(k.side, k.a, s, k.sib))
    ensures ViewOf(Join(k.side, k.a, s, k.sib)) == Join(k.side, CutOf(k.a), ViewOf(s), ViewOf(k.sib))
  {
  }

  lemma {:induction false} PlugHangs(k: ShapeCtx, s: Shape)
    ensures Hangs(k, s) <==> Hangs(Top, Plug(k, s))
    ensures ViewOf(Plug(k, s)) == Plug(ViewAround(k), ViewOf(s))
  {
    match k
    case Top =>
    case In(side, n, sib, up) =>
      HangsUp(k, s);
      PlugHangs(up, Join(side, n, s, sib));
  }

  lemma {:induction false} WindowsAreLeaves(s: Shape)
    ensures forall c :: c in Windows(s) <==> c in Leaves(s)
    ensures Leaves(ViewOf(s)) == Leaves(s)
  {
    match s
    case Leaf(_, _) =>
    case Inner(_, l, r) =>
      WindowsAreLeaves(l);
      WindowsAreLeaves(r);
  }

  lemma {:induction false} LeafIsWindow(s: Shape, i: nat)
    requires i < |Leaves(s)|
    ensures Leaves(s)[i] in Windows(s)
  {
    match s
    case Leaf(_, _) =>
    case Inner(_, l, r) => if i < |Leaves(l)| { LeafIsWindow(l, i); } else { LeafIsWindow(r, i - |Leaves(l)|); }
  }

  lemma {:induction false} ApartDistinct(s: Shape)
    requires Apart(s)
    ensures Distinct(Leaves(s))
  {
    match s
    case Leaf(_, _) =>
    case Inner(_, l, r) =>
      ApartDistinct(l);
      ApartDistinct(r);
      forall i, j | 0 <= i < j < |Leaves(s)| ensures Leaves(s)[i] != Leaves(s)[j] {
        if i < |Leaves(l)| <= j {
          LeafIsWindow(l, i);
          LeafIsWindow(r, j - |Leaves(l)|);
        }
      }
  }

  /** The place of a container among the objects, read as values, is its place in the value. */
  lemma LocateViews(s: Shape, c: Container)
    requires Hangs(Top, s) && c in Windows(s)
    ensures c in Leaves(s) && c in Leaves(ViewOf(s))
    ensures var k, leaf := Locate(s, c), LeafOf(s, c);
            && leaf.Leaf? && leaf.c == c && c.bspNode == leaf.p
            && Plug(k, leaf) == s && Hangs(k, leaf)
            && Locate(ViewOf(s), c) == ViewAround(k)
            && LeafOf(ViewOf(s), c) == ViewOf(leaf)
  {
    WindowsAreLeaves(s);
    LocatePlugs(s, c);
    var k, leaf := Locate(s, c), LeafOf(s, c);
    PlugHangs(k, leaf);
    ApartDistinct(s);
    LocateIsUnique(ViewAround(k), ViewOf(leaf));
  }
}

/** The split line that an interactive resize moves, and where it is on the screen. */
module BspFence {
  import opened Geometry
  import opened BspTree
  import opened BspLayout

  /** The nearest ancestor divided along `orient` of which the hole is in the `side` child. */
  function Fence<C>(k: ViewCtx<C>, orient: Orient, side: Side): ViewCtx<C> {
    match k
    case Top => Top
    case In(s, a, _, up) => if a.orient == orient && s == side then k else Fence(up, orient, side)
  }

  /** The coordinate of the line between the two children of a node. */
  function Line(a: Cut): int {
    if a.orient.Horizontal? then a.box.x + Scale(a.box.width, a.fact)
    else a.box.y + Scale(a.box.height, a.fact)
  }

  /**
   The coordinate of the edge of a box that touches the line when the box is in the `side`
   child: its near edge (left or top) in a right child, its far edge in a left child.
   */
  function Edge(b: Box, orient: Orient, side: Side): int {
    match (orient, side)
    case (Horizontal, Right) => b.x
    case (Horizontal, Left) => b.x + b.width
    case (Vertical, Right) => b.y
    case (Vertical, Left) => b.y + b.height
  }

  /** The nearest ancestor divided along `orient` whose line is at the coordinate `at`. */
  function NearestLine<C>(k: ViewCtx<C>, orient: Orient, at: int): ViewCtx<C> {
    match k
    case Top => Top
    case In(_, a, _, up) => if a.orient == orient && Line(a) == at then k else NearestLine(up, orient, at)
  }

  predicate AllEnabled<C>(t: View<C>) {
    Enabled(t) && (t.Inner? ==> AllEnabled(t.l) && AllEnabled(t.r))
  }

  /** All nodes around the hole are enabled and their boxes fit the box of the node in it. */
  predicate Fits<C>(k: ViewCtx<C>, b: Box) {
    match k
    case Top => true
    case In(side, a, sib, up) =>
      && Fraction(a.fact) && a.box.width >= 0 && a.box.height >= 0
      && var (lb, rb) := Halves(a.box, a.orient, a.fact);
      && b == (if side.Left? then lb else rb)
      && Fits(up, a.box)
  }

  function RootBox<C>(k: ViewCtx<C>, b: Box): Box {
    match k
    case Top => b
    case In(_, a, _, up) => RootBox(up, a.box)
  }

  lemma {:induction false} SettledFits<C>(k: ViewCtx<C>, t: View<C>, shown: bool)
    requires Settled(Plug(k, t), shown) && AllEnabled(Plug(k, t)) && FactorsOk(Plug(k, t))
    requires BoxOf(Plug(k, t)).width >= 0 && BoxOf(Plug(k, t)).height >= 0
    ensures Settled(t, shown) && AllEnabled(t) && FactorsOk(t)
    ensures BoxOf(t).width >= 0 && BoxOf(t).height >= 0
    ensures Fits(k, BoxOf(t)) && RootBox(k, BoxOf(t)) == BoxOf(Plug(k, t))
  {
    match k
    case Top =>
    case In(side, a, sib, up) =>
      SettledFits(up, Join(side, a, t, sib), shown);
      ScaleBounded(a.box.width, a.fact);
      ScaleBounded(a.box.height, a.fact);
  }

  function Extent(b: Box, orient: Orient): int {
    if orient.Horizontal? then b.width else b.height
  }

  /**
   The walk up to the fence follows the edge: the fence is the nearest ancestor whose line lies
   on that edge of the box, and without a fence the edge is the edge of the root.
   `inner` is a non-empty box inside `b` that has the edge in common with it.
   */
  lemma {:induction false} FenceFollowsEdge<C>(k: ViewCtx<C>, b: Box, inner: Box, orient: Orient, side: Side)
    requires Fits(k, b) && b.width >= 0 && b.height >= 0
    requires Edge(b, orient, side) == Edge(inner, orient, side)
    requires 0 < Extent(inner, orient) <= Extent(b, orient)
    ensures Fence(k, orient, side) == NearestLine(k, orient, Edge(inner, orient, side))
    ensures Fence(k, orient, side).Top? ==>
              Edge(RootBox(k, b), orient, side) == Edge(inner, orient, side)
  {
    match k
    case Top =>
    case In(s, a, sib, up) =>
      ScaleBounded(a.box.width, a.fact);
      ScaleBounded(a.box.height, a.fact);
      if a.orient != orient || s != side {
        FenceFollowsEdge(up, a.box, inner, orient, side);
      }
  }

  /** With or without extent: the line of the fence is at the edge, or the edge is that of the root. */
  lemma {:induction false} FenceTouches<C>(k: ViewCtx<C>, b: Box, orient: Orient, side: Side)
    requires Fits(k, b)
    ensures var f := Fence(k, orient, side);
            && (f.In? ==> Line(f.a) == Edge(b, orient, side))
            && (f.Top? ==> Edge(RootBox(k, b), orient, side) == Edge(b, orient, side))
  {
    match k
    case Top =>
    case In(s, a, sib, up) => if a.orient != orient || s != side { FenceTouches(up, a.box, orient, side); }
  }

  /** The nearest ancestor divided along `orient`. */
  function FirstCut<C>(k: ViewCtx<C>, orient: Orient): ViewCtx<C> {
    match k
    case Top => Top
    case In(_, a, _, up) => if a.orient == orient then k else FirstCut(up, orient)
  }

  function Depth<C>(k: ViewCtx<C>): nat {
    if k.Top? then 0 else Depth(k.up) + 1
  }

  lemma {:induction false} FenceIsAbove<C>(k: ViewCtx<C>, orient: Orient, side: Side)
    ensures Depth(Fence(k, orient, side)) <= Depth(k)
  {
    match k
    case Top =>
    case In(_, _, _, up) => FenceIsAbove(up, orient, side);
  }

  /** An empty box has both its edges on the line of the nearest ancestor divided along them. */
  lemma {:induction false} EmptyMeets<C>(k: ViewCtx<C>, b: Box, orient: Orient, side: Side)
    requires Fits(k, b) && Extent(b, orient) == 0
    ensures Fence(k, orient, side) == NearestLine(k, orient, Edge(b, orient, side))
       <==> FirstCut(k, orient).Top? || FirstCut(k, orient).side == side
  {
    match k
    case Top =>
    case In(s, a, sib, up) =>
      if a.orient != orient {
        EmptyMeets(up, a.box, orient, side);
      } else {
        FenceIsAbove(up, orient, side);
      }
  }

  /**
   On a laid out tree with every node enabled: the line of the fence found for an edge is at that
   edge, and without a fence the edge is the edge of the whole tree. The fence is the nearest
   ancestor whose line is at the edge exactly when the leaf has an extent across it, or no
   ancestor is divided along it, or the nearest one that is has the leaf on the side asked for.
   */
  lemma FenceIsTheEdge<C>(k: ViewCtx<C>, t: View<C>, orient: Orient, side: Side, shown: bool)
    requires Settled(Plug(k, t), shown) && AllEnabled(Plug(k, t)) && FactorsOk(Plug(k, t))
    requires BoxOf(Plug(k, t)).width >= 0 && BoxOf(Plug(k, t)).height >= 0
    ensures var (at, f) := (Edge(BoxOf(t), orient, side), Fence(k, orient, side));
            && (f.In? ==> Line(f.a) == at)
            && (f.Top? ==> at == Edge(BoxOf(Plug(k, t)), orient, side))
            && (f == NearestLine(k, orient, at) <==>
                  Extent(BoxOf(t), orient) > 0 || FirstCut(k, orient).Top? || FirstCut(k, orient).side == side)
  {
    SettledFits(k, t, shown);
    FenceTouches(k, BoxOf(t), orient, side);
    if Extent(BoxOf(t), orient) > 0 {
      FenceFollowsEdge(k, BoxOf(t), BoxOf(t), orient, side);
    } else {
      EmptyMeets(k, BoxOf(t), orient, side);
    }
  }

  /** Which edges are dragged. */
  datatype Edges = Edges(top: bool, bottom: bool, left: bool, right: bool)

  /** The nodes whose factors follow the cursor: vertical, then horizontal; Top for none. */
  function ResizeFence<C>(k: ViewCtx<C>, e: Edges): (ViewCtx<C>, ViewCtx<C>) {
    (if e.top then Fence(k, Vertical, Right) else if e.bottom then Fence(k, Vertical, Left) else Top,
     if e.left then Fence(k, Horizontal, Right) else if e.right then Fence(k, Horizontal, Left) else Top)
  }

  lemma {:induction false} FenceOrient<C>(k: ViewCtx<C>, orient: Orient, side: Side)
    ensures var f := Fence(k, orient, side); f.In? ==> f.a.orient == orient
  {
    match k
    case Top =>
    case In(_, _, _, up) => FenceOrient(up, orient, side);
  }

  /**
   The top edge goes before the bottom one, and the left edge before the right one. The line found
   for an edge lies on it; when none is found, the edge is one of the whole tree.
   */
  lemma {:induction false} ResizeFenceEdges<C>(k: ViewCtx<C>, b: Box, e: Edges)
    requires Fits(k, b)
    ensures var ((v, h), root) := (ResizeFence(k, e), RootBox(k, b));
            && (v.In? ==> (e.top || e.bottom) && v.a.orient.Vertical?)
            && (v.In? ==> v.a.box.y + Scale(v.a.box.height, v.a.fact) == if e.top then b.y else b.y + b.height)
            && (v.Top? && e.top ==> root.y == b.y)
            && (v.Top? && !e.top && e.bottom ==> root.y + root.height == b.y + b.height)
            && (h.In? ==> (e.left || e.right) && h.a.orient.Horizontal?)
            && (h.In? ==> h.a.box.x + Scale(h.a.box.width, h.a.fact) == if e.left then b.x else b.x + b.width)
            && (h.Top? && e.left ==> root.x == b.x)
            && (h.Top? && !e.left && e.right ==> root.x + root.width == b.x + b.width)
  {
    var vertical := if e.top then Right else Left;
    FenceTouches(k, b, Vertical, vertical);
    FenceOrient(k, Vertical, vertical);
    var horizontal := if e.left then Right else Left;
    FenceTouches(k, b, Horizontal, horizontal);
    FenceOrient(k, Horizontal, horizontal);
  }

  function PaneAt(b: Box, c: nat): View<nat> {
    Leaf(Pane(true, b, true, false, b), c)
  }

  /**
   An input on which the two differ: an empty leaf whose left edge is the left edge of the screen,
   and at the same time the line of its own parent, has no fence on the left.
   */
  lemma EmptyLeafMisses(fact: real)
    requires 0.0 <= fact < 1.0
    ensures var (a, t) := (Cut(true, Box(0, 0, 1, 1), Horizontal, fact), PaneAt(Box(0, 0, 0, 1), 0));
            var k := In(Left, a, PaneAt(Box(0, 0, 1, 1), 1), Top);
            && Settled(Plug(k, t), true) && AllEnabled(Plug(k, t)) && FactorsOk(Plug(k, t))
            && Fence(k, Horizontal, Right).Top?
            && NearestLine(k, Horizontal, Edge(BoxOf(t), Horizontal, Right)) == k
  {
    SmallestScale(fact);
    var (a, t) := (Cut(true, Box(0, 0, 1, 1), Horizontal, fact), PaneAt(Box(0, 0, 0, 1), 0));
    var k := In(Left, a, PaneAt(Box(0, 0, 1, 1), 1), Top);
    assert Shares(a.box, Horizontal, fact, true, true) == (Box(0, 0, 0, 1), Box(0, 0, 1, 1));
    assert Plug(k, t) == Inner(a, t, k.sib);
  }

  lemma SmallestScale(fact: real)
    requires 0.0 <= fact < 1.0
    ensures Scale(1, fact) == 0
  {
    assert 1 as real * fact == fact;
  }
}

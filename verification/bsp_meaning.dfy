/** What the operations on a tree mean in boxes and flags, without the functions that compute them. */
module BspMeaning {
  import opened Lists
  import opened Geometry
  import opened BspTree
  import opened BspLayout
  import opened BspOps
  import opened BspRuns

  /** Neighbours that have the height of a place and share its width, equally but for a pixel. */
  predicate SideBySide(place: Box, l: Box, r: Box) {
    && l.y == r.y == place.y && l.height == r.height == place.height
    && l.x == place.x && r.x == l.x + l.width && l.width + r.width == place.width
    && -1 <= l.width - r.width <= 1
  }

  /** One upon the other: they have the width of a place and share its height, equally but for a pixel. */
  predicate Stacked(place: Box, l: Box, r: Box) {
    && l.x == r.x == place.x && l.width == r.width == place.width
    && l.y == place.y && r.y == l.y + l.height && l.height + r.height == place.height
    && -1 <= l.height - r.height <= 1
  }

  /** The longer side of a box is the one that is divided in a place. */
  predicate Divided(was: Box, place: Box, l: Box, r: Box) {
    if was.width >= was.height then SideBySide(place, l, r) else Stacked(place, l, r)
  }

  lemma HalfOf(n: int)
    ensures -1 <= Scale(n, 0.5) - (n - Scale(n, 0.5)) <= 1
  {
    TruncMeans(n as real * 0.5);
  }

  lemma {:induction false} RaisedLit<C>(k: ViewCtx<C>, k': ViewCtx<C>)
    requires EraseCtx(k') == EraseCtx(Raised(k))
    ensures Lit(k') && Looked(k', true)
  {
    match k
    case Top =>
    case In(_, _, _, up) => RaisedLit(up, k'.up);
  }

  /** In settled trees of the same shape, visible nodes at the same place have the same box. */
  lemma {:induction false} SameHole<C>(k: ViewCtx<C>, t: View<C>, k': ViewCtx<C>, t': View<C>, shown: bool)
    requires EraseCtx(k) == EraseCtx(k') && Lit(k) && Enabled(t) && Enabled(t')
    requires Settled(Plug(k, t), shown) && Settled(Plug(k', t'), shown)
    requires BoxOf(Plug(k, t)) == BoxOf(Plug(k', t'))
    ensures BoxOf(t) == BoxOf(t') && Looked(k, true)
  {
    match k
    case Top =>
    case In(side, a, sib, up) =>
      var (p, p') := (Join(side, a, t, sib), Join(side, k'.a, t', k'.sib));
      SameHole(up, p, k'.up, p', shown);
      EraseKeeps(sib);
      EraseKeeps(k'.sib);
      LitLooked(k'.up, k'.a.enabled);
      LitErased(k, k');
      SettledReplacing(up, p, p, shown);
      SettledReplacing(k'.up, p', p', shown);
  }

  lemma {:induction false} LitErased<C>(k: ViewCtx<C>, k': ViewCtx<C>)
    requires EraseCtx(k) == EraseCtx(k')
    ensures Lit(k) == Lit(k')
  {
    match k
    case Top =>
    case In(_, _, _, up) => LitErased(up, k'.up);
  }

  lemma {:induction false} LitLooked<C>(k: ViewCtx<C>, e: bool)
    ensures Lit(k) && e ==> Looked(k, e)
  {
    match k
    case Top =>
    case In(_, a, _, up) => LitLooked(up, a.enabled);
  }

  /** Two leaves below the same node. */
  ghost predicate Pair<C>(u: View<C>, c: C, d: C, side: Side) {
    && c in Leaves(u) && d in Leaves(u)
    && var k := Locate(u, c);
       && k.In? && k.side == side
       && LeafOf(u, d) == k.sib && Locate(u, d) == In(if side.Left? then Right else Left, k.a, LeafOf(u, c), k.up)
  }

  lemma PairAt<C>(u: View<C>, c: C)
    requires c in Leaves(u) && Distinct(Leaves(u)) && Locate(u, c).In? && Locate(u, c).sib.Leaf?
    ensures Pair(u, c, Locate(u, c).sib.c, Locate(u, c).side)
  {
    LocatePlugs(u, c);
    var k := Locate(u, c);
    LocateIsUnique(In(if k.side.Left? then Right else Left, k.a, LeafOf(u, c), k.up), k.sib);
  }

  /** The boxes of the leaves that show `c` and `d`, the one at `side` first. */
  ghost function BoxesOf<C>(u: View<C>, c: C, d: C, side: Side): (Box, Box)
    requires c in Leaves(u) && d in Leaves(u)
  {
    var (b, e) := (BoxOf(LeafOf(u, c)), BoxOf(LeafOf(u, d)));
    if side.Left? then (b, e) else (e, b)
  }

  /** The box of the node above the leaf that shows `c`. */
  ghost function PlaceOf<C>(u: View<C>, c: C): Box
    requires c in Leaves(u) && Locate(u, c).In?
  {
    Locate(u, c).a.box
  }

  /** Both leaves are visible below a node whose box they share: the longer side of `was` is divided. */
  ghost predicate Shared<C>(u: View<C>, c: C, d: C, side: Side, was: Box) {
    && Pair(u, c, d, side) && Enabled(LeafOf(u, c)) && Enabled(LeafOf(u, d))
    && Divided(was, PlaceOf(u, c), BoxesOf(u, c, d, side).0, BoxesOf(u, c, d, side).1)
  }

  /**
   A visible window that enters beside an enabled leaf. The two leaves share the box of the new node,
   and it is the old box of the leaf that decides which side is divided. At the root the new node has
   the usable area; elsewhere, in a tree in place, the box that the leaf had.
   */
  lemma InsertDivides<C>(k: ViewCtx<C>, sib: View<C>, g: Guest<C>, side: Side, area: Box, shown: bool)
    requires sib.Leaf? && Distinct(Leaves(Plug(k, sib))) && g.c !in Leaves(Plug(k, sib))
    requires Enabled(sib) && g.allowed && !g.minimized
    ensures var u := Insert(k, sib, g, side, area, shown).t;
            && Shared(u, g.c, sib.c, side, BoxOf(sib))
            && (k.Top? ==> PlaceOf(u, g.c) == area)
            && (k.In? && Flags(Plug(k, sib), false) && InPlace(Plug(k, sib), area, shown) ==>
                  PlaceOf(u, g.c) == BoxOf(sib))
  {
    var (kg, u) := (InsertCtx(k, sib, side, area), Insert(k, sib, g, side, area, shown).t);
    InsertedAt(k, sib, g, side, area, shown);
    InsertedApart(k, sib, g, side, area, shown);
    LocatePlugs(u, g.c);
    var (k', leaf) := (Locate(u, g.c), LeafOf(u, g.c));
    assert EraseCtx(k') == EraseCtx(Raised(kg));
    RaisedLit(kg, k');
    InsertSettled(k, sib, g, side, area, shown);
    EnterErased(kg, g.Node(), false, shown);
    EraseOfPlug(k', leaf);
    CalmEraseCtx(k');
    CalmEraseCtx(kg);
    PlugInjective(EraseCtx(k'), EraseCtx(Raised(kg)), Erase(leaf), Erase(SetEnabled(g.Node(), true)));
    PairAt(u, g.c);
    PairDivides(k', leaf, side, NewCut(k.Top?, BoxOf(sib), area), shown);
    if k.In? && Flags(Plug(k, sib), false) && InPlace(Plug(k, sib), area, shown) {
      FlagsOfPlug(k, sib, false);
      LitFromParent(k, true);
      AlreadyLit(k);
      PlugBox(k, sib, sib);
      SameHole(k, sib, k'.up, Join(side, k'.a, leaf, k'.sib), shown);
    }
  }

  lemma {:induction false} AlreadyLit<C>(k: ViewCtx<C>)
    requires Lit(k)
    ensures Raised(k) == k
  {
    match k
    case Top =>
    case In(_, _, _, up) => AlreadyLit(up);
  }

  lemma InsertedApart<C>(k: ViewCtx<C>, sib: View<C>, g: Guest<C>, side: Side, area: Box, shown: bool)
    requires sib.Leaf? && Distinct(Leaves(Plug(k, sib))) && g.c !in Leaves(Plug(k, sib))
    ensures Distinct(Leaves(Insert(k, sib, g, side, area, shown).t))
  {
    InsertLeaves(k, sib, g, side, area, shown);
    LeavesOfPlug(k, sib);
    InsertedDistinct(Before(k), sib.c, g.c, After(k), side.Right?);
  }

  /** The whole tree is laid out below its root, which at the first division has the usable area. */
  lemma InsertSettled<C>(k: ViewCtx<C>, sib: View<C>, g: Guest<C>, side: Side, area: Box, shown: bool)
    requires sib.Leaf? && g.allowed && !g.minimized
    ensures var u := Insert(k, sib, g, side, area, shown).t;
            u.Inner? && Settled(u, shown) && BoxOf(u) == if k.Top? then area else BoxOf(Plug(k, sib))
  {
    var kg := InsertCtx(k, sib, side, area);
    EnableUpBox(kg, g.Node());
    PlugBox(kg, g.Node(), g.Node());
    UpdateSettles(EnableUp(kg, g.Node()), shown);
    if k.In? { PlugBox(k, sib, Join(side, kg.a, g.Node(), sib)); }
  }

  /** Visible children of a node in a settled tree share its box by the half. */
  lemma PairDivides<C>(k: ViewCtx<C>, leaf: View<C>, side: Side, cut: Cut, shown: bool)
    requires k.In? && k.side == side && Lit(k) && k.a.fact == 0.5 && k.a.orient == cut.orient
    requires Enabled(leaf) && Enabled(k.sib) && Settled(Plug(k, leaf), shown)
    ensures var (b, e) := (BoxOf(leaf), BoxOf(k.sib));
            var (l, r) := if side.Left? then (b, e) else (e, b);
            if cut.orient.Horizontal? then SideBySide(k.a.box, l, r) else Stacked(k.a.box, l, r)
  {
    var parent := Join(side, k.a, leaf, k.sib);
    LitLooked(k.up, true);
    SettledReplacing(k.up, parent, parent, shown);
    HalfOf(k.a.box.width);
    HalfOf(k.a.box.height);
  }

  /** What an insertion beside the focused container looks like. */
  lemma AddedDivides<C>(s: State<C>, g: Guest<C>, side: Side, area: Box, shown: bool)
    requires s.entry.Tiled? && Distinct(Leaves(s.entry.tree)) && Present(s, s.entry.focus) && !Present(s, g.c)
    requires Enabled(LeafOf(s.entry.tree, s.entry.focus)) && g.allowed && !g.minimized
    ensures var (t, near) := (s.entry.tree, LeafOf(s.entry.tree, s.entry.focus));
            var u := Added(s, g, side, area, shown).entry.tree;
            && Shared(u, g.c, s.entry.focus, side, BoxOf(near))
            && (t.Leaf? ==> PlaceOf(u, g.c) == area)
            && (t.Inner? && Flags(t, false) && InPlace(t, area, shown) ==> PlaceOf(u, g.c) == BoxOf(near))
  {
    var (k, t) := Find(s, s.entry.focus);
    InsertDivides(k, t, g, side, area, shown);
    PlugBox(k, t, t);
  }

  /**
   A window is put beside the focused one, on the side asked for, and takes the focus. It enters
   disabled exactly when it does not accept tiled geometry or is minimized.
   */
  lemma AddedBeside<C>(s: State<C>, g: Guest<C>, side: Side, area: Box, shown: bool)
    requires s.entry.Tiled? && Distinct(Leaves(s.entry.tree)) && Present(s, s.entry.focus) && !Present(s, g.c)
    ensures var e := Added(s, g, side, area, shown).entry;
            && e.focus == g.c && Pair(e.tree, g.c, s.entry.focus, side)
            && (Enabled(LeafOf(e.tree, g.c)) <==> g.allowed && !g.minimized)
  {
    var (k, t) := Find(s, s.entry.focus);
    var (kg, u) := (InsertCtx(k, t, side, area), Insert(k, t, g, side, area, shown).t);
    InsertedAt(k, t, g, side, area, shown);
    InsertedApart(k, t, g, side, area, shown);
    EnterErased(kg, g.Node(), g.Hidden(), shown);
    ErasedPlace(u, g.c, Climbed(kg, g.Hidden()), Erase(SetEnabled(g.Node(), !g.Hidden())));
    EraseKeeps(LeafOf(u, g.c));
    PairAt(u, g.c);
  }

  /** What is shown or hidden has an enabled leaf or a disabled one. */
  lemma ActFlag<C>(s: State<C>, c: C, on: bool, shown: bool)
    requires Present(s, c) && Distinct(Leaves(s.entry.tree))
    ensures var e := Act(s, c, if on then Show else Hide, shown).entry;
            e.Tiled? && c in Leaves(e.tree) && (Enabled(LeafOf(e.tree, c)) <==> on)
  {
    var (k, t) := Find(s, c);
    var u := if on then Enable(k, t, shown).t else Disable(k, t, shown).t;
    EnterErased(k, t, !on, shown);
    assert u == Enter(k, t, !on, shown).t;
    EnterLeaves(k, t, !on, shown);
    LeavesOfPlug(k, t);
    ErasedPlace(u, c, Climbed(k, !on), Erase(SetEnabled(t, on)));
    EraseKeeps(LeafOf(u, c));
  }

  lemma EnterLeaves<C>(k: ViewCtx<C>, t: View<C>, hidden: bool, shown: bool)
    requires t.Leaf?
    ensures Leaves(Enter(k, t, hidden, shown).t) == Leaves(Plug(k, t))
  {
    var leaf := SetEnabled(t, !hidden);
    if hidden { DisableCalm(k, t, shown); } else { EnableCalm(k, t, shown); }
    CalmOfPlug(k, leaf);
    CalmErase(Enter(k, t, hidden, shown).t);
    CalmErase(Plug(k, leaf));
    LeavesOfPlug(k, t);
    LeavesOfPlug(k, leaf);
  }

  // ---- the orientation ----

  /** In `whole` the node above the hole of `k` divides the other side; the rest is as it was but for boxes. */
  ghost predicate Turned<C>(k: ViewCtx<C>, t: View<C>, u: View<C>, whole: View<C>)
    requires k.In?
  {
    && whole == Plug(k.up, u) && u.Inner? && u.a.orient != k.a.orient
    && Erase(u.(a := u.a.(orient := k.a.orient))) == Erase(Join(k.side, k.a, t, k.sib))
  }

  /** Toggling turns exactly the node above the leaf, and a leaf without such a node stays as it is. */
  lemma ToggleFlips<C>(k: ViewCtx<C>, t: View<C>, shown: bool)
    ensures if k.Top? then Toggle(k, t, shown) == t else exists u :: Turned(k, t, u, Toggle(k, t, shown))
  {
    if k.In? {
      var parent := Join(k.side, k.a.(orient := Flip(k.a.orient)), t, k.sib);
      UpdateErases(parent, shown);
      assert Turned(k, t, Update(parent, shown), Toggle(k, t, shown));
    }
  }

  lemma ToggleErased<C>(k: ViewCtx<C>, t: View<C>, u: View<C>, whole: View<C>)
    requires k.In? && Turned(k, t, u, whole)
    ensures Erase(whole) == Plug(EraseCtx(k.(a := k.a.(orient := u.a.orient))), Erase(t))
  {
    EraseOfPlug(k.up, u);
    assert Erase(u) == Erase(Join(k.side, k.a.(orient := u.a.orient), t, k.sib));
  }

  /** Toggling twice gives the tree back, but for boxes. */
  lemma ToggleTwice<C>(k: ViewCtx<C>, t: View<C>, shown: bool)
    requires t.Leaf? && Distinct(Leaves(Plug(k, t)))
    ensures var once := Toggle(k, t, shown);
            && Leaves(once) == Leaves(Plug(k, t)) && t.c in Leaves(once)
            && Erase(Toggle(Locate(once, t.c), LeafOf(once, t.c), shown)) == Erase(Plug(k, t))
  {
    var once := Toggle(k, t, shown);
    LeavesOfPlug(k, t);
    EraseOfPlug(k, t);
    SameLeaves(Plug(k, t));
    SameLeaves(once);
    if k.Top? {
      LocateIsUnique(k, t);
    } else {
      ToggleFlips(k, t, shown);
      var u :| Turned(k, t, u, once);
      ToggleErased(k, t, u, once);
      var kt := k.(a := k.a.(orient := u.a.orient));
      LeavesOfPlug(EraseCtx(kt), Erase(t));
      LeavesOfPlug(EraseCtx(k), Erase(t));
      assert Leaves(once) == Leaves(Plug(k, t));
      var (k', t') := (Locate(once, t.c), LeafOf(once, t.c));
      ErasedPlace(once, t.c, kt, Erase(t));
      ToggleFlips(k', t', shown);
      var u' :| Turned(k', t', u', Toggle(k', t', shown));
      ToggleErased(k', t', u', Toggle(k', t', shown));
    }
  }

  lemma SameLeaves<C>(t: View<C>)
    ensures Leaves(Erase(t)) == Leaves(t)
  {
    CalmErase(t);
    CalmErase(Erase(t));
    IdemErase(t);
  }

  lemma {:induction false} IdemErase<C>(t: View<C>)
    ensures Erase(Erase(t)) == Erase(t)
  {
    match t
    case Leaf(_, _) =>
    case Inner(_, l, r) =>
      IdemErase(l);
      IdemErase(r);
  }

  /** The place of a container is told by the tree without boxes. */
  lemma ErasedPlace<C>(u: View<C>, c: C, k: ViewCtx<C>, leaf: View<C>)
    requires c in Leaves(u) && Distinct(Leaves(u)) && leaf.Leaf? && leaf.c == c
    requires Erase(u) == Plug(EraseCtx(k), leaf)
    ensures EraseCtx(Locate(u, c)) == EraseCtx(k) && Erase(LeafOf(u, c)) == leaf
  {
    LocatePlugs(u, c);
    SameLeaves(u);
    EraseOfPlug(Locate(u, c), LeafOf(u, c));
    LocateIsUnique(EraseCtx(Locate(u, c)), Erase(LeafOf(u, c)));
    LocateIsUnique(EraseCtx(k), leaf);
  }

  // ---- what a layout moves ----

  function Gap(a: real, b: real): real {
    if a >= b then a - b else b - a
  }

  /** Of the factors between 0.05 and 0.95 the one taken is the nearest. */
  lemma ClampMeans(f: real, q: real)
    requires 0.05 <= q <= 0.95
    ensures 0.05 <= Clamp(f) <= 0.95 && Gap(Clamp(f), f) <= Gap(q, f)
  {
  }

  /** `part` is the fraction `fact` of `whole`, but for less than a pixel. */
  predicate PartOf(part: int, whole: int, fact: real) {
    part as real <= whole as real * fact < (part + 1) as real
  }

  lemma ScaleMeans(n: nat, fact: real)
    requires Fraction(fact)
    ensures PartOf(Scale(n, fact), n, fact)
  {
    Between(n as real, fact);
    TruncMeans(n as real * fact);
  }

  /** The first of two children gets its part of the box, at the left or at the top, and the second the rest. */
  lemma SharesInProportion(b: Box, orient: Orient, fact: real)
    requires b.width >= 0 && b.height >= 0 && Fraction(fact)
    ensures var (l, r) := Shares(b, orient, fact, true, true);
            && (l.x, l.y) == (b.x, b.y)
            && (if orient.Horizontal? then
                  && PartOf(l.width, b.width, fact) && l.height == r.height == b.height
                  && r.x == l.x + l.width && r.y == l.y && l.width + r.width == b.width
                else
                  && PartOf(l.height, b.height, fact) && l.width == r.width == b.width
                  && r.y == l.y + l.height && r.x == l.x && l.height + r.height == b.height)
  {
    ScaleMeans(b.width, fact);
    ScaleMeans(b.height, fact);
  }

  /** The window keeps its box, or gets that of its leaf because it is tiled and shown. */
  predicate Spared(p: Pane, p': Pane, shown: bool) {
    p'.win == p.win || (p.allowed && !p.floating && shown && p'.win == p'.box)
  }

  lemma {:induction false} PlaceSpares<C>(t: View<C>, b: Box, shown: bool, c: C)
    requires c in Leaves(t)
    ensures Leaves(Place(t, b, shown)) == Leaves(t)
    ensures var (u, u') := (LeafOf(t, c), LeafOf(Place(t, b, shown), c));
            && u.Leaf? && u'.Leaf? && Spared(u.p, u'.p, shown)
            && (!u.p.enabled ==> u'.p.win == u.p.win)
    decreases t
  {
    LocatePlugs(t, c);
    PlaceErases(t, b, shown);
    SameLeaves(t);
    SameLeaves(Place(t, b, shown));
    match t
    case Leaf(_, _) =>
    case Inner(a, l, r) =>
      var (lb, rb) := Shares(b, a.orient, a.fact, Enabled(l), Enabled(r));
      PlaceErases(l, lb, shown);
      SameLeaves(l);
      SameLeaves(Place(l, lb, shown));
      if a.enabled {
        if c in Leaves(l) { PlaceSpares(l, lb, shown, c); } else { PlaceSpares(r, rb, shown, c); }
      }
  }

  /** A layout moves no window that floats, does not accept tiled geometry, or is not shown. */
  lemma LayoutSpares<C>(t: View<C>, area: Box, shown: bool, c: C)
    requires c in Leaves(t)
    ensures Leaves(UpdateRoot(t, area, shown)) == Leaves(t)
    ensures var (u, u') := (LeafOf(t, c), LeafOf(UpdateRoot(t, area, shown), c));
            && u.Leaf? && u'.Leaf? && Spared(u.p, u'.p, shown)
            && (t.Inner? && !u.p.enabled ==> u'.p.win == u.p.win)
  {
    if t.Inner? {
      PlaceSpares(Inner(t.a.(enabled := true), t.l, t.r), area, shown, c);
    }
  }

  // ---- requests ----

  /** Windows that are in both trees have the same boxes in both. */
  ghost predicate Kept<C>(t: View<C>, u: View<C>) {
    forall c :: c in Leaves(t) && c in Leaves(u) ==> SameSpot(LeafOf(t, c), LeafOf(u, c))
  }

  predicate SameSpot<C>(t: View<C>, u: View<C>) {
    t.Leaf? && u.Leaf? && t.p.box == u.p.box && t.p.win == u.p.win
  }

  lemma {:induction false} KeptInside<C>(k: ViewCtx<C>, t: View<C>, u: View<C>)
    requires Kept(t, u) && forall c :: c in Leaves(t) ==> c in Leaves(u)
    requires forall c :: c in Leaves(u) && c !in Leaves(t) ==> c !in Leaves(Plug(k, t))
    ensures Kept(Plug(k, t), Plug(k, u))
  {
    match k
    case Top =>
    case In(side, a, sib, up) =>
      var (t', u') := (Join(side, a, t, sib), Join(side, a, u, sib));
      LeavesOfPlug(up, t');
      forall c | c in Leaves(sib) ensures LeafOf(sib, c).Leaf? { LocatePlugs(sib, c); }
      KeptInside(up, t', u');
  }

  lemma SelfKept<C>(t: View<C>)
    ensures Kept(t, t)
  {
    forall c | c in Leaves(t) ensures LeafOf(t, c).Leaf? { LocatePlugs(t, c); }
  }

  /** When disabling climbs to an inner node, the tree is laid out below its parent, or hidden altogether. */
  lemma {:induction false} ClimbIsLaid<C>(k: ViewCtx<C>, t: View<C>, shown: bool)
    requires t.Inner?
    ensures !Disable(k, t, shown).scheduled
  {
    match k
    case Top =>
    case In(side, a, sib, up) => ClimbIsLaid(up, Join(side, a, SetEnabled(t, false), sib), shown);
  }

  lemma ActAskedStill<C>(s: State<C>, c: C, action: Action, shown: bool)
    requires Shaped(s.entry) && Present(s, c) && !s.pending && Act(s, c, action, shown).pending
    ensures Act(s, c, action, shown).entry.Tiled? && Kept(s.entry.tree, Act(s, c, action, shown).entry.tree)
  {
    var (k, t) := Find(s, c);
    match action
    case Drop => AskedStillDrop(k, t);
    case Show =>
      EnableUpBox(k, t);
      PlugBox(k, t, t);
    case Hide =>
      if k.In? { ClimbIsLaid(k.up, Join(k.side, k.a, SetEnabled(t, false), k.sib), shown); }
      KeptInside(k, t, SetEnabled(t, false));
    case Rotate =>
    case Resize(f) =>
      SelfKept(k.sib);
      KeptInside(k.up, Join(k.side, k.a, t, k.sib), Join(k.side, k.a.(fact := Clamp(f)), t, k.sib));
    case Focus =>
    case Mark(allowed, floating) => KeptInside(k, t, Marked(t, allowed, floating));
  }

  lemma AskedStillDrop<C>(k: ViewCtx<C>, t: View<C>)
    requires k.In? && k.up.Top? && t.Leaf? && Distinct(Leaves(Plug(k, t)))
    ensures Kept(Plug(k, t), k.sib)
  {
    SelfKept(k.sib);
    LeavesOfPlug(k, t);
    var all := Leaves(Plug(k, t));
    forall c | c in Leaves(k.sib) ensures c != t.c {
      var i :| 0 <= i < |Leaves(k.sib)| && Leaves(k.sib)[i] == c;
      if k.side.Left? { assert all[0] == t.c && all[i + 1] == c; } else { assert all[i] == c && all[|all| - 1] == t.c; }
    }
  }

  /** A step asks for a layout only when it has moved no window itself. */
  lemma AskedStill<C>(s: State<C>, op: Op<C>, area: Box, shown: bool)
    requires Shaped(s.entry) && !s.pending && Apply(s, op, area, shown).pending
    ensures s.entry.Tiled? && Apply(s, op, area, shown).entry.Tiled?
    ensures Kept(s.entry.tree, Apply(s, op, area, shown).entry.tree)
  {
    match op
    case Add(g, side) =>
      var (k, t) := Find(s, s.entry.focus);
      var grown := Join(side, NewCut(k.Top?, BoxOf(t), area), SetEnabled(g.Node(), false), t);
      ClimbIsLaid(k, grown, shown);
      if !g.Hidden() {
        var kg := InsertCtx(k, t, side, area);
        EnableUpBox(kg, g.Node());
        PlugBox(kg, g.Node(), g.Node());
      }
      KeptInside(k, t, grown);
    case On(c, action) => ActAskedStill(s, c, action, shown);
    case Flush =>
  }
}

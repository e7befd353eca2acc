/** One workspace in BSP mode as a state machine, and what every run of it keeps. */
module BspRuns {
  import opened Lists
  import opened Geometry
  import opened BspTree
  import opened BspLayout
  import opened BspOps

  // ---- layout kept up to date by partial updates ----

  lemma {:induction false} SettledReplace<C>(k: ViewCtx<C>, t: View<C>, u: View<C>, shown: bool)
    requires Settled(Plug(k, t), shown)
    requires Enabled(t) == Enabled(u) && BoxOf(t) == BoxOf(u)
    requires Settled(t, shown) ==> Settled(u, shown)
    ensures Settled(Plug(k, u), shown)
    ensures BoxOf(Plug(k, u)) == BoxOf(Plug(k, t)) && Enabled(Plug(k, u)) == Enabled(Plug(k, t))
  {
    match k
    case Top =>
    case In(side, a, sib, up) =>
      SettledReplace(up, Join(side, a, t, sib), Join(side, a, u, sib), shown);
  }

  lemma {:induction false} EnableUpBox<C>(k: ViewCtx<C>, t: View<C>)
    ensures BoxOf(EnableUp(k, t)) == BoxOf(Plug(k, t)) && EnableUp(k, t).Leaf? == Plug(k, t).Leaf?
  {
    match k
    case Top =>
    case In(side, a, sib, up) =>
      EnableUpBox(up, Join(side, a, SetEnabled(t, true), sib));
      PlugBox(k, t, t);
      PlugBox(up, Join(side, a, SetEnabled(t, true), sib), Join(side, a, t, sib));
  }

  lemma {:induction false} PlugBox<C>(k: ViewCtx<C>, t: View<C>, u: View<C>)
    requires BoxOf(t) == BoxOf(u)
    ensures BoxOf(Plug(k, t)) == BoxOf(Plug(k, u))
    ensures k.In? ==> Plug(k, t).Inner? && Plug(k, u).Inner?
  {
    match k
    case Top =>
    case In(side, a, sib, up) => PlugBox(up, Join(side, a, t, sib), Join(side, a, u, sib));
  }

  /** The children that are enabled have the boxes their parent gives them. */
  predicate Joint<C>(a: Cut, l: View<C>, r: View<C>) {
    var (lb, rb) := Shares(a.box, a.orient, a.fact, Enabled(l), Enabled(r));
    (Enabled(l) ==> BoxOf(l) == lb) && (Enabled(r) ==> BoxOf(r) == rb)
  }

  /** Whether a node with flag `e` in the hole is visible, or the root. */
  predicate Looked<C>(k: ViewCtx<C>, e: bool) {
    k.In? ==> e && Looked(k.up, k.a.enabled)
  }

  /** What a settled tree becomes when a part is replaced by one with the same flag and box. */
  lemma {:induction false} SettledReplacing<C>(k: ViewCtx<C>, t: View<C>, u: View<C>, shown: bool)
    requires Settled(Plug(k, t), shown) && Enabled(t) == Enabled(u) && BoxOf(t) == BoxOf(u)
    ensures Settled(Plug(k, u), shown) <==> (Looked(k, Enabled(t)) ==> Settled(u, shown))
    ensures Looked(k, Enabled(t)) ==> Settled(t, shown)
    ensures BoxOf(Plug(k, u)) == BoxOf(Plug(k, t))
  {
    match k
    case Top =>
    case In(side, a, sib, up) => SettledReplacing(up, Join(side, a, t, sib), Join(side, a, u, sib), shown);
  }

  /** The tree occupies the usable area, and what is visible is where a full layout puts it. */
  predicate InPlace<C>(t: View<C>, area: Box, shown: bool) {
    match t
    case Leaf(p, _) => p.enabled && p.allowed ==> p.box == area && (!p.floating && shown ==> p.win == area)
    case Inner(a, _, _) => a.box == area && Settled(t, shown)
  }

  /** A tree in place looks the same after another root update. */
  lemma InPlaceIsFixed<C>(t: View<C>, area: Box, shown: bool)
    requires InPlace(t, area, shown)
    ensures Picture(UpdateRoot(t, area, shown)) == Picture(t)
  {
    match t
    case Leaf(_, _) =>
    case Inner(a, _, _) => if a.enabled { SettledIsFixed(t, shown); }
  }

  lemma UpdateRootInPlace<C>(t: View<C>, area: Box, shown: bool)
    ensures InPlace(UpdateRoot(t, area, shown), area, shown)
  {
    match t
    case Leaf(_, _) =>
    case Inner(a, l, r) => UpdateSettles(Inner(a.(box := area), l, r), shown);
  }

  lemma EnableInPlace<C>(k: ViewCtx<C>, t: View<C>, area: Box, shown: bool)
    requires Plug(k, t).Inner? ==> BoxOf(Plug(k, t)) == area
    ensures Enable(k, t, shown).scheduled || InPlace(Enable(k, t, shown).t, area, shown)
  {
    EnableUpBox(k, t);
    var u := EnableUp(k, t);
    if u.Inner? { UpdateSettles(u, shown); }
  }

  /** Updating only the parent of the topmost newly disabled node is enough. */
  lemma {:induction false} DisableInPlace<C>(k: ViewCtx<C>, was: View<C>, t: View<C>, area: Box, shown: bool)
    requires InPlace(Plug(k, was), area, shown)
    requires if k.In? then BoxOf(was) == BoxOf(t) else t.Inner? ==> BoxOf(t) == area
    requires t.Inner? ==> !Enabled(t.l) && !Enabled(t.r)
    ensures Disable(k, t, shown).scheduled || InPlace(Disable(k, t, shown).t, area, shown)
    decreases k
  {
    match k
    case Top =>
    case In(side, a, sib, up) =>
      var parent := Join(side, a, SetEnabled(t, false), sib);
      PlugBox(k, was, was);
      if !Enabled(sib) {
        DisableInPlace(up, Join(side, a, was, sib), parent, area, shown);
      } else if t.Inner? {
        UpdateSettles(parent, shown);
        SettledReplace(up, Join(side, a, was, sib), Update(parent, shown), shown);
        PlugBox(up, parent, Update(parent, shown));
      }
  }

  lemma RemoveInPlace<C>(k: ViewCtx<C>, t: View<C>, area: Box, shown: bool)
    requires k.In? && InPlace(Plug(k, t), area, shown)
    ensures Remove(k, true, shown).scheduled || InPlace(Remove(k, true, shown).t, area, shown)
  {
    match k.up
    case Top =>
    case In(side, a, sib, up) =>
      var was := Join(side, a, Join(k.side, k.a, t, k.sib), sib);
      var grandparent := Join(side, a, k.sib, sib);
      UpdateSettles(grandparent, shown);
      PlugBox(k, t, t);
      PlugBox(up, was, Update(grandparent, shown));
      if up.In? { PlugBox(up, grandparent, grandparent); }
      SettledReplace(up, was, Update(grandparent, shown), shown);
  }

  lemma ToggleInPlace<C>(k: ViewCtx<C>, t: View<C>, area: Box, shown: bool)
    requires InPlace(Plug(k, t), area, shown)
    ensures InPlace(Toggle(k, t, shown), area, shown)
  {
    match k
    case Top =>
    case In(side, a, sib, up) =>
      var was, parent := Join(side, a, t, sib), Join(side, a.(orient := Flip(a.orient)), t, sib);
      UpdateSettles(parent, shown);
      PlugBox(k, t, t);
      PlugBox(up, was, Update(parent, shown));
      SettledReplace(up, was, Update(parent, shown), shown);
  }

  // ---- runs ----

  /** The tree of a workspace with the container that was focused last, or nothing. */
  datatype Entry<C> = Vacant | Tiled(tree: View<C>, focus: C)

  /** `pending`: a full layout of the workspace has been scheduled. */
  datatype State<C> = State(entry: Entry<C>, pending: bool)

  datatype Op<C> =
    | Add(guest: Guest<C>, side: Side)  // insert next to the focused container
    | On(c: C, action: Action)
    | Flush                             // the idle callback lays the workspace out

  /** What is done to a container of the tree; a change of container state is always scheduled. */
  datatype Action =
    | Drop
    | Show
    | Hide
    | Rotate
    | Resize(fact: real)
    | Focus
    | Mark(allowed: bool, floating: bool)

  function Clamp(f: real): real {
    if f < 0.05 then 0.05 else if f > 0.95 then 0.95 else f
  }

  function SetFactor<C>(k: ViewCtx<C>, t: View<C>, f: real): View<C> {
    match k
    case Top => t
    case In(side, a, sib, up) => Plug(up, Join(side, a.(fact := Clamp(f)), t, sib))
  }

  /** The first container of a workspace is laid out at once. */
  function First<C>(g: Guest<C>, area: Box, shown: bool): View<C> {
    UpdateRoot(g.Node(), area, shown)
  }

  ghost predicate Present<C>(s: State<C>, c: C) {
    s.entry.Tiled? && c in Leaves(s.entry.tree)
  }

  /** Inserting a container that already has a node is refused. */
  ghost function Apply<C>(s: State<C>, op: Op<C>, area: Box, shown: bool): State<C>
  {
    match op
    case Add(g, side) =>
      if Present(s, g.c) || (s.entry.Tiled? && !Present(s, s.entry.focus)) then s
      else if s.entry.Vacant? then State(Tiled(First(g, area, shown), g.c), s.pending)
      else Added(s, g, side, area, shown)
    case On(c, action) =>
      if Present(s, c) then Act(s, c, action, shown) else s
    case Flush =>
      if s.entry.Vacant? then State(Vacant, false)
      else State(Tiled(UpdateRoot(s.entry.tree, area, shown), s.entry.focus), false)
  }

  /** Insertion next to the focused container. */
  ghost function Added<C>(s: State<C>, g: Guest<C>, side: Side, area: Box, shown: bool): State<C>
    requires s.entry.Tiled? && Present(s, s.entry.focus)
  {
    var (k, t) := Find(s, s.entry.focus);
    Result(s, Insert(k, t, g, side, area, shown), g.c)
  }

  ghost function Act<C>(s: State<C>, c: C, action: Action, shown: bool): State<C>
    requires Present(s, c)
  {
    var (k, t) := Find(s, c);
    var focus := s.entry.focus;
    match action
    case Drop => Removed(s, c, true, shown)
    case Show => Result(s, Enable(k, t, shown), focus)
    case Hide => Result(s, Disable(k, t, shown), focus)
    case Rotate => Result(s, Outcome(Toggle(k, t, shown), false), focus)
    case Resize(f) => if k.Top? then s else Result(s, Outcome(SetFactor(k, t, f), true), focus)
    case Focus => Result(s, Outcome(s.entry.tree, false), c)
    case Mark(allowed, floating) => Result(s, Outcome(Plug(k, Marked(t, allowed, floating)), true), focus)
  }

  ghost function Removed<C>(s: State<C>, c: C, update: bool, shown: bool): State<C>
    requires Present(s, c)
  {
    var k := Find(s, c).0;
    if k.Top? then State(Vacant, s.pending)
    else Result(s, Remove(k, update, shown), if s.entry.focus == c then Heir(k) else s.entry.focus)
  }

  function Marked<C>(t: View<C>, allowed: bool, floating: bool): View<C>
    requires t.Leaf?
  {
    Leaf(t.p.(allowed := allowed, floating := floating), t.c)
  }

  function Result<C>(s: State<C>, out: Outcome<C>, focus: C): State<C> {
    State(Tiled(out.t, focus), s.pending || out.scheduled)
  }

  ghost function Find<C>(s: State<C>, c: C): (r: (ViewCtx<C>, View<C>))
    requires Present(s, c)
    ensures r.1.Leaf? && r.1.c == c && Plug(r.0, r.1) == s.entry.tree
  {
    LocatePlugs(s.entry.tree, c);
    (Locate(s.entry.tree, c), LeafOf(s.entry.tree, c))
  }

  /** No container twice, the focus inside the tree, and factors that divide. */
  ghost predicate Shaped<C>(e: Entry<C>) {
    e.Tiled? ==>
      && Distinct(Leaves(e.tree))
      && e.focus in Leaves(e.tree)
      && FactorsOk(e.tree)
  }

  predicate Flagged<C>(e: Entry<C>, strict: bool) {
    e.Tiled? ==> Flags(e.tree, strict)
  }

  /** No visible window is out of place without a full layout on its way. */
  predicate Fresh<C>(s: State<C>, area: Box, shown: bool) {
    s.entry.Tiled? && !s.pending ==> InPlace(s.entry.tree, area, shown)
  }

  // ---- each step ----

  lemma {:induction false} FactorsOfPlug<C>(k: ViewCtx<C>, t: View<C>, u: View<C>)
    requires FactorsOk(Plug(k, t))
    ensures FactorsOk(t)
    ensures FactorsOk(u) ==> FactorsOk(Plug(k, u))
    ensures k.In? ==> FactorsOk(k.sib) && FactorsOk(Plug(k.up, k.sib)) && Fraction(k.a.fact)
  {
    match k
    case Top =>
    case In(side, a, sib, up) =>
      FactorsOfPlug(up, Join(side, a, t, sib), Join(side, a, u, sib));
      FactorsOfPlug(up, Join(side, a, t, sib), sib);
  }

  /** Trees that differ in geometry and flags only are equally well shaped. */
  lemma CalmShaped<C>(t: View<C>, u: View<C>, focus: C)
    requires Calm(t) == Calm(u) && Shaped(Tiled(t, focus))
    ensures Shaped(Tiled(u, focus)) && Leaves(u) == Leaves(t)
  {
    CalmErase(t);
    CalmErase(u);
  }

  /** Replacing a leaf by a leaf of the same container. */
  lemma ReplaceShaped<C>(k: ViewCtx<C>, t: View<C>, u: View<C>, focus: C)
    requires t.Leaf? && u.Leaf? && t.c == u.c && Shaped(Tiled(Plug(k, t), focus))
    ensures Shaped(Tiled(Plug(k, u), focus))
  {
    LeavesOfPlug(k, t);
    LeavesOfPlug(k, u);
    FactorsOfPlug(k, t, u);
  }

  lemma RemovedDistinct<T>(before: seq<T>, c: T, after: seq<T>)
    requires Distinct(before + [c] + after)
    ensures Distinct(before + after)
    ensures forall x :: x in before + [c] + after && x != c ==> x in before + after
  {
    var was, now := before + [c] + after, before + after;
    assert forall i :: 0 <= i < |before| ==> now[i] == was[i];
    assert forall i :: |before| <= i < |now| ==> now[i] == was[i + 1];
  }

  lemma AddShaped<C>(s: State<C>, g: Guest<C>, side: Side, area: Box, shown: bool)
    requires Shaped(s.entry) && !Present(s, g.c)
    ensures Shaped(Apply(s, Add(g, side), area, shown).entry)
  {
    if s.entry.Tiled? {
      var (k, t) := Find(s, s.entry.focus);
      var k', leaf := InsertCtx(k, t, side, area), SetEnabled(g.Node(), !g.Hidden());
      InsertCalm(k, t, g, side, area, shown);
      InsertLeaves(k, t, g, side, area, shown);
      LeavesOfPlug(k, t);
      InsertedDistinct(Before(k), t.c, g.c, After(k), side.Right?);
      CalmOfPlug(k', leaf);
      FactorsOfPlug(k, t, Join(side, k'.a, leaf, t));
      assert FactorsOk(leaf) && FactorsOk(t) && Fraction(k'.a.fact);
      assert FactorsOk(Join(side, k'.a, leaf, t));
      CalmErase(Plug(k', leaf));
      CalmErase(Insert(k, t, g, side, area, shown).t);
    }
  }

  lemma DropShaped<C>(s: State<C>, c: C, shown: bool)
    requires Shaped(s.entry) && Present(s, c)
    ensures Shaped(Act(s, c, Drop, shown).entry)
  {
    var (k, t) := Find(s, c);
    if k.In? {
      LeavesOfPlug(k, t);
      HeirIsNeighbour(k, t);
      RemovedDistinct(Before(k), c, After(k));
      RemoveLeaves(k, true, shown);
      RemoveCalm(k, true, shown);
      CalmOfPlug(k.up, k.sib);
      FactorsOfPlug(k, t, t);
      CalmErase(Plug(k.up, k.sib));
      CalmErase(Remove(k, true, shown).t);
      assert Heir(k) != c;
    }
  }

  lemma ActShaped<C>(s: State<C>, c: C, action: Action, shown: bool)
    requires Shaped(s.entry) && Present(s, c)
    ensures Shaped(Act(s, c, action, shown).entry)
  {
    var (k, t) := Find(s, c);
    var focus := s.entry.focus;
    match action
    case Drop => DropShaped(s, c, shown);
    case Show =>
      ReplaceShaped(k, t, SetEnabled(t, true), focus);
      EnableCalm(k, t, shown);
      CalmOfPlug(k, SetEnabled(t, true));
      CalmShaped(Plug(k, SetEnabled(t, true)), Enable(k, t, shown).t, focus);
    case Hide =>
      ReplaceShaped(k, t, SetEnabled(t, false), focus);
      DisableCalm(k, t, shown);
      CalmOfPlug(k, SetEnabled(t, false));
      CalmShaped(Plug(k, SetEnabled(t, false)), Disable(k, t, shown).t, focus);
    case Rotate =>
      if k.In? {
        var a' := k.a.(orient := Flip(k.a.orient));
        FactorsOfPlug(k, t, t);
        AnnotateShaped(k, t, a', focus);
        var parent := Join(k.side, a', t, k.sib);
        UpdateCalm(parent, shown);
        CalmOfPlug(k.up, parent);
        CalmOfPlug(k.up, Update(parent, shown));
        CalmShaped(Plug(k.up, parent), Toggle(k, t, shown), focus);
      }
    case Resize(f) => if k.In? { AnnotateShaped(k, t, k.a.(fact := Clamp(f)), focus); }
    case Focus =>
    case Mark(allowed, floating) => ReplaceShaped(k, t, Marked(t, allowed, floating), focus);
  }

  lemma AnnotateShaped<C>(k: ViewCtx<C>, t: View<C>, a: Cut, focus: C)
    requires k.In? && Shaped(Tiled(Plug(k, t), focus)) && Fraction(a.fact)
    ensures Shaped(Tiled(Plug(k.up, Join(k.side, a, t, k.sib)), focus))
  {
    LeavesOfPlug(k.up, Join(k.side, k.a, t, k.sib));
    LeavesOfPlug(k.up, Join(k.side, a, t, k.sib));
    FactorsOfPlug(k.up, Join(k.side, k.a, t, k.sib), Join(k.side, a, t, k.sib));
  }

  lemma UpdateRootCalm<C>(t: View<C>, area: Box, shown: bool)
    ensures Calm(UpdateRoot(t, area, shown)) == Calm(t)
    ensures Erase(UpdateRoot(t, area, shown)) == Erase(t)
  {
    match t
    case Leaf(_, _) =>
    case Inner(a, l, r) =>
      UpdateCalm(Inner(a.(box := area), l, r), shown);
      UpdateErases(Inner(a.(box := area), l, r), shown);
  }

  lemma ApplyShaped<C>(s: State<C>, op: Op<C>, area: Box, shown: bool)
    requires Shaped(s.entry)
    ensures Shaped(Apply(s, op, area, shown).entry)
  {
    match op
    case Add(g, side) => if !Present(s, g.c) { AddShaped(s, g, side, area, shown); }
    case On(c, action) => if Present(s, c) { ActShaped(s, c, action, shown); }
    case Flush =>
      if s.entry.Tiled? {
        UpdateRootCalm(s.entry.tree, area, shown);
        CalmShaped(s.entry.tree, UpdateRoot(s.entry.tree, area, shown), s.entry.focus);
      }
  }

  /** The one step that can leave a stale flag: removing the last enabled node below a grandparent. */
  ghost predicate Stales<C>(s: State<C>, op: Op<C>) {
    && op.On? && op.action.Drop? && Present(s, op.c)
    && var (k, t) := Find(s, op.c);
       k.In? && !RemovalClean(k, t)
  }

  lemma ActFlagged<C>(s: State<C>, c: C, action: Action, shown: bool, strict: bool)
    requires Shaped(s.entry) && Present(s, c) && Flagged(s.entry, strict)
    ensures Flagged(Act(s, c, action, shown).entry, strict) <==> !(strict && Stales(s, On(c, action)))
  {
    var (k, t) := Find(s, c);
    FlagsOfPlug(k, t, strict);
    AroundSiblings(k, Enabled(t), strict);
    AroundReady(k, Enabled(t), strict);
    match action
    case Drop =>
      if k.In? {
        if strict { RemoveFlagsExactly(k, t, true, shown); } else { RemoveFlags(k, t, true, shown); }
      }
    case Show => EnableFlags(k, t, shown, strict);
    case Hide => DisableFlags(k, t, shown, strict);
    case Rotate =>
      if k.In? {
        var parent := Join(k.side, k.a.(orient := Flip(k.a.orient)), t, k.sib);
        UpdateFlags(parent, shown, strict);
        FlagsOfPlug(k.up, Update(parent, shown), strict);
      }
    case Resize(f) =>
      if k.In? { FlagsOfPlug(k.up, Join(k.side, k.a.(fact := Clamp(f)), t, k.sib), strict); }
    case Focus =>
    case Mark(allowed, floating) => FlagsOfPlug(k, Marked(t, allowed, floating), strict);
  }

  /**
   Every step keeps "an enabled node has an enabled parent"; every step keeps "enabled if and
   only if a child is enabled" exactly when it is not a removal that leaves a stale flag.
   */
  lemma ApplyFlagged<C>(s: State<C>, op: Op<C>, area: Box, shown: bool, strict: bool)
    requires Shaped(s.entry) && Flagged(s.entry, strict)
    ensures Flagged(Apply(s, op, area, shown).entry, strict) <==> !(strict && Stales(s, op))
  {
    match op
    case Add(g, side) =>
      if !Present(s, g.c) && s.entry.Tiled? {
        var (k, t) := Find(s, s.entry.focus);
        InsertFlags(k, t, g, side, area, shown, strict);
      }
    case On(c, action) => if Present(s, c) { ActFlagged(s, c, action, shown, strict); }
    case Flush =>
      if s.entry.Tiled? {
        UpdateRootCalm(s.entry.tree, area, shown);
        FlagsErase(s.entry.tree, strict);
        FlagsErase(UpdateRoot(s.entry.tree, area, shown), strict);
      }
  }

  lemma AddFresh<C>(s: State<C>, g: Guest<C>, side: Side, area: Box, shown: bool)
    requires Shaped(s.entry) && Fresh(s, area, shown) && !Present(s, g.c)
    ensures Fresh(Apply(s, Add(g, side), area, shown), area, shown)
  {
    if s.entry.Tiled? && !s.pending {
      var (k, t) := Find(s, s.entry.focus);
      var k' := InsertCtx(k, t, side, area);
      if g.Hidden() {
        if !Enabled(t) {
          DisableInPlace(k, t, Join(side, k'.a, SetEnabled(g.Node(), false), t), area, shown);
        }
      } else {
        if k.In? {
          PlugBox(k, t, t);
          PlugBox(k, t, Join(side, k'.a, g.Node(), t));
        }
        EnableInPlace(k', g.Node(), area, shown);
      }
    }
  }

  lemma ApplyFresh<C>(s: State<C>, op: Op<C>, area: Box, shown: bool)
    requires Shaped(s.entry) && Fresh(s, area, shown)
    ensures Fresh(Apply(s, op, area, shown), area, shown)
  {
    match op
    case Add(g, side) => if !Present(s, g.c) { AddFresh(s, g, side, area, shown); }
    case Flush => if s.entry.Tiled? { UpdateRootInPlace(s.entry.tree, area, shown); }
    case On(c, action) =>
      if Present(s, c) && !s.pending {
        var (k, t) := Find(s, c);
        match action
        case Drop => if k.In? { RemoveInPlace(k, t, area, shown); }
        case Show => EnableInPlace(k, t, area, shown);
        case Hide => DisableInPlace(k, t, t, area, shown);
        case Rotate => ToggleInPlace(k, t, area, shown);
        case Resize(_) =>
        case Focus =>
        case Mark(_, _) =>
      }
  }

  lemma {:induction false} ExactNoStale<C>(t: View<C>)
    requires Flags(t, true)
    ensures NoStaleNode(t)
  {
    match t
    case Leaf(_, _) =>
    case Inner(_, l, r) =>
      ExactNoStale(l);
      ExactNoStale(r);
  }

  function Window(on: bool, box: Box, c: nat): View<nat> {
    Leaf(Pane(on, box, true, false, box), c)
  }

  /**
   A stale flag leaves a hole: next to window 0 a hidden window 1 and, over it, window 2 beside
   a hidden window 3. When 2 is closed, 1 and 3 keep the place although none of them is shown.
   */
  lemma StaleHole(area: Box, fact: real, shown: bool, px: int, py: int)
    requires Fraction(fact) && area.width >= 0 && area.height >= 0
    requires area.Has(px, py) && px >= area.x + Scale(area.width, fact)
    ensures var (k, t) := (StaleCtx(area, fact), Window(true, area, 2));
            && Flags(Plug(k, t), true) && !RemovalClean(k, t)
            && !Flags(Remove(k, true, shown).t, true)
            && Owners(UpdateRoot(Remove(k, true, shown).t, area, shown), px, py) == 0
  {
    var (cut, k) := (Cut(true, area, Horizontal, fact), StaleCtx(area, fact));
    var (first, second, third) := (Window(true, area, 0), Window(false, area, 1), Window(false, area, 3));
    var (parent, top) := (Inner(cut, Window(true, area, 2), third), In(Right, cut, first, Top));
    assert k.up == In(Right, cut, second, top);
    assert Plug(top, Inner(cut, second, parent)) == Inner(cut, first, Inner(cut, second, parent));
    assert Plug(k, Window(true, area, 2)) == Plug(k.up, parent) == Inner(cut, first, Inner(cut, second, parent));
    assert Flags(third, true) && Flags(second, true) && Flags(Window(true, area, 2), true);
    assert Flags(parent, true) && Flags(Inner(cut, second, parent), true);
    var left := Update(Inner(cut, second, third), shown);
    assert Remove(k, true, shown).t == Plug(top, left) == Inner(cut, first, left);
    assert !Enabled(left.l) && !Enabled(left.r);
    var t := UpdateRoot(Inner(cut, first, left), area, shown);
    assert t.l == Place(first, Shares(area, Horizontal, fact, true, true).0, shown);
    assert t.r == Place(left, Shares(area, Horizontal, fact, true, true).1, shown);
    PlaceKeepsFlag(left.l, BoxOf(t.r), shown);
    PlaceKeepsFlag(left.r, BoxOf(t.r), shown);
    assert t.r == Inner(cut.(box := BoxOf(t.r)), Place(left.l, BoxOf(t.r), shown), Place(left.r, BoxOf(t.r), shown));
    assert Owners(t.r.l, px, py) == 0 && Owners(t.r.r, px, py) == 0;
    assert Owners(t.r, px, py) == 0 && Owners(t.l, px, py) == 0;
  }

  function StaleCtx(area: Box, fact: real): ViewCtx<nat> {
    var cut := Cut(true, area, Horizontal, fact);
    In(Left, cut, Window(false, area, 3),
       In(Right, cut, Window(false, area, 1), In(Right, cut, Window(true, area, 0), Top)))
  }
}

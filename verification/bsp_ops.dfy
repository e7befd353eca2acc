/** The operations on a BSP tree, on values, at a node given by its surroundings. */
module BspOps {
  import opened Lists
  import opened Geometry
  import opened BspTree
  import opened BspLayout

  /** The tree after an operation; `scheduled` when the layout is left to the idle callback. */
  datatype Outcome<C> = Outcome(t: View<C>, scheduled: bool)

  function SetEnabled<C>(t: View<C>, enabled: bool): View<C> {
    match t
    case Leaf(p, c) => Leaf(p.(enabled := enabled), c)
    case Inner(a, l, r) => Inner(a.(enabled := enabled), l, r)
  }

  /** Enables a node and all its ancestors; the result is the whole tree. */
  function EnableUp<C>(k: ViewCtx<C>, t: View<C>): View<C> {
    match k
    case Top => SetEnabled(t, true)
    case In(side, a, sib, up) => EnableUp(up, Join(side, a, SetEnabled(t, true), sib))
  }

  function Enable<C>(k: ViewCtx<C>, t: View<C>, shown: bool): Outcome<C> {
    var u := EnableUp(k, t);
    if u.Inner? then Outcome(Update(u, shown), false) else Outcome(u, true)
  }

  /** Disables a node, and then every ancestor left without an enabled child. */
  function Disable<C>(k: ViewCtx<C>, t: View<C>, shown: bool): Outcome<C>
    decreases k
  {
    var u := SetEnabled(t, false);
    match k
    case Top => Outcome(u, t.Leaf?)
    case In(side, a, sib, up) =>
      var parent := Join(side, a, u, sib);
      if !Enabled(sib) then Disable(up, parent, shown)
      else if t.Inner? then Outcome(Plug(up, Update(parent, shown)), false)
      else Outcome(Plug(up, parent), true)
  }

  /** The state of a container that is being inserted; `minimized` also stands for floating. */
  datatype Guest<C> = Guest(c: C, allowed: bool, minimized: bool, win: Box) {
    predicate Hidden() { !allowed || minimized }

    function Node(): View<C> {
      Leaf(Pane(true, ORIGIN, allowed, false, win), c)
    }
  }

  /** The node created over the insertion sibling: the longer side of its box is divided. */
  function NewCut(isRoot: bool, was: Box, area: Box): Cut {
    Cut(true, if isRoot then area else was, if was.width >= was.height then Horizontal else Vertical, 0.5)
  }

  function InsertCtx<C>(k: ViewCtx<C>, sib: View<C>, side: Side, area: Box): ViewCtx<C> {
    In(side, NewCut(k.Top?, BoxOf(sib), area), sib, k)
  }

  /** A hidden container enters the tree disabled, any other one enabled. */
  function Enter<C>(k: ViewCtx<C>, t: View<C>, hidden: bool, shown: bool): Outcome<C> {
    if hidden then Disable(k, t, shown) else Enable(k, t, shown)
  }

  function Insert<C>(k: ViewCtx<C>, sib: View<C>, g: Guest<C>, side: Side, area: Box, shown: bool): Outcome<C> {
    Enter(InsertCtx(k, sib, side, area), g.Node(), g.Hidden(), shown)
  }

  /** Removes the node in the hole of `k`: its sibling takes the place of its parent. */
  function Remove<C>(k: ViewCtx<C>, update: bool, shown: bool): Outcome<C>
    requires k.In?
  {
    match k.up
    case Top => Outcome(k.sib, update)
    case In(side, a, sib, up) =>
      var grandparent := Join(side, a, k.sib, sib);
      Outcome(Plug(up, if update then Update(grandparent, shown) else grandparent), false)
  }

  function Flip(orient: Orient): Orient {
    if orient.Horizontal? then Vertical else Horizontal
  }

  /** Flips the parent of a leaf; a leaf without parent is left alone. */
  function Toggle<C>(k: ViewCtx<C>, t: View<C>, shown: bool): View<C> {
    match k
    case Top => t
    case In(side, a, sib, up) => Plug(up, Update(Join(side, a.(orient := Flip(a.orient)), t, sib), shown))
  }

  // ---- enabled flags ----

  /** What a flag owes to the flags below it; `strict` also forbids stale flags. */
  predicate FlagOk(parent: bool, left: bool, right: bool, strict: bool) {
    && (left || right ==> parent)
    && (strict && parent ==> left || right)
  }

  /**
   With `strict` false: an enabled node has an enabled parent. With `strict` true: an inner
   node is enabled if and only if one of its children is.
   */
  predicate Flags<C>(t: View<C>, strict: bool) {
    t.Inner? ==>
      && FlagOk(t.a.enabled, Enabled(t.l), Enabled(t.r), strict)
      && Flags(t.l, strict)
      && Flags(t.r, strict)
  }

  /** The same around a hole that holds a node with flag `e`. */
  predicate FlagsAround<C>(k: ViewCtx<C>, e: bool, strict: bool) {
    match k
    case Top => true
    case In(_, a, sib, up) =>
      && Flags(sib, strict)
      && FlagOk(a.enabled, e, Enabled(sib), strict)
      && FlagsAround(up, a.enabled, strict)
  }

  lemma {:induction false} FlagsOfPlug<C>(k: ViewCtx<C>, t: View<C>, strict: bool)
    ensures Flags(Plug(k, t), strict) <==> Flags(t, strict) && FlagsAround(k, Enabled(t), strict)
  {
    match k
    case Top =>
    case In(side, a, sib, up) =>
      FlagsOfPlug(up, Join(side, a, t, sib), strict);
  }

  lemma {:induction false} FlagsErase<C>(t: View<C>, strict: bool)
    ensures Flags(Erase(t), strict) == Flags(t, strict)
    ensures Enabled(Erase(t)) == Enabled(t)
  {
    match t
    case Leaf(_, _) =>
    case Inner(_, l, r) =>
      FlagsErase(l, strict);
      FlagsErase(r, strict);
  }

  lemma UpdateFlags<C>(t: View<C>, shown: bool, strict: bool)
    requires t.Inner?
    ensures Flags(Update(t, shown), strict) == Flags(t, strict)
    ensures Enabled(Update(t, shown)) == Enabled(t)
  {
    UpdateErases(t, shown);
    FlagsErase(t, strict);
    FlagsErase(Update(t, shown), strict);
  }

  /** Whatever the flags of the ancestors were, enabling a leaf repairs all of them. */
  predicate SiblingsOk<C>(k: ViewCtx<C>, strict: bool) {
    k.In? ==> Flags(k.sib, strict) && SiblingsOk(k.up, strict)
  }

  lemma {:induction false} AroundSiblings<C>(k: ViewCtx<C>, e: bool, strict: bool)
    requires FlagsAround(k, e, strict)
    ensures SiblingsOk(k, strict)
  {
    match k
    case Top =>
    case In(_, a, _, up) => AroundSiblings(up, a.enabled, strict);
  }

  lemma {:induction false} EnableUpFlags<C>(k: ViewCtx<C>, t: View<C>, strict: bool)
    requires SiblingsOk(k, strict) && Flags(SetEnabled(t, true), strict)
    ensures Flags(EnableUp(k, t), strict) && Enabled(EnableUp(k, t))
  {
    match k
    case Top =>
    case In(side, a, sib, up) =>
      EnableUpFlags(up, Join(side, a, SetEnabled(t, true), sib), strict);
  }

  lemma EnableFlags<C>(k: ViewCtx<C>, t: View<C>, shown: bool, strict: bool)
    requires t.Leaf? && SiblingsOk(k, strict)
    ensures Flags(Enable(k, t, shown).t, strict)
  {
    EnableUpFlags(k, t, strict);
    var u := EnableUp(k, t);
    if u.Inner? { UpdateFlags(u, shown, strict); }
  }

  /** What disabling needs: above the first enabled sibling the flags are in order. */
  predicate DisableReady<C>(k: ViewCtx<C>, strict: bool) {
    match k
    case Top => true
    case In(_, a, sib, up) =>
      && Flags(sib, strict)
      && (if Enabled(sib) then a.enabled && FlagsAround(up, true, strict) else DisableReady(up, strict))
  }

  lemma {:induction false} AroundReady<C>(k: ViewCtx<C>, e: bool, strict: bool)
    requires FlagsAround(k, e, strict)
    ensures DisableReady(k, strict)
  {
    match k
    case Top =>
    case In(_, a, sib, up) => if !Enabled(sib) { AroundReady(up, a.enabled, strict); }
  }

  lemma {:induction false} DisableFlags<C>(k: ViewCtx<C>, t: View<C>, shown: bool, strict: bool)
    requires DisableReady(k, strict) && Flags(SetEnabled(t, false), strict)
    ensures Flags(Disable(k, t, shown).t, strict)
    decreases k
  {
    match k
    case Top =>
    case In(side, a, sib, up) =>
      var parent := Join(side, a, SetEnabled(t, false), sib);
      if !Enabled(sib) {
        DisableFlags(up, parent, shown, strict);
      } else {
        UpdateFlags(parent, shown, strict);
        FlagsOfPlug(up, Update(parent, shown), strict);
        FlagsOfPlug(up, parent, strict);
      }
  }

  lemma InsertFlags<C>(k: ViewCtx<C>, sib: View<C>, g: Guest<C>, side: Side, area: Box, shown: bool, strict: bool)
    requires Flags(Plug(k, sib), strict)
    ensures Flags(Insert(k, sib, g, side, area, shown).t, strict)
  {
    FlagsOfPlug(k, sib, strict);
    AroundSiblings(k, Enabled(sib), strict);
    AroundReady(k, Enabled(sib), strict);
    if g.Hidden() {
      DisableFlags(InsertCtx(k, sib, side, area), g.Node(), shown, strict);
    } else {
      EnableFlags(InsertCtx(k, sib, side, area), g.Node(), shown, strict);
    }
  }

  /** Removal never leaves an enabled node below a disabled one. */
  lemma RemoveFlags<C>(k: ViewCtx<C>, t: View<C>, update: bool, shown: bool)
    requires k.In? && Flags(Plug(k, t), false)
    ensures Flags(Remove(k, update, shown).t, false)
  {
    FlagsOfPlug(k, t, false);
    match k.up
    case Top =>
    case In(side, a, sib, up) =>
      var grandparent := Join(side, a, k.sib, sib);
      UpdateFlags(grandparent, shown, false);
      FlagsOfPlug(up, Update(grandparent, shown), false);
      FlagsOfPlug(up, grandparent, false);
  }

  /**
   When a removal keeps "enabled if and only if a child is enabled": unless the removed node
   was the only enabled node below its grandparent.
   */
  predicate RemovalClean<C>(k: ViewCtx<C>, t: View<C>)
    requires k.In?
  {
    k.up.In? && Enabled(t) ==> Enabled(k.sib) || Enabled(k.up.sib)
  }

  lemma RemoveFlagsExactly<C>(k: ViewCtx<C>, t: View<C>, update: bool, shown: bool)
    requires k.In? && Flags(Plug(k, t), true)
    ensures Flags(Remove(k, update, shown).t, true) <==> RemovalClean(k, t)
  {
    FlagsOfPlug(k, t, true);
    match k.up
    case Top =>
    case In(side, a, sib, up) =>
      var grandparent := Join(side, a, k.sib, sib);
      UpdateFlags(grandparent, shown, true);
      FlagsOfPlug(up, Update(grandparent, shown), true);
      FlagsOfPlug(up, grandparent, true);
  }

  // ---- what no operation on flags can change ----

  /** The tree without geometry and without the flags of inner nodes. */
  function Calm<C>(t: View<C>): View<C> {
    match t
    case Leaf(p, c) => Leaf(p.(box := ORIGIN, win := ORIGIN), c)
    case Inner(a, l, r) => Inner(a.(box := ORIGIN, enabled := false), Calm(l), Calm(r))
  }

  function CalmCtx<C>(k: ViewCtx<C>): ViewCtx<C> {
    match k
    case Top => Top
    case In(side, a, sib, up) => In(side, a.(box := ORIGIN, enabled := false), Calm(sib), CalmCtx(up))
  }

  lemma {:induction false} CalmOfPlug<C>(k: ViewCtx<C>, t: View<C>)
    ensures Calm(Plug(k, t)) == Plug(CalmCtx(k), Calm(t))
  {
    match k
    case Top =>
    case In(side, a, sib, up) => CalmOfPlug(up, Join(side, a, t, sib));
  }

  lemma {:induction false} CalmErase<C>(t: View<C>)
    ensures Calm(Erase(t)) == Calm(t) && Leaves(Calm(t)) == Leaves(t)
    ensures FactorsOk(Calm(t)) == FactorsOk(t)
  {
    match t
    case Leaf(_, _) =>
    case Inner(_, l, r) =>
      CalmErase(l);
      CalmErase(r);
  }

  lemma UpdateCalm<C>(t: View<C>, shown: bool)
    requires t.Inner?
    ensures Calm(Update(t, shown)) == Calm(t)
  {
    UpdateErases(t, shown);
    CalmErase(t);
    CalmErase(Update(t, shown));
  }

  lemma {:induction false} EnableUpCalm<C>(k: ViewCtx<C>, t: View<C>)
    ensures Calm(EnableUp(k, t)) == Plug(CalmCtx(k), Calm(SetEnabled(t, true)))
  {
    match k
    case Top =>
    case In(side, a, sib, up) => EnableUpCalm(up, Join(side, a, SetEnabled(t, true), sib));
  }

  lemma EnableCalm<C>(k: ViewCtx<C>, t: View<C>, shown: bool)
    ensures Calm(Enable(k, t, shown).t) == Plug(CalmCtx(k), Calm(SetEnabled(t, true)))
  {
    EnableUpCalm(k, t);
    var u := EnableUp(k, t);
    if u.Inner? { UpdateCalm(u, shown); }
  }

  lemma {:induction false} DisableCalm<C>(k: ViewCtx<C>, t: View<C>, shown: bool)
    ensures Calm(Disable(k, t, shown).t) == Plug(CalmCtx(k), Calm(SetEnabled(t, false)))
    decreases k
  {
    match k
    case Top =>
    case In(side, a, sib, up) =>
      var parent := Join(side, a, SetEnabled(t, false), sib);
      if !Enabled(sib) {
        DisableCalm(up, parent, shown);
      } else {
        UpdateCalm(parent, shown);
        CalmOfPlug(up, Update(parent, shown));
        CalmOfPlug(up, parent);
      }
  }

  lemma InsertCalm<C>(k: ViewCtx<C>, sib: View<C>, g: Guest<C>, side: Side, area: Box, shown: bool)
    ensures Calm(Insert(k, sib, g, side, area, shown).t)
         == Plug(CalmCtx(InsertCtx(k, sib, side, area)), Calm(SetEnabled(g.Node(), !g.Hidden())))
  {
    EnableCalm(InsertCtx(k, sib, side, area), g.Node(), shown);
    DisableCalm(InsertCtx(k, sib, side, area), g.Node(), shown);
  }

  lemma RemoveCalm<C>(k: ViewCtx<C>, update: bool, shown: bool)
    requires k.In?
    ensures Calm(Remove(k, update, shown).t) == Plug(CalmCtx(k.up), Calm(k.sib))
  {
    match k.up
    case Top =>
    case In(side, a, sib, up) =>
      var grandparent := Join(side, a, k.sib, sib);
      UpdateCalm(grandparent, shown);
      CalmOfPlug(up, Update(grandparent, shown));
      CalmOfPlug(up, grandparent);
  }

  // ---- flags recomputed from the leaves ----

  /** The flags that follow from the leaves: a node is enabled when some leaf below it is. */
  function FromLeaves<C>(t: View<C>): View<C> {
    match t
    case Leaf(_, _) => t
    case Inner(a, l, r) =>
      var (l', r') := (FromLeaves(l), FromLeaves(r));
      Inner(a.(enabled := Enabled(l') || Enabled(r')), l', r')
  }

  lemma {:induction false} FromLeavesIsExact<C>(t: View<C>)
    ensures Flags(FromLeaves(t), true) && Calm(FromLeaves(t)) == Calm(t)
  {
    match t
    case Leaf(_, _) =>
    case Inner(_, l, r) =>
      FromLeavesIsExact(l);
      FromLeavesIsExact(r);
  }

  /** Exact flags are determined by the leaves. */
  lemma {:induction false} ExactIsUnique<C>(t: View<C>, u: View<C>)
    requires Flags(t, true) && Flags(u, true) && Calm(t) == Calm(u)
    ensures Erase(t) == Erase(u) && Enabled(t) == Enabled(u)
  {
    match t
    case Leaf(_, _) =>
    case Inner(_, l, r) =>
      ExactIsUnique(l, u.l);
      ExactIsUnique(r, u.r);
  }

  /**
   On a tree whose flags follow from its leaves, climbing from one leaf gives exactly the
   flags recomputed from all leaves, and nothing else but geometry changes.
   */
  lemma EnableRecomputes<C>(k: ViewCtx<C>, t: View<C>, shown: bool)
    requires t.Leaf? && Flags(Plug(k, t), true)
    ensures Erase(Enable(k, t, shown).t) == Erase(FromLeaves(Plug(k, SetEnabled(t, true))))
  {
    FlagsOfPlug(k, t, true);
    AroundSiblings(k, Enabled(t), true);
    EnableFlags(k, t, shown, true);
    EnableCalm(k, t, shown);
    CalmOfPlug(k, SetEnabled(t, true));
    FromLeavesIsExact(Plug(k, SetEnabled(t, true)));
    ExactIsUnique(Enable(k, t, shown).t, FromLeaves(Plug(k, SetEnabled(t, true))));
  }

  lemma DisableRecomputes<C>(k: ViewCtx<C>, t: View<C>, shown: bool)
    requires t.Leaf? && Flags(Plug(k, t), true)
    ensures Erase(Disable(k, t, shown).t) == Erase(FromLeaves(Plug(k, SetEnabled(t, false))))
  {
    FlagsOfPlug(k, t, true);
    AroundReady(k, Enabled(t), true);
    DisableFlags(k, t, shown, true);
    DisableCalm(k, t, shown);
    CalmOfPlug(k, SetEnabled(t, false));
    FromLeavesIsExact(Plug(k, SetEnabled(t, false)));
    ExactIsUnique(Disable(k, t, shown).t, FromLeaves(Plug(k, SetEnabled(t, false))));
  }

  // ---- focus and leaf order ----

  /** The container that inherits the focus when the focused node in the hole of `k` is removed. */
  function Heir<C>(k: ViewCtx<C>): C
    requires k.In?
  {
    Outermost(k.sib, k.side)
  }

  /** The heir is a neighbour in leaf order: the one before a right child, the one after a left child. */
  lemma HeirIsNeighbour<C>(k: ViewCtx<C>, t: View<C>)
    requires k.In? && t.Leaf?
    ensures var all, i := Leaves(Plug(k, t)), |Before(k)|;
            && i < |all| && all[i] == t.c
            && (k.side.Right? ==> i > 0 && all[i - 1] == Heir(k))
            && (k.side.Left? ==> i + 1 < |all| && all[i + 1] == Heir(k))
  {
    LeavesOfPlug(k, t);
    OutermostIsEnd(k.sib, k.side);
  }

  /** Removal takes exactly one container out of the leaf order. */
  lemma RemoveLeaves<C>(k: ViewCtx<C>, update: bool, shown: bool)
    requires k.In?
    ensures Leaves(Remove(k, update, shown).t) == Before(k) + After(k)
  {
    RemoveCalm(k, update, shown);
    CalmOfPlug(k.up, k.sib);
    CalmErase(Plug(k.up, k.sib));
    CalmErase(Remove(k, update, shown).t);
    LeavesOfPlug(k.up, k.sib);
  }

  /** Insertion puts the container next to its sibling, on the side asked for. */
  lemma InsertLeaves<C>(k: ViewCtx<C>, sib: View<C>, g: Guest<C>, side: Side, area: Box, shown: bool)
    requires sib.Leaf?
    ensures Leaves(Insert(k, sib, g, side, area, shown).t)
         == Before(k) + (if side.Right? then [sib.c, g.c] else [g.c, sib.c]) + After(k)
  {
    var k', leaf := InsertCtx(k, sib, side, area), SetEnabled(g.Node(), !g.Hidden());
    InsertCalm(k, sib, g, side, area, shown);
    CalmOfPlug(k', leaf);
    CalmErase(Plug(k', leaf));
    CalmErase(Insert(k, sib, g, side, area, shown).t);
    LeavesOfPlug(k', leaf);
  }

  // ---- what insertion and removal do to the flags around ----

  function EraseCtx<C>(k: ViewCtx<C>): ViewCtx<C> {
    match k
    case Top => Top
    case In(side, a, sib, up) => In(side, a.(box := ORIGIN), Erase(sib), EraseCtx(up))
  }

  /** All ancestors enabled. */
  function Raised<C>(k: ViewCtx<C>): ViewCtx<C> {
    match k
    case Top => Top
    case In(side, a, sib, up) => In(side, a.(enabled := true), sib, Raised(up))
  }

  /** The ancestors below the first enabled sibling disabled. */
  function Hushed<C>(k: ViewCtx<C>): ViewCtx<C> {
    match k
    case Top => Top
    case In(side, a, sib, up) => if Enabled(sib) then k else In(side, a.(enabled := false), sib, Hushed(up))
  }

  predicate Lit<C>(k: ViewCtx<C>) {
    k.In? ==> k.a.enabled && Lit(k.up)
  }

  /** Disabling what hangs there disables no ancestor that is not disabled already. */
  predicate Quiet<C>(k: ViewCtx<C>) {
    k.In? ==> Enabled(k.sib) || (!k.a.enabled && Quiet(k.up))
  }

  lemma {:induction false} EraseOfPlug<C>(k: ViewCtx<C>, t: View<C>)
    ensures Erase(Plug(k, t)) == Plug(EraseCtx(k), Erase(t))
  {
    match k
    case Top =>
    case In(side, a, sib, up) => EraseOfPlug(up, Join(side, a, t, sib));
  }

  lemma {:induction false} EnableRaises<C>(k: ViewCtx<C>, t: View<C>)
    ensures EnableUp(k, t) == Plug(Raised(k), SetEnabled(t, true))
  {
    match k
    case Top =>
    case In(side, a, sib, up) => EnableRaises(up, Join(side, a, SetEnabled(t, true), sib));
  }

  lemma {:induction false} DisableHushes<C>(k: ViewCtx<C>, t: View<C>, shown: bool)
    ensures Erase(Disable(k, t, shown).t) == Erase(Plug(Hushed(k), SetEnabled(t, false)))
    decreases k
  {
    match k
    case Top =>
    case In(side, a, sib, up) =>
      var parent := Join(side, a, SetEnabled(t, false), sib);
      if !Enabled(sib) {
        DisableHushes(up, parent, shown);
      } else {
        UpdateErases(parent, shown);
        EraseOfPlug(up, Update(parent, shown));
        EraseOfPlug(up, parent);
      }
  }

  /** The new leaf with the ancestors as the insertion leaves them. */
  function Climbed<C>(k: ViewCtx<C>, hidden: bool): ViewCtx<C> {
    if hidden then Hushed(k) else Raised(k)
  }

  lemma EnterErased<C>(k: ViewCtx<C>, t: View<C>, hidden: bool, shown: bool)
    ensures Erase(Enter(k, t, hidden, shown).t) == Plug(EraseCtx(Climbed(k, hidden)), Erase(SetEnabled(t, !hidden)))
  {
    EraseOfPlug(Climbed(k, hidden), SetEnabled(t, !hidden));
    if hidden {
      DisableHushes(k, t, shown);
    } else {
      EnableRaises(k, t);
      if EnableUp(k, t).Inner? { UpdateErases(EnableUp(k, t), shown); }
    }
  }

  lemma RemoveErased<C>(k: ViewCtx<C>, update: bool, shown: bool)
    requires k.In?
    ensures Erase(Remove(k, update, shown).t) == Plug(EraseCtx(k.up), Erase(k.sib))
  {
    match k.up
    case Top =>
    case In(side, a, sib, up) =>
      var grandparent := Join(side, a, k.sib, sib);
      UpdateErases(grandparent, shown);
      EraseOfPlug(up, Update(grandparent, shown));
      EraseOfPlug(up, grandparent);
  }

  /** The same steps down the same tree lead to the same place. */
  lemma {:induction false} PlugInjective<C>(k: ViewCtx<C>, k': ViewCtx<C>, t: View<C>, t': View<C>)
    requires CalmCtx(k) == CalmCtx(k')
    ensures Plug(k, t) == Plug(k', t') <==> k == k' && t == t'
  {
    match k
    case Top =>
    case In(side, a, sib, up) => PlugInjective(up, k'.up, Join(side, a, t, sib), Join(k'.side, k'.a, t', k'.sib));
  }

  lemma {:induction false} CalmEraseCtx<C>(k: ViewCtx<C>)
    ensures CalmCtx(EraseCtx(k)) == CalmCtx(k) == CalmCtx(Hushed(k)) == CalmCtx(Raised(k))
  {
    match k
    case Top =>
    case In(_, _, sib, up) =>
      CalmErase(sib);
      CalmEraseCtx(up);
  }

  lemma {:induction false} ErasedUnchanged<C>(k: ViewCtx<C>)
    ensures EraseCtx(Hushed(k)) == EraseCtx(k) <==> Quiet(k)
    ensures EraseCtx(Raised(k)) == EraseCtx(k) <==> Lit(k)
  {
    match k
    case Top =>
    case In(_, _, _, up) => ErasedUnchanged(up);
  }

  /** When every enabled node has an enabled parent, one enabled ancestor says it of all above it. */
  lemma {:induction false} LitFromParent<C>(k: ViewCtx<C>, e: bool)
    requires FlagsAround(k, e, false)
    ensures Lit(k) <==> k.Top? || k.a.enabled
  {
    match k
    case Top =>
    case In(_, a, _, up) => LitFromParent(up, a.enabled);
  }

  /** On a tree with exact flags that climb never finds anything to disable. */
  lemma {:induction false} ExactIsQuiet<C>(k: ViewCtx<C>, e: bool)
    requires FlagsAround(k, e, true)
    ensures e || Quiet(k)
  {
    match k
    case Top =>
    case In(_, a, sib, up) => ExactIsQuiet(up, a.enabled);
  }

  /** Where the container is after its insertion. */
  lemma InsertedAt<C>(k: ViewCtx<C>, sib: View<C>, g: Guest<C>, side: Side, area: Box, shown: bool)
    requires sib.Leaf? && Distinct(Leaves(Plug(k, sib))) && g.c !in Leaves(Plug(k, sib))
    ensures var u := Insert(k, sib, g, side, area, shown).t;
            && g.c in Leaves(u)
            && EraseCtx(Locate(u, g.c)) == EraseCtx(Climbed(InsertCtx(k, sib, side, area), g.Hidden()))
  {
    var u := Insert(k, sib, g, side, area, shown).t;
    var kg, leaf := Climbed(InsertCtx(k, sib, side, area), g.Hidden()), SetEnabled(g.Node(), !g.Hidden());
    InsertLeaves(k, sib, g, side, area, shown);
    LeavesOfPlug(k, sib);
    InsertedDistinct(Before(k), sib.c, g.c, After(k), side.Right?);
    assert Leaves(u)[|Before(k)| + if side.Right? then 1 else 0] == g.c;
    LocatePlugs(u, g.c);
    EnterErased(InsertCtx(k, sib, side, area), g.Node(), g.Hidden(), shown);
    EraseOfPlug(Locate(u, g.c), LeafOf(u, g.c));
    CalmErase(u);
    CalmErase(Erase(u));
    LocateIsUnique(EraseCtx(Locate(u, g.c)), Erase(LeafOf(u, g.c)));
    LocateIsUnique(EraseCtx(kg), Erase(leaf));
  }

  /**
   Insertion followed by removal of the same container, on any tree: shape, orientations, factors,
   order and leaf flags are those before, and the focus returns to the sibling. The flags of the
   inner nodes are those before if and only if, for a hidden guest, the sibling is enabled or the
   climb that disables finds nothing left to disable; for any other guest, the ancestors of the
   sibling were all enabled. Where enabled nodes have enabled parents, that is so when the sibling
   is enabled, and exactly when it is the root or its parent is enabled; where a node is enabled
   exactly when a child is, a hidden guest leaves no trace.
   */
  lemma InsertThenRemove<C>(k: ViewCtx<C>, sib: View<C>, g: Guest<C>, side: Side, area: Box, shown: bool, update: bool)
    requires sib.Leaf? && Distinct(Leaves(Plug(k, sib))) && g.c !in Leaves(Plug(k, sib))
    ensures var u := Insert(k, sib, g, side, area, shown).t;
            && g.c in Leaves(u)
            && var k' := Locate(u, g.c);
            && k'.In?
            && Calm(Remove(k', update, shown).t) == Calm(Plug(k, sib))
            && Heir(k') == sib.c
            && (Erase(Remove(k', update, shown).t) == Erase(Plug(k, sib)) <==>
                  (if g.Hidden() then Enabled(sib) || Quiet(k) else Lit(k)))
    ensures Flags(Plug(k, sib), false) ==> (Lit(k) <==> k.Top? || k.a.enabled) && (Enabled(sib) ==> Lit(k))
    ensures Flags(Plug(k, sib), true) ==> Enabled(sib) || Quiet(k)
  {
    InsertedAt(k, sib, g, side, area, shown);
    var kg := InsertCtx(k, sib, side, area);
    var k' := Locate(Insert(k, sib, g, side, area, shown).t, g.c);
    var (up, now) := (Climbed(kg, g.Hidden()).up, Remove(k', update, shown).t);
    assert up == if g.Hidden() then (if Enabled(sib) then k else Hushed(k)) else Raised(k);
    assert EraseCtx(k'.up) == EraseCtx(up) && Erase(k'.sib) == Erase(sib);
    RemoveErased(k', update, shown);
    EraseOfPlug(k, sib);
    CalmEraseCtx(k);
    CalmEraseCtx(up);
    PlugInjective(EraseCtx(up), EraseCtx(k), Erase(sib), Erase(sib));
    ErasedUnchanged(k);
    CalmErase(now);
    CalmErase(Plug(k, sib));
    CalmOfPlug(EraseCtx(up), Erase(sib));
    CalmOfPlug(EraseCtx(k), Erase(sib));
    FlagsOfPlug(k, sib, false);
    if Flags(Plug(k, sib), false) { LitFromParent(k, Enabled(sib)); }
    FlagsOfPlug(k, sib, true);
    if Flags(Plug(k, sib), true) { ExactIsQuiet(k, Enabled(sib)); }
  }

  lemma InsertedDistinct<T>(before: seq<T>, sib: T, guest: T, after: seq<T>, right: bool)
    requires Distinct(before + [sib] + after) && guest !in before + [sib] + after
    ensures Distinct(before + (if right then [sib, guest] else [guest, sib]) + after)
  {
    var was := before + [sib] + after;
    var now := before + (if right then [sib, guest] else [guest, sib]) + after;
    var n := |before| + if right then 1 else 0;
    assert now[n] == guest;
    assert forall i :: 0 <= i < n ==> now[i] == was[i];
    assert forall i :: n < i < |now| ==> now[i] == was[i - 1];
  }
}

/** Which containers the tree of a tag holds before and after each operation. */
module BspEntry {
  import opened Lists
  import opened Geometry
  import opened BspTree
  import opened BspLayout
  import opened BspOps
  import opened BspRuns

  ghost function Members<C>(e: Entry<C>): set<C> {
    match e
    case Vacant => {}
    case Tiled(t, _) => set c | c in Leaves(t)
  }

  /** The entry after an insertion next to the focus; a first container is only laid out in BSP mode. */
  ghost function Grown<C>(e: Entry<C>, g: Guest<C>, side: Side, area: Box, isBsp: bool, shown: bool): Entry<C> {
    if e.Vacant? && !isBsp then Tiled(g.Node(), g.c)
    else Apply(State(e, false), Add(g, side), area, shown).entry
  }

  ghost function Pruned<C>(e: Entry<C>, c: C, update: bool, shown: bool): Entry<C>
    requires c in Members(e)
  {
    Removed(State(e, false), c, update, shown).entry
  }

  /** The leaf has a grandparent. */
  ghost predicate Deep<C>(e: Entry<C>, c: C)
    requires c in Members(e)
  {
    var k := Find(State(e, false), c).0;
    k.In? && k.up.In?
  }

  /** Removal of a leaf by way of another entry than the one of its tree, whose focus is not looked at. */
  ghost function Blinded<C>(e: Entry<C>, c: C, shown: bool): Entry<C>
    requires c in Members(e) && Deep(e, c)
  {
    Tiled(Remove(Find(State(e, false), c).0, false, shown).t, e.focus)
  }

  lemma BlindedMembers<C>(e: Entry<C>, c: C, shown: bool)
    requires Shaped(e) && c in Members(e) && Deep(e, c)
    ensures Members(Blinded(e, c, shown)) == Members(e) - {c}
    ensures Shaped(Blinded(e, c, shown)) <==> e.focus != c
    ensures e.focus != c ==> Blinded(e, c, shown) == Pruned(e, c, false, shown)
  {
    PrunedMembers(e, c, false, shown);
  }

  lemma GrownMembers<C>(e: Entry<C>, g: Guest<C>, side: Side, area: Box, isBsp: bool, shown: bool)
    requires Shaped(e) && g.c !in Members(e)
    ensures Shaped(Grown(e, g, side, area, isBsp, shown))
    ensures Members(Grown(e, g, side, area, isBsp, shown)) == Members(e) + {g.c}
  {
    var s := State(e, false);
    if e.Tiled? {
      AddShaped(s, g, side, area, shown);
      var (k, t) := Find(s, e.focus);
      InsertLeaves(k, t, g, side, area, shown);
      LeavesOfPlug(k, t);
    }
  }

  lemma {:induction false} PlugInner<C>(k: ViewCtx<C>, t: View<C>)
    ensures Plug(k, t).Inner? <==> k.In? || t.Inner?
    decreases k
  {
    if k.In? { PlugInner(k.up, Join(k.side, k.a, t, k.sib)); }
  }

  /** A container is focused when it is inserted, and has a grandparent exactly when there were two before it. */
  lemma GrownDeep<C>(e: Entry<C>, g: Guest<C>, side: Side, area: Box, isBsp: bool, shown: bool)
    requires Shaped(e) && e.Tiled? && g.c !in Members(e)
    ensures var e' := Grown(e, g, side, area, isBsp, shown);
            && e'.Tiled? && e'.focus == g.c && e'.tree.Inner? && g.c in Members(e')
            && (Deep(e', g.c) <==> e.tree.Inner?)
  {
    var s := State(e, false);
    var (k, t) := Find(s, e.focus);
    var u := Insert(k, t, g, side, area, shown).t;
    InsertedAt(k, t, g, side, area, shown);
    var kg := Climbed(InsertCtx(k, t, side, area), g.Hidden());
    assert kg.up == if g.Hidden() then (if Enabled(t) then k else Hushed(k)) else Raised(k);
    assert EraseCtx(Locate(u, g.c).up) == EraseCtx(kg.up);
    PlugInner(k, t);
    LocatePlugs(u, g.c);
    PlugInner(Locate(u, g.c), LeafOf(u, g.c));
  }

  lemma PrunedMembers<C>(e: Entry<C>, c: C, update: bool, shown: bool)
    requires Shaped(e) && c in Members(e)
    ensures Shaped(Pruned(e, c, update, shown))
    ensures Members(Pruned(e, c, update, shown)) == Members(e) - {c}
  {
    var s := State(e, false);
    var (k, t) := Find(s, c);
    LeavesOfPlug(k, t);
    if k.In? {
      HeirIsNeighbour(k, t);
      RemoveLeaves(k, update, shown);
      DropShaped(s, c, shown);
      PrunedFactors(k, t, update, shown);
      OneLess(Before(k), c, After(k));
    }
  }

  lemma OneLess<C>(before: seq<C>, c: C, after: seq<C>)
    requires Distinct(before + [c] + after)
    ensures Distinct(before + after) && c !in before + after
    ensures forall x :: x in before + [c] + after <==> x == c || x in before + after
  {
    RemovedDistinct(before, c, after);
    var was, now := before + [c] + after, before + after;
    assert was[|before|] == c;
    assert forall i :: 0 <= i < |now| ==> now[i] == was[if i < |before| then i else i + 1];
  }

  lemma PrunedFactors<C>(k: ViewCtx<C>, t: View<C>, update: bool, shown: bool)
    requires k.In? && FactorsOk(Plug(k, t))
    ensures FactorsOk(Remove(k, update, shown).t)
  {
    RemoveCalm(k, update, shown);
    CalmOfPlug(k.up, k.sib);
    FactorsOfPlug(k, t, t);
    CalmErase(Plug(k.up, k.sib));
    CalmErase(Remove(k, update, shown).t);
  }

  /** Whatever else is done to a container leaves the members alone. */
  lemma ActMembers<C>(e: Entry<C>, c: C, action: Action, shown: bool)
    requires Shaped(e) && c in Members(e) && !action.Drop?
    ensures Shaped(Act(State(e, false), c, action, shown).entry)
    ensures Members(Act(State(e, false), c, action, shown).entry) == Members(e)
  {
    var s := State(e, false);
    ActShaped(s, c, action, shown);
    var (k, t) := Find(s, c);
    match action
    case Show =>
      EnableCalm(k, t, shown);
      CalmOfPlug(k, SetEnabled(t, true));
      SameMembers(k, t, SetEnabled(t, true), Enable(k, t, shown).t);
    case Hide =>
      DisableCalm(k, t, shown);
      CalmOfPlug(k, SetEnabled(t, false));
      SameMembers(k, t, SetEnabled(t, false), Disable(k, t, shown).t);
    case Rotate =>
      if k.In? {
        var parent := Join(k.side, k.a.(orient := Flip(k.a.orient)), t, k.sib);
        UpdateCalm(parent, shown);
        CalmOfPlug(k.up, parent);
        CalmOfPlug(k.up, Update(parent, shown));
        SameMembers(k.up, Join(k.side, k.a, t, k.sib), parent, Toggle(k, t, shown));
      }
    case Resize(f) =>
      if k.In? {
        var parent := Join(k.side, k.a.(fact := Clamp(f)), t, k.sib);
        SameMembers(k.up, Join(k.side, k.a, t, k.sib), parent, Plug(k.up, parent));
      }
    case Focus =>
    case Mark(allowed, floating) =>
      SameMembers(k, t, Marked(t, allowed, floating), Plug(k, Marked(t, allowed, floating)));
  }

  lemma SameMembers<C>(k: ViewCtx<C>, t: View<C>, u: View<C>, whole: View<C>)
    requires Leaves(u) == Leaves(t) && Calm(whole) == Calm(Plug(k, u))
    ensures Leaves(whole) == Leaves(Plug(k, t))
  {
    LeavesOfPlug(k, t);
    LeavesOfPlug(k, u);
    CalmErase(whole);
    CalmErase(Plug(k, u));
  }

  /** The tree laid out in its area, whatever is scheduled. */
  function Laid<C>(e: Entry<C>, area: Box, shown: bool): Entry<C> {
    if e.Vacant? then e else Tiled(UpdateRoot(e.tree, area, shown), e.focus)
  }

  lemma LaidKeeps<C>(e: Entry<C>, area: Box, shown: bool)
    ensures Members(Laid(e, area, shown)) == Members(e)
    ensures Shaped(Laid(e, area, shown)) <==> Shaped(e)
    ensures Flagged(Laid(e, area, shown), true) <==> Flagged(e, true)
    ensures Flagged(Laid(e, area, shown), false) <==> Flagged(e, false)
  {
    if e.Tiled? {
      var t := UpdateRoot(e.tree, area, shown);
      UpdateRootCalm(e.tree, area, shown);
      CalmErase(e.tree);
      CalmErase(t);
      FlagsErase(e.tree, true);
      FlagsErase(t, true);
      FlagsErase(e.tree, false);
      FlagsErase(t, false);
    }
  }
}

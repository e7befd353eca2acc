/** Windows of a tree that do not move: whatever is done while no layout is shown. */
module BspStill {
  import opened Lists
  import opened Geometry
  import opened BspTree
  import opened BspLayout
  import opened BspOps
  import opened BspRuns
  import opened BspEntry
  import opened BspQuiet
  import opened BspTag

  /** The containers from left to right, with the boxes their windows have. */
  function Wins<C>(t: View<C>): seq<(C, Box)> {
    match t
    case Leaf(p, c) => [(c, p.win)]
    case Inner(_, l, r) => Wins(l) + Wins(r)
  }

  function WinsBefore<C>(k: ViewCtx<C>): seq<(C, Box)> {
    match k
    case Top => []
    case In(side, _, sib, up) => WinsBefore(up) + if side.Right? then Wins(sib) else []
  }

  function WinsAfter<C>(k: ViewCtx<C>): seq<(C, Box)> {
    match k
    case Top => []
    case In(side, _, sib, up) => (if side.Left? then Wins(sib) else []) + WinsAfter(up)
  }

  lemma {:induction false} WinsOfPlug<C>(k: ViewCtx<C>, t: View<C>)
    ensures Wins(Plug(k, t)) == WinsBefore(k) + Wins(t) + WinsAfter(k)
  {
    match k
    case Top =>
    case In(side, a, sib, up) => WinsOfPlug(up, Join(side, a, t, sib));
  }

  lemma {:induction false} PlaceStill<C>(t: View<C>, b: Box)
    ensures Wins(Place(t, b, false)) == Wins(t)
    decreases t
  {
    match t
    case Leaf(_, _) =>
    case Inner(a, l, r) =>
      var (lb, rb) := Shares(b, a.orient, a.fact, Enabled(l), Enabled(r));
      PlaceStill(l, lb);
      PlaceStill(r, rb);
  }

  lemma UpdateStill<C>(t: View<C>)
    requires t.Inner?
    ensures Wins(Update(t, false)) == Wins(t)
  {
    var (lb, rb) := Shares(t.a.box, t.a.orient, t.a.fact, Enabled(t.l), Enabled(t.r));
    PlaceStill(t.l, lb);
    PlaceStill(t.r, rb);
  }

  lemma RootStill<C>(t: View<C>, area: Box)
    ensures Wins(UpdateRoot(t, area, false)) == Wins(t)
  {
    if t.Inner? { UpdateStill(Inner(t.a.(box := area), t.l, t.r)); }
  }

  lemma {:induction false} EnableUpStill<C>(k: ViewCtx<C>, t: View<C>)
    ensures Wins(EnableUp(k, t)) == Wins(Plug(k, t))
  {
    match k
    case Top =>
    case In(side, a, sib, up) =>
      EnableUpStill(up, Join(side, a, SetEnabled(t, true), sib));
      WinsOfPlug(up, Join(side, a, SetEnabled(t, true), sib));
      WinsOfPlug(k, t);
  }

  lemma EnableStill<C>(k: ViewCtx<C>, t: View<C>)
    ensures Wins(Enable(k, t, false).t) == Wins(Plug(k, t))
  {
    EnableUpStill(k, t);
    if EnableUp(k, t).Inner? { UpdateStill(EnableUp(k, t)); }
  }

  lemma SamePlugged<C>(k: ViewCtx<C>, t: View<C>, u: View<C>)
    requires Wins(t) == Wins(u)
    ensures Wins(Plug(k, t)) == Wins(Plug(k, u))
  {
    WinsOfPlug(k, t);
    WinsOfPlug(k, u);
  }

  lemma InsideStill<C>(k: ViewCtx<C>, t: View<C>)
    requires t.Inner?
    ensures Wins(Plug(k, Update(t, false))) == Wins(Plug(k, t))
  {
    UpdateStill(t);
    SamePlugged(k, t, Update(t, false));
  }

  lemma {:induction false} DisableStill<C>(k: ViewCtx<C>, t: View<C>)
    ensures Wins(Disable(k, t, false).t) == Wins(Plug(k, t))
    decreases k
  {
    match k
    case Top =>
    case In(side, a, sib, up) =>
      var parent := Join(side, a, SetEnabled(t, false), sib);
      SamePlugged(k, SetEnabled(t, false), t);
      InsideStill(up, parent);
      if !Enabled(sib) { DisableStill(up, parent); }
  }

  lemma RemoveStill<C>(k: ViewCtx<C>, update: bool, shown: bool)
    requires k.In? && !(update && shown)
    ensures Wins(Remove(k, update, shown).t) == WinsBefore(k) + WinsAfter(k)
  {
    if k.up.In? { InsideStill(k.up.up, Join(k.up.side, k.up.a, k.sib, k.up.sib)); }
    SiblingStays(k);
  }

  lemma SiblingStays<C>(k: ViewCtx<C>)
    requires k.In?
    ensures Wins(Plug(k.up, k.sib)) == WinsBefore(k) + WinsAfter(k)
  {
    WinsOfPlug(k.up, k.sib);
    if k.side.Left? {
      assert WinsBefore(k) == WinsBefore(k.up) && WinsAfter(k) == Wins(k.sib) + WinsAfter(k.up);
    } else {
      assert WinsBefore(k) == WinsBefore(k.up) + Wins(k.sib) && WinsAfter(k) == WinsAfter(k.up);
    }
  }

  lemma ToggleStill<C>(k: ViewCtx<C>, t: View<C>)
    ensures Wins(Toggle(k, t, false)) == Wins(Plug(k, t))
  {
    if k.In? {
      var parent := Join(k.side, k.a.(orient := Flip(k.a.orient)), t, k.sib);
      InsideStill(k.up, parent);
      SamePlugged(k.up, parent, Join(k.side, k.a, t, k.sib));
    }
  }

  lemma {:induction false} DraggedStill<C>(k: ViewCtx<C>, n: nat, fact: real)
    ensures WinsBefore(Dragged(k, n, fact)) == WinsBefore(k) && WinsAfter(Dragged(k, n, fact)) == WinsAfter(k)
  {
    if k.In? && n > 0 { DraggedStill(k.up, n - 1, fact); }
  }

  ghost function WinsOf<C>(e: Entry<C>): seq<(C, Box)> {
    if e.Vacant? then [] else Wins(e.tree)
  }

  /** All windows in `now` but perhaps `g` are in `was`, with the same box. */
  ghost predicate Unmoved<C>(was: seq<(C, Box)>, now: seq<(C, Box)>, g: set<(C, Box)>) {
    forall w :: w in now ==> w in was || w in g
  }

  /** What is done to a container without a layout. */
  predicate Silent(action: Action) {
    action.Resize? || action.Focus? || action.Mark?
  }

  lemma ActStill<C>(s: State<C>, c: C, action: Action, shown: bool)
    requires Present(s, c) && (shown ==> Silent(action))
    ensures Unmoved(WinsOf(s.entry), WinsOf(Act(s, c, action, shown).entry), {})
  {
    var (k, t) := Find(s, c);
    WinsOfPlug(k, t);
    match action
    case Drop => if k.In? { RemoveStill(k, true, false); }
    case Show => EnableStill(k, t);
    case Hide => DisableStill(k, t);
    case Rotate => ToggleStill(k, t);
    case Resize(f) => if k.In? { WinsOfPlug(k.up, Join(k.side, k.a.(fact := Clamp(f)), t, k.sib)); }
    case Focus =>
    case Mark(allowed, floating) => WinsOfPlug(k, Marked(t, allowed, floating));
  }

  lemma AddStill<C>(s: State<C>, g: Guest<C>, side: Side, area: Box)
    ensures Unmoved(WinsOf(s.entry), WinsOf(Apply(s, Add(g, side), area, false).entry), {(g.c, g.win)})
  {
    if s.entry.Tiled? && Present(s, s.entry.focus) {
      var (k, t) := Find(s, s.entry.focus);
      var kg := InsertCtx(k, t, side, area);
      WinsOfPlug(k, t);
      WinsOfPlug(kg, g.Node());
      EnableStill(kg, g.Node());
      DisableStill(kg, g.Node());
    } else {
      RootStill(g.Node(), area);
    }
  }

  lemma PrunedStill<C>(s: State<C>, c: C, shown: bool)
    requires Present(s, c)
    ensures Unmoved(WinsOf(s.entry), WinsOf(Pruned(s.entry, c, false, shown)), {})
  {
    var (k, t) := Find(s, c);
    WinsOfPlug(k, t);
    if k.In? { RemoveStill(k, false, shown); }
  }

  /** The window that an event brings into the tree. */
  ghost function Brought<C>(e: Event<C>): set<(C, Box)> {
    if e.Do? && e.op.Add? then {(e.op.guest.c, e.op.guest.win)} else {}
  }

  /** Tiled windows are not shown, or a layout is not due or only due in BSP mode. */
  predicate Unlaid<C>(d: Desk<C>, e: Event<C>) {
    || !d.at.shown || e.Leave? || e.Drag? || e.Change?
    || (e.Do? && e.op.On? && Silent(e.op.action))
    || (!d.at.isBsp && (e.Close? || (e.Do? && (e.op.Flush? || (e.op.Add? && d.s.entry.Vacant?)))))
  }

  /** Whatever happens to a tag without a layout that is shown, no window of its tree moves. */
  lemma StepStill<C>(d: Desk<C>, e: Event<C>)
    requires Unlaid(d, e)
    ensures Unmoved(WinsOf(d.s.entry), WinsOf(Step(d, e).s.entry), Brought(e))
  {
    match e
    case Do(Add(g, side)) => if !d.at.shown { AddStill(d.s, g, side, d.at.area); }
    case Do(On(c, action)) => if Present(d.s, c) { ActStill(d.s, c, action, d.at.shown); }
    case Do(Flush) =>
    case Close(c, _) => if Present(d.s, c) { PrunedStill(d.s, c, d.at.shown); }
    case Leave(c) => if Present(d.s, c) { PrunedStill(d.s, c, d.at.shown); }
    case Drag(c, n, fact, _) =>
      if Present(d.s, c) {
        var (k, t) := Find(d.s, c);
        DraggedStill(k, n, Clamp(fact));
        WinsOfPlug(k, t);
        WinsOfPlug(Dragged(k, n, Clamp(fact)), t);
      }
    case Change(_, _) =>
  }
}

/** A tag through its life: operations on its tree, and changes of what the tree is laid out in. */
module BspTag {
  import opened Lists
  import opened Geometry
  import opened BspTree
  import opened BspLayout
  import opened BspOps
  import opened BspRuns
  import opened BspEntry
  import opened BspQuiet

  /**
   What the layout of a tag depends on: the usable area of the output, the mode of the tag,
   whether it is the current tag, and whether its windows are `shown`, that is, the current tag is
   in BSP mode and this one does not float.
   */
  datatype Setting = Setting(area: Box, isBsp: bool, floats: bool, isCurrent: bool, shown: bool) {
    predicate Valid() {
      && !(isBsp && floats) && !(floats && shown)
      && (isCurrent ==> (shown <==> isBsp))
    }

    /** The tag is the current one, and in BSP mode. */
    predicate Live() { isCurrent && isBsp }

    /** A change to `to` asks for a layout of this tag. */
    predicate Asks(to: Setting) {
      (to.isCurrent && to != this) || to.isBsp != isBsp || to.floats != floats
    }
  }

  datatype Desk<C> = Desk(s: State<C>, at: Setting)

  /**
   `Close`: a container is destroyed, and the tag laid out at once if the container was tiled and
   not `skipped`, which it is when it was minimized or when it is taken for one of a lost output.
   `Leave`: it goes to another output. `Drag`: a cursor drags the line of the n-th ancestor of a
   container, and asks for a layout when the last time it did has `passed`. `serving`: the area
   changes while requests are served, when new ones are ignored.
   */
  datatype Event<C> =
    | Do(op: Op<C>)
    | Close(c: C, skipped: bool)
    | Leave(c: C)
    | Drag(c: C, n: nat, fact: real, passed: bool)
    | Change(to: Setting, serving: bool)

  /** A first container is laid out at once in BSP mode only, and so is the tree by the idle callback. */
  ghost function Done<C>(d: Desk<C>, op: Op<C>): State<C> {
    if op.Add? && d.s.entry.Vacant? && !d.at.isBsp then State(Tiled(op.guest.Node(), op.guest.c), d.s.pending)
    else if op.Flush? && !(d.at.isBsp && d.at.shown) then d.s.(pending := false)
    else Apply(d.s, op, d.at.area, d.at.shown)
  }

  predicate Legal<C>(d: Desk<C>, e: Event<C>) {
    e.Change? ==> e.to.Valid() && (e.serving ==> e.to == d.at.(area := e.to.area))
  }

  /** The tag of a destroyed container is laid out. */
  ghost predicate Relays<C>(d: Desk<C>, c: C, skipped: bool)
    requires Present(d.s, c)
  {
    var p := Find(d.s, c).1.p;
    !skipped && p.allowed && !p.floating && d.at.isBsp && d.at.shown
  }

  ghost function Closed<C>(d: Desk<C>, c: C, skipped: bool): State<C>
    requires Present(d.s, c)
  {
    var e := Pruned(d.s.entry, c, false, d.at.shown);
    d.s.(entry := if Relays(d, c, skipped) then Laid(e, d.at.area, d.at.shown) else e)
  }

  ghost function Departed<C>(d: Desk<C>, c: C): State<C>
    requires Present(d.s, c)
  {
    State(Pruned(d.s.entry, c, false, d.at.shown), d.s.pending || d.at.isCurrent)
  }

  ghost function Tugged<C>(d: Desk<C>, c: C, n: nat, fact: real, passed: bool): State<C>
    requires Present(d.s, c)
  {
    var (k, t) := Find(d.s, c);
    State(Tiled(Plug(Dragged(k, n, Clamp(fact)), t), d.s.entry.focus), d.s.pending || (passed && d.at.isCurrent))
  }

  /** An impossible change is refused, and a container that is not there left alone. */
  ghost function Step<C>(d: Desk<C>, e: Event<C>): Desk<C> {
    match e
    case Do(op) => d.(s := Done(d, op))
    case Close(c, skipped) => if Present(d.s, c) then d.(s := Closed(d, c, skipped)) else d
    case Leave(c) => if Present(d.s, c) then d.(s := Departed(d, c)) else d
    case Drag(c, n, fact, passed) => if Present(d.s, c) then d.(s := Tugged(d, c, n, fact, passed)) else d
    case Change(to, serving) =>
      if Legal(d, e) then Desk(d.s.(pending := d.s.pending || (!serving && d.at.Asks(to))), to) else d
  }

  /** While the tag is current and no layout is asked for, the screen is what a full layout would show. */
  predicate UpToDate<C>(d: Desk<C>) {
    d.at.Live() && d.s.entry.Tiled? && !d.s.pending ==> InPlace(d.s.entry.tree, d.at.area, true)
  }

  /** The area changes under the tag while requests are served, and no layout of the tag is queued. */
  predicate Drops<C>(d: Desk<C>, e: Event<C>) {
    && e.Change? && e.serving && Legal(d, e) && e.to.area != d.at.area
    && d.s.entry.Tiled?
    && (d.s.entry.tree.Leaf? ==> d.s.entry.tree.p.enabled && d.s.entry.tree.p.allowed)
  }

  /** A container is destroyed without a layout, and what is left does not fit as it is. */
  ghost predicate Gapes<C>(d: Desk<C>, e: Event<C>) {
    && e.Close? && Present(d.s, e.c) && !Relays(d, e.c, e.skipped)
    && var k := Find(d.s, e.c).0;
       k.In? && !Snug(k, d.at.area)
  }

  /** A line is dragged so far that the parts no longer fit, and no layout is asked for. */
  ghost predicate Slips<C>(d: Desk<C>, e: Event<C>) {
    && e.Drag? && Present(d.s, e.c) && !e.passed
    && var (k, t) := Find(d.s, e.c);
       !FitsStill(k, t, e.n, Clamp(e.fact))
  }

  /** The events that leave the screen out of date although no layout is asked for. */
  ghost predicate Lapses<C>(d: Desk<C>, e: Event<C>) {
    d.at.Live() && !d.s.pending && (Drops(d, e) || Gapes(d, e) || Slips(d, e))
  }

  ghost predicate Sound<C>(d: Desk<C>) {
    d.at.Valid() && Shaped(d.s.entry) && Flagged(d.s.entry, false)
  }

  /** The event leaves a stale flag: a removal of the last enabled node below a grandparent. */
  ghost predicate LeavesStale<C>(d: Desk<C>, e: Event<C>) {
    match e
    case Do(op) => Stales(d.s, op)
    case Close(c, _) => Stales(d.s, On(c, Action.Drop))
    case Leave(c) => Stales(d.s, On(c, Action.Drop))
    case _ => false
  }

  lemma PrunedSound<C>(s: State<C>, c: C, shown: bool)
    requires Shaped(s.entry) && Flagged(s.entry, false) && Present(s, c)
    ensures var e := Pruned(s.entry, c, false, shown);
            && Shaped(e) && Flagged(e, false)
            && (Flagged(s.entry, true) ==> (Flagged(e, true) <==> !Stales(s, On(c, Action.Drop))))
  {
    PrunedMembers(s.entry, c, false, shown);
    var (k, t) := Find(s, c);
    if k.In? {
      RemoveFlags(k, t, false, shown);
      if Flagged(s.entry, true) { RemoveFlagsExactly(k, t, false, shown); }
    }
  }

  lemma DoSound<C>(d: Desk<C>, op: Op<C>)
    requires Sound(d)
    ensures Sound(Step(d, Do(op)))
    ensures Flagged(d.s.entry, true) ==> (Flagged(Step(d, Do(op)).s.entry, true) <==> !Stales(d.s, op))
  {
    ApplyShaped(d.s, op, d.at.area, d.at.shown);
    ApplyFlagged(d.s, op, d.at.area, d.at.shown, false);
    if Flagged(d.s.entry, true) { ApplyFlagged(d.s, op, d.at.area, d.at.shown, true); }
  }

  lemma StepSound<C>(d: Desk<C>, e: Event<C>)
    requires Sound(d)
    ensures Sound(Step(d, e))
    ensures Flagged(d.s.entry, true) ==> (Flagged(Step(d, e).s.entry, true) <==> !LeavesStale(d, e))
  {
    match e
    case Do(op) => DoSound(d, op);
    case Close(c, skipped) =>
      if Present(d.s, c) {
        PrunedSound(d.s, c, d.at.shown);
        LaidKeeps(Pruned(d.s.entry, c, false, d.at.shown), d.at.area, d.at.shown);
      }
    case Leave(c) => if Present(d.s, c) { PrunedSound(d.s, c, d.at.shown); }
    case Drag(c, n, fact, passed) =>
      if Present(d.s, c) {
        var (k, t) := Find(d.s, c);
        DraggedKeeps(k, t, n, Clamp(fact));
      }
    case Change(_, _) =>
  }

  lemma ClosedUpToDate<C>(d: Desk<C>, c: C, skipped: bool)
    requires Sound(d) && UpToDate(d) && Present(d.s, c)
    ensures UpToDate(Step(d, Close(c, skipped))) <==> !Lapses(d, Close(c, skipped))
  {
    var (k, t) := Find(d.s, c);
    if d.at.Live() && k.In? && !d.s.pending {
      if Relays(d, c, skipped) {
        UpdateRootInPlace(Remove(k, false, true).t, d.at.area, true);
      } else {
        RemovedInPlace(k, t, d.at.area);
      }
    }
  }

  /** Every step keeps the screen up to date, but for those that lapse, and exactly those. */
  lemma StepUpToDate<C>(d: Desk<C>, e: Event<C>)
    requires Sound(d) && UpToDate(d)
    ensures UpToDate(Step(d, e)) <==> !Lapses(d, e)
  {
    match e
    case Do(op) => if d.at.Live() { ApplyFresh(d.s, op, d.at.area, true); }
    case Close(c, skipped) => if Present(d.s, c) { ClosedUpToDate(d, c, skipped); }
    case Leave(c) =>
    case Drag(c, n, fact, passed) =>
      if Present(d.s, c) && d.at.Live() && !d.s.pending {
        var (k, t) := Find(d.s, c);
        DraggedInPlace(k, t, n, Clamp(fact), d.at.area);
      }
    case Change(_, _) =>
  }

  /** When a tiled window is destroyed on the tag that is viewed, what is left is laid out, whatever is asked for. */
  lemma TiledCloses<C>(d: Desk<C>, c: C)
    requires d.at.Valid() && d.at.Live() && Present(d.s, c)
    requires var t := LeafOf(d.s.entry.tree, c); t.Leaf? && t.p.allowed && !t.p.floating
    ensures var s := Step(d, Close(c, false)).s;
            s.pending == d.s.pending && (s.entry.Tiled? ==> InPlace(s.entry.tree, d.at.area, true))
  {
    var k := Find(d.s, c).0;
    if k.In? { UpdateRootInPlace(Remove(k, false, true).t, d.at.area, true); }
  }

  /** A hidden container is destroyed without harm when its sibling is shown, or its parent hidden too. */
  lemma HiddenCloses<C>(d: Desk<C>, c: C, skipped: bool)
    requires Sound(d) && UpToDate(d) && Present(d.s, c)
    requires var (k, t) := Find(d.s, c);
             k.In? ==> !Enabled(t) && (Enabled(k.sib) || (if k.up.Top? then k.sib.Leaf? else !k.a.enabled))
    ensures UpToDate(Step(d, Close(c, skipped)))
  {
    var (k, t) := Find(d.s, c);
    ClosedUpToDate(d, c, skipped);
    if k.In? && d.at.Live() && !d.s.pending { HiddenIsSnug(k, t, d.at.area); }
  }

  ghost function Run<C>(d: Desk<C>, es: seq<Event<C>>): Desk<C>
    decreases |es|
  {
    if es == [] then d else Run(Step(d, es[0]), es[1..])
  }

  lemma {:induction false} RunConcat<C>(d: Desk<C>, es: seq<Event<C>>, fs: seq<Event<C>>)
    ensures Run(d, es + fs) == Run(Run(d, es), fs)
    decreases |es|
  {
    if es == [] {
      assert es + fs == fs;
    } else {
      assert (es + fs)[1..] == es[1..] + fs;
      RunConcat(Step(d, es[0]), es[1..], fs);
    }
  }

  /** Some step of the run leaves a stale flag. */
  ghost predicate RunStales<C>(d: Desk<C>, es: seq<Event<C>>)
    decreases |es|
  {
    es != [] && (LeavesStale(d, es[0]) || RunStales(Step(d, es[0]), es[1..]))
  }

  /** Some step of the run leaves the screen out of date. */
  ghost predicate RunLapses<C>(d: Desk<C>, es: seq<Event<C>>)
    decreases |es|
  {
    es != [] && (Lapses(d, es[0]) || RunLapses(Step(d, es[0]), es[1..]))
  }

  lemma {:induction false} RunKeeps<C>(d: Desk<C>, es: seq<Event<C>>)
    requires Sound(d)
    ensures Sound(Run(d, es))
    ensures UpToDate(d) && !RunLapses(d, es) ==> UpToDate(Run(d, es))
    ensures Flagged(d.s.entry, true) && !RunStales(d, es) ==> Flagged(Run(d, es).s.entry, true)
    decreases |es|
  {
    if es != [] {
      StepSound(d, es[0]);
      if UpToDate(d) { StepUpToDate(d, es[0]); }
      RunKeeps(Step(d, es[0]), es[1..]);
    }
  }

  function Empty<C>(at: Setting): Desk<C> {
    Desk(State(Vacant, false), at)
  }

  /**
   Over every run from an empty tag, through changes of the area, of the modes and of the view:
   the focus is in the tree, and a full layout covers each pixel of the area exactly once if the
   root is enabled, unless some removal left a stale flag or the only window keeps a box of its
   own. While the tag is current and no layout is asked for, the screen shows that layout, unless
   some step lapsed.
   */
  lemma EveryRun<C>(at: Setting, es: seq<Event<C>>, px: int, py: int)
    requires at.Valid()
    ensures var d := Run(Empty(at), es);
            d.s.entry.Tiled? ==>
              var (t, area) := (d.s.entry.tree, d.at.area);
              var picture := Picture(UpdateRoot(t, area, d.at.shown));
              && d.s.entry.focus in Leaves(t) && Flags(t, false)
              && (d.at.Live() && !d.s.pending ==> RunLapses(Empty(at), es) || picture == Picture(t))
              && (area.width >= 0 && area.height >= 0 && area.Has(px, py) ==>
                    && (!Enabled(t) ==> !OwnedOnce(picture, px, py))
                    && (Enabled(t) && !RunStales(Empty(at), es) ==>
                          (OwnedOnce(picture, px, py) <==> !Stubborn(t, px, py))))
  {
    RunKeeps(Empty(at), es);
    var d := Run(Empty(at), es);
    if d.s.entry.Tiled? {
      var (t, area) := (d.s.entry.tree, d.at.area);
      var t' := UpdateRoot(t, area, d.at.shown);
      if InPlace(t, area, d.at.shown) { InPlaceIsFixed(t, area, d.at.shown); }
      if area.width >= 0 && area.height >= 0 {
        RootUpdateTiles(t, area, d.at.shown, px, py);
        OwnersAreCovering(t', px, py);
        CoveringAtOnce(Picture(t'), px, py);
        if Flags(t, true) { ExactNoStale(t); }
      }
    }
  }

  /**
   The only window can leave the area without owner although no step is to blame: a first window
   that is maximized or fullscreen gets an enabled leaf without box, which no layout touches.
   */
  lemma FirstHidden(at: Setting, win: Box, px: int, py: int)
    requires at.Valid() && at.Live()
    ensures var es := [Do(Add(Guest(0, false, false, win), BspTree.Right)), Do(Flush)];
            var d := Run(Empty(at), es);
            && !RunStales(Empty(at), es) && !RunLapses(Empty(at), es) && !d.s.pending
            && d.s.entry.Tiled? && Enabled(d.s.entry.tree)
            && Owners(UpdateRoot(d.s.entry.tree, at.area, at.shown), px, py) == 0
  {
    var g := Guest(0, false, false, win);
    var es := [Do(Add(g, BspTree.Right)), Do(Flush)];
    var d1 := Step(Empty(at), es[0]);
    var leaf := g.Node();
    assert First(g, at.area, at.shown) == leaf;
    assert d1 == Desk(State(Tiled(leaf, 0), false), at);
    assert es[1..] == [Do(Flush)] && es[1..][1..] == [];
    assert Step(d1, es[1]) == d1;
    assert Run(d1, es[1..]) == Run(Step(d1, es[1]), []) == d1;
    assert Run(Empty(at), es) == Run(d1, es[1..]);
    assert !RunStales(d1, []) && !RunLapses(d1, []);
    assert !RunStales(d1, es[1..]) && !RunLapses(d1, es[1..]);
  }
}

/** Which leaf a window has after it was moved, floated, dropped or closed, and whether it is shown. */
module Placement {
  import opened Lists
  import opened Options
  import opened Geometry
  import opened BspTree
  import opened BspLayout
  import opened BspOps
  import opened BspRuns
  import opened BspEntry
  import opened BspMeaning
  import opened BspStill
  import opened Membership
  import opened Hotplug

  /** The container has a leaf in the tree, and it is enabled if `on` and disabled otherwise. */
  ghost predicate LeafShown(e: Entry<Handle>, c: Handle, on: bool) {
    e.Tiled? && c in Leaves(e.tree) && (Enabled(LeafOf(e.tree, c)) <==> on)
  }

  /** The tree in which the node of a container is. */
  ghost function OwnTree(w: World, c: Handle): Entry<Handle>
    requires c in w.conts
  {
    TreeAt(w, w.conts[c].spot)
  }

  lemma ActedShows(w: World, c: Handle, on: bool)
    requires c in w.conts && Stands(w, w.conts[c].spot) && Hosts(w, w.conts[c].spot, c)
    ensures var w' := Acted(w, c, if on then Show else Hide);
            w'.conts == w.conts && LeafShown(OwnTree(w', c), c, on)
  {
    var p := w.conts[c].spot;
    ActFlag(State(TreeAt(w, p), false), c, on, Shown(w, p));
  }

  /**
   A window that becomes floating hides its leaf, so that its sibling takes the room, and one that
   stops floating shows it; without a node it gets one when the tag viewed is in BSP mode. Nothing
   happens to one that does not accept tiled geometry, or is not floating and shall not be.
   */
  ghost predicate Refloated(w: World, w': World, c: Handle, on: bool)
    requires c in w.conts
  {
    var win := w.conts[c];
    if !win.allowed || (!on && !Floats(w, c)) then w' == w
    else
      && c in w'.conts && w'.conts[c].floating == on && w'.conts[c].spot == win.spot
      && (if win.node.Some? then w'.conts[c].node == win.node && LeafShown(OwnTree(w', c), c, !on)
          else w'.conts[c].node.Some? <==> !on && ModeAt(w, Current(w, win.spot.output)) == Bsp)
  }

  lemma FloatedShows(w: World, c: Handle, on: bool)
    requires Tidy(w) && c in w.conts
    ensures Refloated(w, Floated(w, c, on), c, on)
  {
    var win := w.conts[c];
    if win.node.Some? {
      var w1 := w.(conts := w.conts[c := win.(floating := on)]);
      TurnedOn(w, c, win.(floating := on), if on then Hide else Show);
      assert Stands(w, win.spot) && Hosts(w, win.spot, c);
      assert Stands(w1, win.spot);
      ActedShows(w1, c, !on);
    }
  }

  /** The container is next to the one focused before it, on the side asked for, and focused. */
  ghost predicate PutBeside(e: Entry<Handle>, c: Handle, near: Handle, side: Side) {
    e.Tiled? && e.focus == c && Pair(e.tree, c, near, side)
  }

  lemma GrownBeside(e: Entry<Handle>, g: Guest<Handle>, side: Side, area: Box, isBsp: bool, shown: bool)
    requires Shaped(e) && g.c !in Members(e)
    ensures var e' := Grown(e, g, side, area, isBsp, shown);
            if e.Vacant? then e'.Tiled? && e'.tree.Leaf? && LeafShown(e', g.c, true)
            else PutBeside(e', g.c, e.focus, side) && LeafShown(e', g.c, g.allowed && !g.minimized)
  {
    if e.Tiled? { AddedBeside(State(e, false), g, side, area, shown); }
  }

  /** What a window that enters a tree finds there: a first one is shown whatever it is. */
  lemma PlantedBeside(w: World, c: Handle, side: Side)
    requires Tidy(w) && c in w.conts && w.conts[c].node.None? && !Owned(w.conts[c], w.conts[c].spot)
    ensures var (e, e') := (OwnTree(w, c), OwnTree(Planted(w, c, side), c));
            if e.Vacant? then e'.Tiled? && e'.tree.Leaf? && LeafShown(e', c, true)
            else PutBeside(e', c, e.focus, side) && LeafShown(e', c, Tileable(w, c))
  {
    var p := w.conts[c].spot;
    assert Stands(w, p) && !Hosts(w, p, c);
    GrownBeside(TreeAt(w, p), Guested(w, c), side, ScreenAt(w, p.output).area, ModeAt(w, p) == Bsp, Shown(w, p));
  }

  /** A window that takes up room in a tree. */
  predicate Tileable(w: World, c: Handle)
    requires c in w.conts
  {
    w.conts[c].allowed && !w.conts[c].minimized && ModeAt(w, w.conts[c].spot) != Floating
  }

  /** A window that joins a tree is shown exactly when it accepts tiled geometry. */
  lemma JoinedShows(w: World, c: Handle, ws: nat)
    requires Tidy(w) && c in w.conts && Elsewhere(w.conts[c]) && Joins(w, c, ws)
    ensures var w' := Joined(w, c, ws);
            && c in w'.conts && w'.conts[c].node == Some(w.conts[c].spot) && w'.conts[c].spot == w.conts[c].spot
            && LeafShown(OwnTree(w', c), c, w.conts[c].allowed)
  {
    JoinedKeeps(w, c, ws);
    PlantedBeside(w, c, Right);
    if !w.conts[c].allowed {
      var w1 := Planted(w, c, Right);
      PlantedTidy(w, c, Right);
      assert Stands(w1, w.conts[c].spot) && Hosts(w1, w.conts[c].spot, c);
      ActedShows(w1, c, false);
    }
  }

  /** The window has entered the tree of its tag, to the right of the one focused last, and is focused. */
  ghost predicate EntersRight(w: World, w': World, c: Handle) {
    c in w'.conts &&
    var (e, e') := (TreeAt(w, w'.conts[c].spot), OwnTree(w', c));
    if e.Vacant? then e'.Tiled? && e'.tree.Leaf? && LeafShown(e', c, true) else PutBeside(e', c, e.focus, Right)
  }

  lemma PlantedRight(w: World, w1: World, c: Handle)
    requires Tidy(w1) && c in w1.conts && w1.conts[c].node.None? && !Owned(w1.conts[c], w1.conts[c].spot)
    requires OwnTree(w1, c) == TreeAt(w, w1.conts[c].spot)
    ensures EntersRight(w, Planted(w1, c, Right), c)
  {
    PlantedBeside(w1, c, Right);
  }

  /** So it does when it moves to another output. */
  lemma MovedToOutputRight(w: World, c: Handle, o: Output)
    requires Tidy(w) && c in w.conts && w.conts[c].spot.output != o && Enters(w, c, o)
    ensures EntersRight(w, MovedToOutput(w, c, o), c)
  {
    LeftTidy(w, c, o);
    PlantedRight(w, Relisted(Lifted(w, c, false), c, o), c);
  }

  /** Or to another workspace. */
  lemma MovedToTagRight(w: World, c: Handle, ws: nat)
    requires Tidy(w) && c in w.conts && Elsewhere(w.conts[c]) && w.conts[c].spot.workspace != ws
    requires ModeAt(w, Spot(w.conts[c].spot.output, ws)) == Bsp && !w.conts[c].floating
    ensures EntersRight(w, MovedToTag(w, c, ws), c)
  {
    RetaggedTidy(w, c, ws);
    PlantedRight(w, Retagged(Lifted(w, c, true), c, ws), c);
  }

  /** Or stops floating. */
  lemma FloatedRight(w: World, c: Handle)
    requires Tidy(w) && c in w.conts && Elsewhere(w.conts[c]) && w.conts[c].allowed && Floats(w, c)
    requires w.conts[c].node.None? && ModeAt(w, Current(w, w.conts[c].spot.output)) == Bsp
    ensures EntersRight(w, Floated(w, c, false), c)
  {
    ChangedTidy(w, c, w.conts[c].(floating := false));
    PlantedRight(w, w.(conts := w.conts[c := w.conts[c].(floating := false)]), c);
  }

  /** Or is seen tiled on a tag that turns to BSP mode. */
  lemma JoinedRight(w: World, c: Handle, ws: nat)
    requires Tidy(w) && c in w.conts && Elsewhere(w.conts[c]) && Joins(w, c, ws) && w.conts[c].allowed
    ensures EntersRight(w, Joined(w, c, ws), c)
  {
    PlantedRight(w, w, c);
  }

  /** Or is dropped where no other window is that it could be put beside. */
  lemma DroppedRight(w: World, c: Handle, under: Option<Handle>, side: Side)
    requires Tidy(w) && c in w.conts && w.conts[c].node.None? && !Owned(w.conts[c], w.conts[c].spot)
    requires !Beside(w, c, under)
    ensures EntersRight(w, Dropped(w, c, under, side), c)
  {
    PlantedRight(w, w, c);
  }

  /**
   A window dropped above another one of the tag that is viewed is put beside it, on the side asked
   for.
   */
  lemma DroppedBeside(w: World, c: Handle, u: Handle, side: Side)
    requires Tidy(w) && c in w.conts && w.conts[c].node.None? && !Owned(w.conts[c], w.conts[c].spot)
    requires Beside(w, c, Some(u)) && w.conts[u].spot == w.conts[c].spot == Current(w, w.conts[c].spot.output)
    ensures PutBeside(OwnTree(Dropped(w, c, Some(u), side), c), c, u, side)
  {
    var p := w.conts[c].spot;
    assert Hosts(w, p, u) && Stands(w, p) && !Hosts(w, p, c);
    var w1 := Aimed(w, u);
    GrownBeside(TreeAt(w1, p), Guested(w1, c), side, ScreenAt(w, p.output).area, ModeAt(w1, p) == Bsp, Shown(w1, p));
  }

  /** When a tiled window of the tag viewed is closed, what is left of its tree is laid out. */
  lemma ClosedLays(w: World, c: Handle, fallback: Output)
    requires Tidy(w) && c in w.conts && w.conts[c].saved.None? && w.conts[c].allowed && !w.conts[c].minimized
    requires var p := w.conts[c].spot;
             p == Current(w, p.output) && p.workspace != 0 && p.output != fallback && ModeAt(w, p) == Bsp
    requires !w.conts[c].floating
    ensures var (e, p) := (TreeAt(Closed(w, c, fallback), w.conts[c].spot), w.conts[c].spot);
            e.Tiled? ==> InPlace(e.tree, ScreenAt(w, p.output).area, true)
  {
    var p := w.conts[c].spot;
    var e := TreeAt(Cleared(w, c), p);
    if e.Tiled? { UpdateRootInPlace(e.tree, ScreenAt(w, p.output).area, true); }
  }

  /** A window that goes to another workspace, or is lifted, leaves its tree in place when it has a grandparent. */
  lemma LiftedInPlace(w: World, c: Handle)
    requires Tidy(w) && c in w.conts && w.conts[c].node.Some? && Hosts(w, w.conts[c].spot, c)
    requires Deep(OwnTree(w, c), c)
    requires var p := w.conts[c].spot; InPlace(TreeAt(w, p).tree, ScreenAt(w, p.output).area, Shown(w, p))
    ensures var (p, e) := (w.conts[c].spot, TreeAt(Lifted(w, c, true), w.conts[c].spot));
            && e.Tiled? && InPlace(e.tree, ScreenAt(w, p.output).area, Shown(w, p))
            && forall ws :: ws != p.workspace ==> TreeAt(MovedToTag(w, c, ws), p) == e
  {
    var p := w.conts[c].spot;
    var (k, t) := Find(State(TreeAt(w, p), false), c);
    RemoveInPlace(k, t, ScreenAt(w, p.output).area, Shown(w, p));
  }

  /** A window that goes to another output leaves a tree behind in which no window has moved. */
  lemma LeftStill(w: World, c: Handle, o: Output)
    requires Tidy(w) && c in w.conts && w.conts[c].node.Some? && w.conts[c].spot.output != o
    ensures var p := w.conts[c].spot;
            Unmoved(WinsOf(TreeAt(w, p)), WinsOf(TreeAt(MovedToOutput(w, c, o), p)), {})
  {
    var p := w.conts[c].spot;
    assert Hosts(w, p, c);
    PrunedStill(State(TreeAt(w, p), false), c, Shown(w, p));
  }
}

/**
 Where windows are: on which output and workspace, in which BSP tree, and where they go back to
 when a lost output returns.
 */
module Membership {
  import opened Lists
  import opened Options
  import opened Geometry
  import opened BspTree
  import opened BspLayout
  import opened BspOps
  import opened BspRuns
  import opened BspEntry

  type Handle = nat  // a container
  type Output = nat  // an output, with the state kept under its name

  datatype Mode = Floating | Master | Bsp

  /** A tag of an output; each has its own BSP tree. */
  datatype Spot = Spot(output: Output, workspace: nat)

  /** Where a container was when its output was lost; `node` is the tree its leaf is in. */
  datatype Saved = Saved(spot: Spot, tags: set<nat>, node: Option<Spot>)

  /**
   A container. `node` is the tree that holds the leaf its `bsp_node` points to; `allowed` when it
   is neither fullscreen nor maximized; `win` its box.
   */
  datatype Window = Window(
    spot: Spot, tags: set<nat>, node: Option<Spot>, saved: Option<Saved>,
    floating: bool, allowed: bool, minimized: bool, moving: bool, win: Box)

  /** What is remembered of an output for ever: the view and the layout mode of each tag. */
  datatype Screen = Screen(workspace: nat, tags: set<nat>, area: Box, modes: map<nat, Mode>) {
    function ModeOf(ws: nat): Mode {
      if ws in modes then modes[ws] else Floating
    }
  }

  const NEW := Screen(1, {1}, ORIGIN, map[])

  /**
   All containers in the order of the global list, the state of every output there has been, the
   outputs that are there, the trees, and the container list of each output.
   */
  datatype World = World(
    all: seq<Handle>, conts: map<Handle, Window>, screens: map<Output, Screen>, plugged: set<Output>,
    trees: map<Spot, Entry<Handle>>, lists: map<Output, seq<Handle>>)

  function ScreenAt(w: World, o: Output): Screen {
    if o in w.screens then w.screens[o] else NEW
  }

  function ModeAt(w: World, p: Spot): Mode {
    ScreenAt(w, p.output).ModeOf(p.workspace)
  }

  function Current(w: World, o: Output): Spot {
    Spot(o, ScreenAt(w, o).workspace)
  }

  function TreeAt(w: World, p: Spot): Entry<Handle> {
    if p in w.trees then w.trees[p] else Vacant
  }

  function ListAt(w: World, o: Output): seq<Handle> {
    if o in w.lists then w.lists[o] else []
  }

  ghost predicate Hosts(w: World, p: Spot, c: Handle) {
    c in Members(TreeAt(w, p))
  }

  /** Geometry is handed to windows of `p` only when its output shows a BSP tag and `p` does not float. */
  predicate Shown(w: World, p: Spot) {
    ModeAt(w, Current(w, p.output)) == Bsp && ModeAt(w, p) != Floating
  }

  predicate Floats(w: World, c: Handle)
    requires c in w.conts
  {
    w.conts[c].floating || ModeAt(w, w.conts[c].spot) == Floating
  }

  // ---- the invariant ----

  /** The tree `p` is the one a container is in, or the one it will return to. */
  predicate Owned(win: Window, p: Spot) {
    win.node == Some(p) || (win.saved.Some? && win.saved.value.node == Some(p))
  }

  /** A node is in the tree of the container's own tag, a saved one in that of the saved tag. */
  predicate Fits(win: Window) {
    && (win.node.Some? ==> win.node.value == win.spot)
    && (win.saved.Some? && win.saved.value.node.Some? ==>
          win.saved.value.node.value == win.saved.value.spot && win.saved.value.node != win.node)
  }

  ghost predicate Stands(w: World, p: Spot) {
    Shaped(TreeAt(w, p))
  }

  ghost predicate Single(w: World, o: Output) {
    Distinct(ListAt(w, o))
  }

  ghost predicate Treed(w: World) {
    && (forall c :: c in w.conts ==> Fits(w.conts[c]))
    && (forall p :: Stands(w, p))
    && (forall p, c :: Hosts(w, p, c) <==> c in w.conts && Owned(w.conts[c], p))
  }

  ghost predicate Listed(w: World) {
    && Distinct(w.all) && (forall c :: c in w.all <==> c in w.conts)
    && (forall o :: Single(w, o))
    && (forall o, c :: c in ListAt(w, o) <==> c in w.conts && w.conts[c].spot.output == o)
  }

  /** Containers are on outputs that are there, and go back to outputs that were there and are not. */
  ghost predicate Placed(w: World, fallback: Output) {
    && fallback in w.plugged && w.plugged <= w.screens.Keys
    && forall c :: c in w.conts ==>
         && w.conts[c].spot.output in w.plugged
         && (w.conts[c].saved.Some? ==> w.conts[c].saved.value.spot.output in w.screens.Keys - w.plugged)
  }

  ghost predicate Sound(w: World, fallback: Output) {
    Treed(w) && Listed(w) && Placed(w, fallback)
  }

  // ---- steps on one container ----

  ghost function Guested(w: World, c: Handle): Guest<Handle>
    requires c in w.conts
  {
    var win := w.conts[c];
    Guest(c, win.allowed, win.minimized || ModeAt(w, win.spot) == Floating, win.win)
  }

  /** Insertion into the tree of the container's tag. */
  ghost function Planted(w: World, c: Handle, side: Side): World
    requires c in w.conts
  {
    var p := w.conts[c].spot;
    var e := Grown(TreeAt(w, p), Guested(w, c), side, ScreenAt(w, p.output).area, ModeAt(w, p) == Bsp, Shown(w, p));
    w.(trees := w.trees[p := e], conts := w.conts[c := w.conts[c].(floating := false, node := Some(p))])
  }

  /** Removal from the tree of the container's tag, where the source looks for the leaf. */
  ghost function Uprooted(w: World, c: Handle, update: bool): World
    requires c in w.conts && Hosts(w, w.conts[c].spot, c)
  {
    var p := w.conts[c].spot;
    w.(trees := w.trees[p := Pruned(TreeAt(w, p), c, update, Shown(w, p))],
       conts := w.conts[c := w.conts[c].(node := None)])
  }

  ghost function Acted(w: World, c: Handle, action: Action): World
    requires c in w.conts && Hosts(w, w.conts[c].spot, c)
  {
    var p := w.conts[c].spot;
    w.(trees := w.trees[p := Act(State(TreeAt(w, p), false), c, action, Shown(w, p)).entry])
  }

  /** From the list of its output to the end of another one, where it joins the current tag. */
  function Relisted(w: World, c: Handle, o: Output): World
    requires c in w.conts
  {
    var was := w.conts[c].spot.output;
    var lists := w.lists[was := Without(ListAt(w, was), c)];
    w.(lists := lists[o := (if o in lists then lists[o] else []) + [c]],
       conts := w.conts[c := w.conts[c].(spot := Current(w, o), tags := ScreenAt(w, o).tags)])
  }

  lemma PlantedKeeps(w: World, c: Handle, side: Side)
    requires Treed(w) && c in w.conts && w.conts[c].node.None? && !Owned(w.conts[c], w.conts[c].spot)
    ensures Treed(Planted(w, c, side))
  {
    var p, w' := w.conts[c].spot, Planted(w, c, side);
    assert Stands(w, p) && !Hosts(w, p, c);
    GrownMembers(TreeAt(w, p), Guested(w, c), side, ScreenAt(w, p.output).area, ModeAt(w, p) == Bsp, Shown(w, p));
    forall q, d ensures Hosts(w', q, d) <==> d in w'.conts && Owned(w'.conts[d], q) {
      assert Hosts(w, q, d) <==> d in w.conts && Owned(w.conts[d], q);
    }
    forall q ensures Stands(w', q) { assert Stands(w, q); }
  }

  lemma UprootedKeeps(w: World, c: Handle, update: bool)
    requires Treed(w) && c in w.conts && w.conts[c].node.Some?
    ensures Hosts(w, w.conts[c].spot, c) && Treed(Uprooted(w, c, update))
  {
    var p := w.conts[c].spot;
    assert Hosts(w, p, c) && Stands(w, p);
    var w' := Uprooted(w, c, update);
    PrunedMembers(TreeAt(w, p), c, update, Shown(w, p));
    forall q, d ensures Hosts(w', q, d) <==> d in w'.conts && Owned(w'.conts[d], q) {
      assert Hosts(w, q, d) <==> d in w.conts && Owned(w.conts[d], q);
    }
    forall q ensures Stands(w', q) { assert Stands(w, q); }
  }

  lemma ActedKeeps(w: World, c: Handle, action: Action)
    requires Treed(w) && c in w.conts && w.conts[c].node.Some? && !action.Drop?
    ensures Hosts(w, w.conts[c].spot, c) && Treed(Acted(w, c, action))
  {
    var p := w.conts[c].spot;
    assert Hosts(w, p, c) && Stands(w, p);
    var w' := Acted(w, c, action);
    ActMembers(TreeAt(w, p), c, action, Shown(w, p));
    forall q, d ensures Hosts(w', q, d) <==> d in w'.conts && Owned(w'.conts[d], q) {
      assert Hosts(w, q, d) <==> d in w.conts && Owned(w.conts[d], q);
    }
    forall q ensures Stands(w', q) { assert Stands(w, q); }
  }

  /** Changes of a container that leave alone which trees it owns leave the trees in order. */
  lemma ChangedKeeps(w: World, w': World, c: Handle)
    requires Treed(w) && c in w.conts && w'.trees == w.trees && c in w'.conts
    requires w'.conts == w.conts[c := w'.conts[c]]
    requires Fits(w'.conts[c]) && forall p :: Owned(w'.conts[c], p) <==> Owned(w.conts[c], p)
    ensures Treed(w')
  {
    forall q, d ensures Hosts(w', q, d) <==> d in w'.conts && Owned(w'.conts[d], q) {
      assert Hosts(w, q, d) <==> d in w.conts && Owned(w.conts[d], q);
    }
    forall q ensures Stands(w', q) { assert Stands(w, q); }
  }

  /** The container has gone from the list of its output to the end of another one. */
  ghost predicate Passed(w: World, w': World, c: Handle, o: Output)
    requires c in w.conts
  {
    forall q :: ListAt(w', q) == if q == o then ListAt(w, q) + [c]
                                 else if q == w.conts[c].spot.output then Without(ListAt(w, q), c) else ListAt(w, q)
  }

  lemma RelistedKeeps(w: World, c: Handle, o: Output)
    requires Listed(w) && c in w.conts && w.conts[c].spot.output != o
    ensures Listed(Relisted(w, c, o))
  {
    var was, w' := w.conts[c].spot.output, Relisted(w, c, o);
    assert Single(w, was) && Single(w, o) && c !in ListAt(w, o);
    WithoutOne(ListAt(w, was), c);
    AppendOne(ListAt(w, o), c);
    forall q, d ensures d in ListAt(w', q) <==> d in w'.conts && w'.conts[d].spot.output == q {
      assert d in ListAt(w, q) <==> d in w.conts && w.conts[d].spot.output == q;
    }
    forall q ensures Single(w', q) { assert Single(w, q); }
  }

  // ---- what the compositor does to containers ----

  ghost function Lifted(w: World, c: Handle, update: bool): World
    requires c in w.conts
  {
    if w.conts[c].node.Some? && Hosts(w, w.conts[c].spot, c) then Uprooted(w, c, update) else w
  }

  /** To the current tag of another output; a container with a place to return to stays out of the trees. */
  ghost function MovedToOutput(w: World, c: Handle, o: Output): World
    requires c in w.conts
  {
    if w.conts[c].spot.output == o then w
    else
      var mode, floating := ModeAt(w, Current(w, o)), Floats(w, c);
      var w' := Relisted(Lifted(w, c, false), c, o);
      if !floating && mode == Bsp && !w.conts[c].moving && w.conts[c].saved.None? then Planted(w', c, Right) else w'
  }

  function Retagged(w: World, c: Handle, ws: nat): World
    requires c in w.conts
  {
    w.(conts := w.conts[c := w.conts[c].(spot := Spot(w.conts[c].spot.output, ws), tags := {ws})])
  }

  ghost function MovedToTag(w: World, c: Handle, ws: nat): World
    requires c in w.conts
  {
    if w.conts[c].spot.workspace == ws then w
    else
      var w' := Retagged(Lifted(w, c, true), c, ws);
      if ModeAt(w', w'.conts[c].spot) == Bsp && !w'.conts[c].floating then Planted(w', c, Right) else w'
  }

  function SavedAt(win: Window): Window {
    win.(saved := Some(Saved(win.spot, win.tags, win.node)), node := None)
  }

  /** The place of a container is remembered. */
  function Noted(w: World, c: Handle): World
    requires c in w.conts
  {
    w.(conts := w.conts[c := SavedAt(w.conts[c])])
  }

  /** Moves a container off a lost output; its place is remembered unless it has one already. */
  ghost function Rescued(w: World, c: Handle, target: Output, fallback: Output): World
    requires c in w.conts
  {
    if w.conts[c].saved.Some? then MovedToTag(MovedToOutput(w, c, target), c, w.conts[c].saved.value.spot.workspace)
    else if w.conts[c].spot.output == fallback then MovedToOutput(w, c, target)
    else MovedToTag(MovedToOutput(Noted(w, c), c, target), c, w.conts[c].spot.workspace)
  }

  /** Moves a container back to the place that was remembered for it, into the tree it never left. */
  ghost function Returned(w: World, c: Handle): World
    requires c in w.conts && w.conts[c].saved.Some?
  {
    var place := w.conts[c].saved.value;
    var w' := MovedToOutput(w, c, place.spot.output);
    var win := w'.conts[c];
    w'.(conts := w'.conts[c := win.(
      node := place.node, tags := place.tags, spot := Spot(win.spot.output, place.spot.workspace), saved := None)])
  }

  /** A window that is seen on the tag enters its tree when the tag turns to BSP mode. */
  ghost function Joined(w: World, c: Handle, ws: nat): World
    requires c in w.conts
  {
    var win, screen := w.conts[c], ScreenAt(w, w.conts[c].spot.output);
    if screen.workspace == 0 || screen.tags == {} || win.minimized || win.spot.workspace != ws
       || Floats(w, c) || win.node.Some? then w
    else
      var w' := Planted(w, c, Right);
      if win.allowed || !Hosts(w', win.spot, c) then w' else Acted(w', c, Hide)
  }

  /**
   One step on one container: nothing else changes but the trees and the lists, and the trees
   only on the outputs it leaves and enters.
   */
  ghost predicate Alone(w: World, w': World, c: Handle) {
    && c in w.conts && c in w'.conts && w'.conts == w.conts[c := w'.conts[c]]
    && w'.all == w.all && w'.screens == w.screens && w'.plugged == w.plugged
    && forall p: Spot :: p.output != w.conts[c].spot.output && p.output != w'.conts[c].spot.output ==>
         TreeAt(w', p) == TreeAt(w, p)
  }

  lemma AloneThenAlone(w: World, w1: World, w2: World, c: Handle)
    requires Alone(w, w1, c) && Alone(w1, w2, c)
    requires w1.conts[c].spot.output == w.conts[c].spot.output || w1.conts[c].spot.output == w2.conts[c].spot.output
    ensures Alone(w, w2, c)
  {
  }

  ghost predicate Tidy(w: World) {
    Treed(w) && Listed(w)
  }

  /** Lists do not depend on anything but the outputs of the containers. */
  lemma ListedAlike(w: World, w': World, c: Handle)
    requires Listed(w) && Alone(w, w', c) && w'.lists == w.lists
    requires w'.conts[c].spot.output == w.conts[c].spot.output
    ensures Listed(w')
  {
    forall o ensures Single(w', o) { assert Single(w, o); }
    forall o, d ensures d in ListAt(w', o) <==> d in w'.conts && w'.conts[d].spot.output == o {
      assert d in ListAt(w, o) <==> d in w.conts && w.conts[d].spot.output == o;
    }
  }

  lemma PlantedTidy(w: World, c: Handle, side: Side)
    requires Tidy(w) && c in w.conts && w.conts[c].node.None? && !Owned(w.conts[c], w.conts[c].spot)
    ensures var w' := Planted(w, c, side);
            && Tidy(w') && Alone(w, w', c)
            && w'.conts[c] == w.conts[c].(floating := false, node := Some(w.conts[c].spot))
  {
    PlantedKeeps(w, c, side);
    ListedAlike(w, Planted(w, c, side), c);
  }

  lemma LiftedTidy(w: World, c: Handle, update: bool)
    requires Tidy(w) && c in w.conts
    ensures var w' := Lifted(w, c, update);
            Tidy(w') && Alone(w, w', c) && w'.conts[c] == w.conts[c].(node := None)
  {
    if w.conts[c].node.Some? { UprootedKeeps(w, c, update); }
    ListedAlike(w, Lifted(w, c, update), c);
  }

  lemma ActedTidy(w: World, c: Handle, action: Action)
    requires Tidy(w) && c in w.conts && w.conts[c].node.Some? && !action.Drop?
    ensures Hosts(w, w.conts[c].spot, c)
    ensures var w' := Acted(w, c, action); Tidy(w') && Alone(w, w', c) && w'.conts == w.conts
  {
    ActedKeeps(w, c, action);
    ListedAlike(w, Acted(w, c, action), c);
  }

  /** Changes of a container on its output that leave alone which trees it owns. */
  lemma ChangedTidy(w: World, c: Handle, win: Window)
    requires Tidy(w) && c in w.conts && win.spot.output == w.conts[c].spot.output
    requires Fits(win) && forall p :: Owned(win, p) <==> Owned(w.conts[c], p)
    ensures var w' := w.(conts := w.conts[c := win]); Tidy(w') && Alone(w, w', c)
  {
    var w' := w.(conts := w.conts[c := win]);
    ChangedKeeps(w, w', c);
    ListedAlike(w, w', c);
  }

  lemma RelistedTidy(w: World, c: Handle, o: Output)
    requires Tidy(w) && c in w.conts && w.conts[c].spot.output != o && w.conts[c].node.None?
    ensures var w' := Relisted(w, c, o);
            && Tidy(w') && Alone(w, w', c)
            && w'.conts[c] == w.conts[c].(spot := Current(w, o), tags := ScreenAt(w, o).tags)
  {
    RelistedKeeps(w, c, o);
    ChangedKeeps(w, Relisted(w, c, o), c);
  }

  lemma LeftTidy(w: World, c: Handle, o: Output)
    requires Tidy(w) && c in w.conts && w.conts[c].spot.output != o
    ensures var w' := Relisted(Lifted(w, c, false), c, o);
            && Tidy(w') && Alone(w, w', c)
            && w'.conts[c] == w.conts[c].(node := None, spot := Current(w, o), tags := ScreenAt(w, o).tags)
  {
    var w1 := Lifted(w, c, false);
    LiftedTidy(w, c, false);
    RelistedTidy(w1, c, o);
    AloneThenAlone(w, w1, Relisted(w1, c, o), c);
  }

  /** And into the tree of the tag it comes to. */
  lemma ArrivedTidy(w: World, c: Handle, o: Output)
    requires Tidy(w) && c in w.conts && w.conts[c].spot.output != o && w.conts[c].saved.None?
    ensures var w' := Planted(Relisted(Lifted(w, c, false), c, o), c, Right);
            && Tidy(w') && Alone(w, w', c)
            && w'.conts[c] == w.conts[c].(floating := false, node := Some(Current(w, o)),
                                          spot := Current(w, o), tags := ScreenAt(w, o).tags)
  {
    var w2 := Relisted(Lifted(w, c, false), c, o);
    LeftTidy(w, c, o);
    PlantedTidy(w2, c, Right);
    AloneThenAlone(w, w2, Planted(w2, c, Right), c);
  }

  /** A window that comes to another output gets a node there. */
  predicate Enters(w: World, c: Handle, o: Output)
    requires c in w.conts
  {
    var win := w.conts[c];
    && !win.floating && !win.moving && win.saved.None?
    && ModeAt(w, win.spot) != Floating && ModeAt(w, Current(w, o)) == Bsp
  }

  /** The window as it is after it has come to `p` and the tags, with a node there or not. */
  function At(win: Window, p: Spot, tags: set<nat>, enters: bool): Window {
    var there := win.(spot := p, tags := tags, node := None);
    if enters then there.(node := Some(p), floating := false) else there
  }

  /** A window that moves to another output views what this one does, and is in its tree exactly when it is tiled. */
  lemma MovedToOutputKeeps(w: World, c: Handle, o: Output)
    requires Tidy(w) && c in w.conts
    ensures var w' := MovedToOutput(w, c, o);
            && Tidy(w') && Alone(w, w', c)
            && (if w.conts[c].spot.output == o then w' == w
                else w'.conts[c] == At(w.conts[c], Current(w, o), ScreenAt(w, o).tags, Enters(w, c, o)))
  {
    if w.conts[c].spot.output != o {
      LeftTidy(w, c, o);
      if w.conts[c].saved.None? { ArrivedTidy(w, c, o); }
    }
  }

  lemma RelistedPasses(w: World, c: Handle, o: Output)
    requires c in w.conts && w.conts[c].spot.output != o
    ensures Passed(w, Relisted(w, c, o), c, o)
  {
  }

  lemma PassedAlike(w: World, w1: World, w': World, w'': World, c: Handle, o: Output)
    requires c in w.conts && c in w1.conts && w1.lists == w.lists && w''.lists == w'.lists
    requires w1.conts[c].spot == w.conts[c].spot && Passed(w1, w', c, o)
    ensures Passed(w, w'', c, o)
  {
    assert forall q :: ListAt(w1, q) == ListAt(w, q) && ListAt(w'', q) == ListAt(w', q);
  }

  /** The lists after a move to another output. */
  lemma MovedToOutputPasses(w: World, c: Handle, o: Output)
    requires c in w.conts && w.conts[c].spot.output != o
    ensures Passed(w, MovedToOutput(w, c, o), c, o)
  {
    var w1 := Lifted(w, c, false);
    RelistedPasses(w1, c, o);
    PassedAlike(w, w1, Relisted(w1, c, o), MovedToOutput(w, c, o), c, o);
  }

  /** A place that a container returns to is on another output. */
  predicate Elsewhere(win: Window) {
    win.saved.Some? ==> win.saved.value.spot.output != win.spot.output
  }

  lemma RetaggedTidy(w: World, c: Handle, ws: nat)
    requires Tidy(w) && c in w.conts
    ensures var w' := Retagged(Lifted(w, c, true), c, ws);
            && Tidy(w') && Alone(w, w', c)
            && w'.conts[c] == w.conts[c].(node := None, spot := Spot(w.conts[c].spot.output, ws), tags := {ws})
  {
    var w1 := Lifted(w, c, true);
    LiftedTidy(w, c, true);
    var w2 := Retagged(w1, c, ws);
    ChangedTidy(w1, c, w2.conts[c]);
    AloneThenAlone(w, w1, w2, c);
  }

  /** A window that moves to a workspace is on its tag alone, and in its tree exactly when it is tiled. */
  lemma MovedToTagKeeps(w: World, c: Handle, ws: nat)
    requires Tidy(w) && c in w.conts && Elsewhere(w.conts[c])
    ensures var (w', p) := (MovedToTag(w, c, ws), Spot(w.conts[c].spot.output, ws));
            && Tidy(w') && Alone(w, w', c)
            && (if w.conts[c].spot == p then w' == w
                else w'.conts[c] == At(w.conts[c], p, {ws}, ModeAt(w, p) == Bsp && !w.conts[c].floating))
  {
    if w.conts[c].spot.workspace != ws {
      RetaggedTidy(w, c, ws);
      if ModeAt(w, Spot(w.conts[c].spot.output, ws)) == Bsp && !w.conts[c].floating { RetaggedIn(w, c, ws); }
    }
  }

  lemma RetaggedIn(w: World, c: Handle, ws: nat)
    requires Tidy(w) && c in w.conts && Elsewhere(w.conts[c])
    ensures var (w', p) := (Planted(Retagged(Lifted(w, c, true), c, ws), c, Right), Spot(w.conts[c].spot.output, ws));
            Tidy(w') && Alone(w, w', c) && w'.conts[c] == At(w.conts[c], p, {ws}, true)
  {
    var w2 := Retagged(Lifted(w, c, true), c, ws);
    RetaggedTidy(w, c, ws);
    PlantedTidy(w2, c, Right);
    AloneThenAlone(w, w2, Planted(w2, c, Right), c);
  }

  /** Moving off an output with a place to return to, on the tag it had there. */
  lemma FollowedKeeps(w: World, c: Handle, target: Output, ws: nat)
    requires Tidy(w) && c in w.conts && w.conts[c].saved.Some? && w.conts[c].saved.value.spot.output != target
    requires w.conts[c].spot.output != target
    ensures var (w', p) := (MovedToTag(MovedToOutput(w, c, target), c, ws), Spot(target, ws));
            && Tidy(w') && Alone(w, w', c)
            && w'.conts[c] == At(w.conts[c], p, if p == Current(w, target) then ScreenAt(w, target).tags else {ws},
                                 p != Current(w, target) && ModeAt(w, p) == Bsp && !w.conts[c].floating)
  {
    var w1 := MovedToOutput(w, c, target);
    MovedToOutputKeeps(w, c, target);
    MovedToTagKeeps(w1, c, ws);
    AloneThenAlone(w, w1, MovedToTag(w1, c, ws), c);
  }

  /** Where a container is and where it returns to. */
  function Seat(win: Window): (Spot, set<nat>, Option<Saved>) {
    (win.spot, win.tags, win.saved)
  }

  /** The workspace an output views, and the tags. */
  function Viewed(w: World, o: Output): (Spot, set<nat>) {
    (Current(w, o), ScreenAt(w, o).tags)
  }

  /**
   Where a window goes that is moved to an output with the view `v`: to the workspace that is
   remembered for it or that it has, but to the one viewed when it comes from the fallback output
   without a saved place.
   */
  function Refuge(v: (Spot, set<nat>), win: Window, fallback: Output): Spot {
    if win.saved.Some? then Spot(v.0.output, win.saved.value.spot.workspace)
    else if win.spot.output == fallback then v.0
    else Spot(v.0.output, win.spot.workspace)
  }

  /**
   The window is in its refuge, on the tag of that workspace alone unless it is the one viewed; and
   it remembers the place it was first moved from, but none on the fallback output.
   */
  predicate Rehoused(v: (Spot, set<nat>), was: Window, now: (Spot, set<nat>, Option<Saved>), fallback: Output) {
    && now.0 == Refuge(v, was, fallback) && now.1 == (if now.0 == v.0 then v.1 else {now.0.workspace})
    && now.2 == if was.saved.Some? || was.spot.output == fallback then was.saved else SavedAt(was).saved
  }

  lemma RescuedKeeps(w: World, c: Handle, target: Output, fallback: Output)
    requires Tidy(w) && c in w.conts && w.conts[c].spot.output != target
    requires w.conts[c].saved.Some? ==> w.conts[c].saved.value.spot.output != target
    ensures var w' := Rescued(w, c, target, fallback);
            Tidy(w') && Alone(w, w', c) && Rehoused(Viewed(w, target), w.conts[c], Seat(w'.conts[c]), fallback)
  {
    var win := w.conts[c];
    if win.saved.Some? {
      FollowedKeeps(w, c, target, win.saved.value.spot.workspace);
    } else if win.spot.output == fallback {
      MovedToOutputKeeps(w, c, target);
    } else {
      RescuedAway(w, c, target, fallback);
    }
  }

  /** A window with no place to return to is moved off its output. */
  lemma RescuedAway(w: World, c: Handle, target: Output, fallback: Output)
    requires Tidy(w) && c in w.conts && w.conts[c].spot.output != target
    requires w.conts[c].saved.None?
    ensures var (ws, p) := (w.conts[c].spot.workspace, Spot(target, w.conts[c].spot.workspace));
            var w' := MovedToTag(MovedToOutput(Noted(w, c), c, target), c, ws);
            && Tidy(w') && Alone(w, w', c) && w'.conts[c].spot == p && w'.conts[c].saved == SavedAt(w.conts[c]).saved
            && w'.conts[c].tags == if p == Current(w, target) then ScreenAt(w, target).tags else {ws}
  {
    var ws := w.conts[c].spot.workspace;
    var w' := MovedToTag(MovedToOutput(Noted(w, c), c, target), c, ws);
    NotedTidy(w, c);
    FollowedKeeps(Noted(w, c), c, target, ws);
    NotedThen(w, w', c);
  }

  lemma NotedThen(w: World, w': World, c: Handle)
    requires c in w.conts && Alone(w, Noted(w, c), c) && Alone(Noted(w, c), w', c)
    ensures Alone(w, w', c)
  {
    AloneThenAlone(w, Noted(w, c), w', c);
  }

  lemma NotedTidy(w: World, c: Handle)
    requires Tidy(w) && c in w.conts && w.conts[c].saved.None?
    ensures var w' := Noted(w, c); Tidy(w') && Alone(w, w', c) && w'.conts[c] == SavedAt(w.conts[c])
  {
    ChangedTidy(w, c, SavedAt(w.conts[c]));
  }

  /** The window is back exactly where it was, and in the tree exactly when it was. */
  lemma ReturnedKeeps(w: World, c: Handle)
    requires Tidy(w) && c in w.conts && w.conts[c].saved.Some? && Elsewhere(w.conts[c])
    ensures var (w', place) := (Returned(w, c), w.conts[c].saved.value);
            && Tidy(w') && Alone(w, w', c)
            && w'.conts[c].spot == place.spot && w'.conts[c].tags == place.tags && w'.conts[c].node == place.node
            && w'.conts[c].saved.None?
  {
    var w1, w2 := MovedToOutput(w, c, w.conts[c].saved.value.spot.output), Returned(w, c);
    MovedToOutputKeeps(w, c, w.conts[c].saved.value.spot.output);
    ChangedTidy(w1, c, w2.conts[c]);
    AloneThenAlone(w, w1, w2, c);
  }

  /** A tiled window without a node, on the workspace and seen when its output views anything. */
  predicate Joins(w: World, c: Handle, ws: nat)
    requires c in w.conts
  {
    var (win, o) := (w.conts[c], w.conts[c].spot.output);
    && win.node.None? && !win.minimized && win.spot.workspace == ws
    && !win.floating && ModeAt(w, win.spot) != Floating
    && Current(w, o).workspace != 0 && ScreenAt(w, o).tags != {}
  }

  lemma JoinedHidden(w: World, c: Handle)
    requires Tidy(w) && c in w.conts && Elsewhere(w.conts[c]) && w.conts[c].node.None?
    ensures var w1 := Planted(w, c, Right);
            && Hosts(w1, w.conts[c].spot, c)
            && var w' := Acted(w1, c, Hide);
               && Tidy(w') && Alone(w, w', c)
               && w'.conts[c] == w.conts[c].(floating := false, node := Some(w.conts[c].spot))
  {
    var w1 := Planted(w, c, Right);
    PlantedTidy(w, c, Right);
    ActedTidy(w1, c, Hide);
    AloneThenAlone(w, w1, Acted(w1, c, Hide), c);
  }

  /** It gets a node there, and no other window does. */
  lemma JoinedKeeps(w: World, c: Handle, ws: nat)
    requires Tidy(w) && c in w.conts && Elsewhere(w.conts[c])
    ensures var w' := Joined(w, c, ws);
            && Tidy(w') && Alone(w, w', c)
            && (if Joins(w, c, ws) then w'.conts[c] == w.conts[c].(node := Some(w.conts[c].spot)) else w' == w)
  {
    if w.conts[c].node.None? {
      if w.conts[c].allowed { PlantedTidy(w, c, Right); } else { JoinedHidden(w, c); }
    }
  }
}

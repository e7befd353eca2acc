/** Every run of window moves, layout changes, and outputs that vanish and come back. */
module Hotplug {
  import opened Lists
  import opened Options
  import opened Geometry
  import opened BspTree
  import opened BspLayout
  import opened BspOps
  import opened BspRuns
  import opened BspEntry
  import opened Membership

  const MAX_WORKSPACE := 30

  // ---- steps on many containers ----

  ghost function RescuedAll(w: World, cs: seq<Handle>, target: Output, fallback: Output): World
    decreases |cs|
  {
    if cs == [] || cs[0] !in w.conts then w
    else RescuedAll(Rescued(w, cs[0], target, fallback), cs[1..], target, fallback)
  }

  predicate Awaits(w: World, c: Handle, a: Output) {
    c in w.conts && w.conts[c].saved.Some? && w.conts[c].saved.value.spot.output == a
  }

  ghost function ReturnedAll(w: World, cs: seq<Handle>, a: Output): World
    decreases |cs|
  {
    if cs == [] then w else ReturnedAll(ReturnedFor(w, cs[0], a), cs[1..], a)
  }

  ghost function ReturnedFor(w: World, c: Handle, a: Output): World {
    if Awaits(w, c, a) then Returned(w, c) else w
  }

  ghost function JoinedAll(w: World, cs: seq<Handle>, ws: nat): World
    decreases |cs|
  {
    if cs == [] || cs[0] !in w.conts then w
    else JoinedAll(Joined(w, cs[0], ws), cs[1..], ws)
  }

  function Moded(w: World, o: Output, ws: nat, mode: Mode): World {
    var screen := ScreenAt(w, o);
    w.(screens := w.screens[o := screen.(modes := screen.modes[ws := mode])])
  }

  /** The layout mode of a tag is set; tag 0 stands for the current one. */
  ghost function LaidOut(w: World, o: Output, tag: nat, mode: Mode): World {
    var ws := if tag == 0 then ScreenAt(w, o).workspace else tag;
    var w' := Moded(w, o, ws, mode);
    if mode == Bsp then JoinedAll(w', ListAt(w', o), ws) else w'
  }

  /** The tags of an output from `ws` on take their layout mode again. */
  ghost function Relaid(w: World, o: Output, ws: nat): World
    decreases MAX_WORKSPACE - ws
  {
    if ws >= MAX_WORKSPACE then w
    else Relaid(LaidOut(w, o, ws, ModeAt(w, Spot(o, ws))), o, ws + 1)
  }

  /** The windows of one output go to another, whose layouts take them up. */
  ghost function Vacated(w: World, a: Output, target: Output, fallback: Output): World {
    var w' := RescuedAll(w, ListAt(w, a), target, fallback);
    if target != fallback then Relaid(w', target, 1) else w'
  }

  /** An output vanishes: its windows go to another one. */
  ghost function Unplugged(w: World, a: Output, target: Output, fallback: Output): World {
    var w' := Vacated(w, a, target, fallback);
    w'.(plugged := w'.plugged - {a})
  }

  /** The first half of an output's return: its windows come back. */
  ghost function Welcomed(w: World, a: Output, area: Box): World {
    var w1 := w.(screens := w.screens[a := ScreenAt(w, a).(area := area)]);
    var w2 := if a in w.screens then ReturnedAll(w1, w.all, a) else w1;
    w2.(plugged := w2.plugged + {a})
  }

  /** An output appears: windows that were on it before return, and those on the fallback output move in. */
  ghost function Plugged(w: World, a: Output, area: Box, fallback: Output): World {
    var w' := Welcomed(w, a, area);
    RescuedAll(w', ListAt(w', fallback), a, fallback)
  }

  /** Nothing but the placing of containers changes, and trees only on the outputs of `here`. */
  ghost predicate Apart(w: World, w': World, here: set<Output>) {
    && w'.all == w.all && w'.plugged == w.plugged && w'.screens.Keys == w.screens.Keys
    && w'.conts.Keys == w.conts.Keys
    && forall p: Spot :: p.output !in here ==> TreeAt(w', p) == TreeAt(w, p)
  }

  lemma AloneApart(w: World, w': World, c: Handle, here: set<Output>)
    requires Alone(w, w', c) && w.conts[c].spot.output in here && w'.conts[c].spot.output in here
    ensures Apart(w, w', here)
  {
  }

  lemma Tail(cs: seq<Handle>)
    requires Distinct(cs) && cs != []
    ensures Distinct(cs[1..]) && cs[0] !in cs[1..]
    ensures forall c :: c in cs <==> c == cs[0] || c in cs[1..]
  {
    assert cs == [cs[0]] + cs[1..];
    assert forall i :: 0 <= i < |cs| - 1 ==> cs[1..][i] == cs[i + 1];
  }

  lemma RescuedOne(w: World, c: Handle, target: Output, fallback: Output, here: set<Output>)
    requires Tidy(w) && target in here && c in w.conts && w.conts[c].spot.output in here - {target}
    requires w.conts[c].saved.Some? ==> w.conts[c].saved.value.spot.output != target
    ensures var w' := Rescued(w, c, target, fallback);
            && Tidy(w') && Apart(w, w', here) && w'.screens == w.screens
            && w'.conts == w.conts[c := w'.conts[c]]
            && Rehoused(Viewed(w, target), w.conts[c], Seat(w'.conts[c]), fallback)
  {
    RescuedKeeps(w, c, target, fallback);
    AloneApart(w, Rescued(w, c, target, fallback), c, here);
  }

  lemma {:induction false} RescuedAllKeeps(w: World, cs: seq<Handle>, target: Output, fallback: Output,
                                           here: set<Output>)
    requires Tidy(w) && Distinct(cs) && target in here
    requires forall c :: c in cs ==>
               && c in w.conts && w.conts[c].spot.output in here - {target}
               && (w.conts[c].saved.Some? ==> w.conts[c].saved.value.spot.output != target)
    ensures var w' := RescuedAll(w, cs, target, fallback);
            && Tidy(w') && Apart(w, w', here) && w'.screens == w.screens
            && EachRehoused(w.conts, w'.conts, cs, Viewed(w, target), fallback)
    decreases |cs|
  {
    if cs != [] {
      var w1 := Rescued(w, cs[0], target, fallback);
      Tail(cs);
      RescuedOne(w, cs[0], target, fallback, here);
      RescuedAllKeeps(w1, cs[1..], target, fallback, here);
      OneMoreRehoused(w.conts, w1.conts, RescuedAll(w, cs, target, fallback).conts, cs, Viewed(w, target), fallback);
    }
  }

  /** The windows named are in their refuges, and the others stay as they are. */
  predicate EachRehoused(was: map<Handle, Window>, now: map<Handle, Window>, cs: seq<Handle>, v: (Spot, set<nat>),
                         fallback: Output) {
    && was.Keys == now.Keys
    && forall c :: c in was ==> if c in cs then Rehoused(v, was[c], Seat(now[c]), fallback) else now[c] == was[c]
  }

  lemma OneMoreRehoused(was: map<Handle, Window>, mid: map<Handle, Window>, now: map<Handle, Window>,
                        cs: seq<Handle>, v: (Spot, set<nat>), fallback: Output)
    requires Distinct(cs) && cs != [] && cs[0] in was && cs[0] in mid && mid == was[cs[0] := mid[cs[0]]]
    requires Rehoused(v, was[cs[0]], Seat(mid[cs[0]]), fallback)
    requires EachRehoused(mid, now, cs[1..], v, fallback)
    ensures EachRehoused(was, now, cs, v, fallback)
  {
    Tail(cs);
  }

  /** The window is where it was, and points to the leaf it had. */
  predicate Back(place: Saved, win: Window) {
    win.spot == place.spot && win.tags == place.tags && win.node == place.node && win.saved.None?
  }

  lemma ReturnedOne(w: World, c: Handle, here: set<Output>)
    requires Tidy(w) && c in w.conts && w.conts[c].saved.Some? && Elsewhere(w.conts[c])
    requires w.conts[c].spot.output in here && w.conts[c].saved.value.spot.output in here
    ensures var w' := Returned(w, c);
            && Tidy(w') && Apart(w, w', here) && w'.screens == w.screens
            && w'.conts == w.conts[c := w'.conts[c]] && Back(w.conts[c].saved.value, w'.conts[c])
  {
    ReturnedKeeps(w, c);
    AloneApart(w, Returned(w, c), c, here);
  }

  lemma ReturnedForKeeps(w: World, c: Handle, a: Output, here: set<Output>)
    requires Tidy(w) && c in w.conts && Elsewhere(w.conts[c]) && w.conts[c].spot.output in here && a in here
    ensures var w' := ReturnedFor(w, c, a);
            && Tidy(w') && Apart(w, w', here) && w'.screens == w.screens && w'.conts == w.conts[c := w'.conts[c]]
            && if Awaits(w, c, a) then Back(w.conts[c].saved.value, w'.conts[c]) else w'.conts[c] == w.conts[c]
  {
    if Awaits(w, c, a) { ReturnedOne(w, c, here); }
  }

  lemma {:induction false} ReturnedAllKeeps(w: World, cs: seq<Handle>, a: Output, here: set<Output>)
    requires Tidy(w) && Distinct(cs) && a in here
    requires forall c :: c in cs ==> c in w.conts && Elsewhere(w.conts[c]) && w.conts[c].spot.output in here
    ensures var w' := ReturnedAll(w, cs, a);
            && Tidy(w') && Apart(w, w', here) && w'.screens == w.screens
            && (forall c :: c in cs && Awaits(w, c, a) ==> Back(w.conts[c].saved.value, w'.conts[c]))
            && (forall c :: c in w.conts && !(c in cs && Awaits(w, c, a)) ==> w'.conts[c] == w.conts[c])
    decreases |cs|
  {
    if cs != [] {
      Tail(cs);
      ReturnedForKeeps(w, cs[0], a, here);
      ReturnedAllKeeps(ReturnedFor(w, cs[0], a), cs[1..], a, here);
    }
  }

  /** The window stays as it is, or it gets the node it had not. */
  predicate Joining(was: Window, now: Window) {
    now == was || (was.node.None? && now == was.(node := Some(was.spot)))
  }

  /** Containers stay as they are, but for nodes that some get. */
  ghost predicate Seated(w: World, w': World) {
    w'.conts.Keys == w.conts.Keys && forall c :: c in w.conts ==> Joining(w.conts[c], w'.conts[c])
  }

  lemma JoinedOne(w: World, c: Handle, ws: nat, here: set<Output>)
    requires Tidy(w) && c in w.conts && Elsewhere(w.conts[c]) && w.conts[c].spot.output in here
    ensures var w' := Joined(w, c, ws);
            && Tidy(w') && Apart(w, w', here) && Seated(w, w') && w'.screens == w.screens
            && (Joins(w, c, ws) ==> w'.conts[c].node.Some?)
            && (forall d :: d in w.conts && !(d == c && Joins(w, c, ws)) ==> w'.conts[d] == w.conts[d])
  {
    JoinedKeeps(w, c, ws);
    AloneApart(w, Joined(w, c, ws), c, here);
  }

  /** Of the windows named, exactly those get a node that are tiled and seen on the workspace. */
  lemma {:induction false} JoinedAllKeeps(w: World, cs: seq<Handle>, ws: nat, here: set<Output>)
    requires Tidy(w)
    requires forall c :: c in cs ==> c in w.conts && Elsewhere(w.conts[c]) && w.conts[c].spot.output in here
    ensures var w' := JoinedAll(w, cs, ws);
            && Tidy(w') && Apart(w, w', here) && Seated(w, w') && w'.screens == w.screens
            && forall c :: c in w.conts ==> JoinedIf(w, w', c, c in cs && Joins(w, c, ws))
    decreases |cs|
  {
    if cs != [] {
      var w1 := Joined(w, cs[0], ws);
      JoinedOne(w, cs[0], ws, here);
      JoinedAllKeeps(w1, cs[1..], ws, here);
      forall c | c in w.conts ensures JoinedIf(w, JoinedAll(w, cs, ws), c, c in cs && Joins(w, c, ws)) {
        JoinedThen(w, w1, JoinedAll(w, cs, ws), cs, ws, c);
      }
    }
  }

  /** The window gets a node if `on`, and stays as it is otherwise. */
  ghost predicate JoinedIf(w: World, w': World, c: Handle, on: bool) {
    c in w.conts && c in w'.conts && if on then w'.conts[c].node.Some? else w'.conts[c] == w.conts[c]
  }

  lemma JoinedThen(w: World, w1: World, w': World, cs: seq<Handle>, ws: nat, c: Handle)
    requires cs != [] && c in w.conts && cs[0] in w.conts && c in w1.conts && w1.screens == w.screens
    requires Seated(w, w1) && Seated(w1, w')
    requires Joins(w, cs[0], ws) ==> w1.conts[cs[0]].node.Some?
    requires !(c == cs[0] && Joins(w, cs[0], ws)) ==> w1.conts[c] == w.conts[c]
    requires JoinedIf(w1, w', c, c in cs[1..] && Joins(w1, c, ws))
    ensures JoinedIf(w, w', c, c in cs && Joins(w, c, ws))
  {
    assert cs == [cs[0]] + cs[1..];
  }

  /** Which outputs there are, and what they show, has nothing to do with who is where. */
  lemma ScreenedTidy(w: World, screens: map<Output, Screen>, plugged: set<Output>)
    requires Tidy(w)
    ensures Tidy(w.(screens := screens, plugged := plugged))
  {
    var w' := w.(screens := screens, plugged := plugged);
    assert forall p :: Stands(w', p) <==> Stands(w, p);
    assert forall p, c :: Hosts(w', p, c) <==> Hosts(w, p, c);
    assert forall o :: Single(w', o) <==> Single(w, o);
    assert forall o :: ListAt(w', o) == ListAt(w, o);
  }

  /** All that is known of a mode that is set: it is set on one tag, and only windows there join the tree. */
  lemma LaidOutKeeps(w: World, o: Output, tag: nat, mode: Mode)
    requires Tidy(w) && o in w.screens
    requires NoneWaits(w, o)
    ensures var (w', ws) := (LaidOut(w, o, tag, mode), if tag == 0 then ScreenAt(w, o).workspace else tag);
            && Tidy(w') && Apart(w, w', {o}) && Seated(w, w') && Remoded(w, w', Spot(o, ws), mode)
            && (mode == Bsp ==> Tiles(w', o, ws))
            && forall c :: c in w.conts && (w.conts[c].spot != Spot(o, ws) || mode != Bsp) ==> w'.conts[c] == w.conts[c]
  {
    var ws := if tag == 0 then ScreenAt(w, o).workspace else tag;
    var w1 := Moded(w, o, ws, mode);
    ScreenedTidy(w, w1.screens, w.plugged);
    if mode == Bsp {
      ListJoined(w1, o, ws);
      RemodedAlike(w, w1, JoinedAll(w1, ListAt(w1, o), ws), Spot(o, ws), mode);
    }
  }

  /** The windows of an output join the tree of a tag. */
  lemma ListJoined(w: World, o: Output, ws: nat)
    requires Tidy(w)
    requires NoneWaits(w, o)
    ensures var w' := JoinedAll(w, ListAt(w, o), ws);
            && Tidy(w') && Apart(w, w', {o}) && Seated(w, w') && w'.screens == w.screens && Tiles(w', o, ws)
            && forall c :: c in w.conts && w.conts[c].spot != Spot(o, ws) ==> w'.conts[c] == w.conts[c]
  {
    JoinedAllKeeps(w, ListAt(w, o), ws, {o});
    JoinedTiles(w, JoinedAll(w, ListAt(w, o), ws), o, ws);
  }

  /** One tag has the mode, and the others have theirs. */
  ghost predicate Remoded(w: World, w': World, p: Spot, mode: Mode) {
    Sighted(w, w') && ModeAt(w', p) == mode && forall q :: q != p ==> ModeAt(w', q) == ModeAt(w, q)
  }

  lemma RemodedAlike(w: World, w1: World, w': World, p: Spot, mode: Mode)
    requires Remoded(w, w1, p, mode) && w'.screens == w1.screens
    ensures Remoded(w, w', p, mode)
  {
    assert forall q :: ModeAt(w', q) == ModeAt(w1, q);
    assert forall o :: Viewed(w', o) == Viewed(w1, o);
  }

  /** The outputs view what they viewed. */
  ghost predicate Sighted(w: World, w': World) {
    w'.screens.Keys == w.screens.Keys && forall o :: Viewed(w', o) == Viewed(w, o)
  }

  /** No tiled window that is seen on the tag is without a node. */
  ghost predicate Tiles(w: World, o: Output, ws: nat) {
    forall c :: c in w.conts && w.conts[c].spot.output == o ==> !Joins(w, c, ws)
  }

  lemma JoinedTiles(w: World, w': World, o: Output, ws: nat)
    requires Tidy(w) && Seated(w, w') && w'.screens == w.screens
    requires forall c :: c in w.conts ==> JoinedIf(w, w', c, c in ListAt(w, o) && Joins(w, c, ws))
    ensures Tiles(w', o, ws)
  {
    forall c | c in w'.conts && w'.conts[c].spot.output == o ensures !Joins(w', c, ws) {
      assert JoinedIf(w, w', c, c in ListAt(w, o) && Joins(w, c, ws));
    }
  }

  /** The tags of the output that are in BSP mode have no tiled window without a node, from `ws` on. */
  ghost predicate TilesFrom(w: World, o: Output, ws: nat) {
    forall v :: ws <= v < MAX_WORKSPACE && ModeAt(w, Spot(o, v)) == Bsp ==> Tiles(w, o, v)
  }

  ghost predicate SameModes(w: World, w': World) {
    Sighted(w, w') && forall p :: ModeAt(w', p) == ModeAt(w, p)
  }

  /** No window of the output waits for it. */
  ghost predicate NoneWaits(w: World, o: Output) {
    forall c :: c in w.conts && w.conts[c].spot.output == o ==> Elsewhere(w.conts[c])
  }

  /** What is so when the tags from `ws` on have taken their modes again. */
  ghost predicate Relays(w: World, w': World, o: Output, ws: nat) {
    Tidy(w') && Apart(w, w', {o}) && Seated(w, w') && SameModes(w, w') && TilesFrom(w', o, ws)
  }

  /** When tags take their modes again, tiled windows without a node get one. */
  lemma {:induction false} RelaidKeeps(w: World, o: Output, ws: nat)
    requires Tidy(w) && o in w.screens && ws > 0
    requires NoneWaits(w, o)
    ensures Relays(w, Relaid(w, o, ws), o, ws)
    decreases MAX_WORKSPACE - ws
  {
    if ws < MAX_WORKSPACE {
      var w1 := LaidOut(w, o, ws, ModeAt(w, Spot(o, ws)));
      LaidOutKeeps(w, o, ws, ModeAt(w, Spot(o, ws)));
      StillElsewhere(w, w1, o);
      RelaidKeeps(w1, o, ws + 1);
      RelaysThen(w, w1, Relaid(w1, o, ws + 1), o, ws);
    }
  }

  lemma StillElsewhere(w: World, w': World, o: Output)
    requires Seated(w, w')
    requires NoneWaits(w, o)
    ensures NoneWaits(w', o)
  {
    assert forall c :: c in w.conts ==> Joining(w.conts[c], w'.conts[c]);
  }

  lemma RelaysThen(w: World, w1: World, w': World, o: Output, ws: nat)
    requires Apart(w, w1, {o}) && Seated(w, w1) && Remoded(w, w1, Spot(o, ws), ModeAt(w, Spot(o, ws)))
    requires ModeAt(w, Spot(o, ws)) == Bsp ==> Tiles(w1, o, ws)
    requires Relays(w1, w', o, ws + 1)
    ensures Relays(w, w', o, ws)
  {
    SameThen(w, w1, Spot(o, ws));
    if ModeAt(w, Spot(o, ws)) == Bsp { TilesStill(w1, w', o, ws); }
    MoreTiles(w, w1, w', o, ws);
  }

  lemma SameThen(w: World, w': World, p: Spot)
    requires Remoded(w, w', p, ModeAt(w, p))
    ensures SameModes(w, w')
  {
    forall q ensures ModeAt(w', q) == ModeAt(w, q) { if q != p { assert ModeAt(w', q) == ModeAt(w, q); } }
  }

  lemma MoreTiles(w: World, w1: World, w': World, o: Output, ws: nat)
    requires SameModes(w, w1) && SameModes(w1, w') && TilesFrom(w', o, ws + 1)
    requires ModeAt(w, Spot(o, ws)) == Bsp ==> Tiles(w', o, ws)
    ensures SameModes(w, w') && TilesFrom(w', o, ws)
  {
    assert forall q :: ModeAt(w', q) == ModeAt(w1, q) == ModeAt(w, q);
    assert forall q :: Viewed(w', q) == Viewed(w1, q) == Viewed(w, q);
  }

  lemma TilesStill(w: World, w': World, o: Output, ws: nat)
    requires Tiles(w, o, ws) && Seated(w, w') && SameModes(w, w')
    ensures Tiles(w', o, ws)
  {
    assert Viewed(w', o) == Viewed(w, o);
  }

  // ---- the outputs ----

  /** What a step leaves alone of an output that is not there. */
  ghost predicate Untouched(w: World, w': World, lost: Output) {
    && (forall c :: Awaits(w, c, lost) ==> c in w'.conts && w'.conts[c].saved == w.conts[c].saved)
    && (forall p: Spot :: p.output == lost ==> TreeAt(w', p) == TreeAt(w, p))
  }

  /** What the loss of output `a` does to a window: it goes to its refuge from there, and stays elsewhere. */
  predicate Moved(v: (Spot, set<nat>), was: Window, now: (Spot, set<nat>, Option<Saved>), a: Output, fallback: Output) {
    if was.spot.output == a then Rehoused(v, was, now, fallback) else now == Seat(was)
  }

  lemma RescuedOff(w: World, a: Output, target: Output, fallback: Output)
    requires Sound(w, fallback) && a in w.plugged && target in w.plugged && a != target
    ensures var w' := RescuedAll(w, ListAt(w, a), target, fallback);
            && Tidy(w') && Apart(w, w', {a, target})
            && forall c :: c in w.conts ==> Moved(Viewed(w, target), w.conts[c], Seat(w'.conts[c]), a, fallback)
  {
    assert Single(w, a);
    RescuedAllKeeps(w, ListAt(w, a), target, fallback, {a, target});
  }

  lemma VacatedTidy(w: World, a: Output, target: Output, fallback: Output)
    requires Sound(w, fallback) && a in w.plugged && target in w.plugged && a != target
    ensures var w' := Vacated(w, a, target, fallback);
            && Tidy(w') && Apart(w, w', {a, target}) && (target != fallback ==> TilesFrom(w', target, 1))
            && forall c :: c in w.conts ==> Moved(Viewed(w, target), w.conts[c], Seat(w'.conts[c]), a, fallback)
  {
    RescuedOff(w, a, target, fallback);
    if target != fallback { RelaidOff(w, RescuedAll(w, ListAt(w, a), target, fallback), a, target, fallback); }
  }

  lemma RelaidOff(w: World, w1: World, a: Output, target: Output, fallback: Output)
    requires Placed(w, fallback) && a in w.plugged && target in w.plugged && a != target
    requires Tidy(w1) && Apart(w, w1, {a, target})
    requires forall c :: c in w.conts ==> Moved(Viewed(w, target), w.conts[c], Seat(w1.conts[c]), a, fallback)
    ensures var w' := Relaid(w1, target, 1);
            && Tidy(w') && Apart(w, w', {a, target}) && TilesFrom(w', target, 1)
            && forall c :: c in w.conts ==> Moved(Viewed(w, target), w.conts[c], Seat(w'.conts[c]), a, fallback)
  {
    MovedElsewhere(w, w1, a, target, fallback);
    RelaidKeeps(w1, target, 1);
    MovedThen(w, w1, Relaid(w1, target, 1), a, target, fallback);
  }

  lemma MovedElsewhere(w: World, w': World, a: Output, target: Output, fallback: Output)
    requires Placed(w, fallback) && a in w.plugged && target in w.plugged && a != target
    requires w'.conts.Keys == w.conts.Keys
    requires forall c :: c in w.conts ==> Moved(Viewed(w, target), w.conts[c], Seat(w'.conts[c]), a, fallback)
    ensures forall c :: c in w'.conts ==> Elsewhere(w'.conts[c])
  {
    forall c | c in w'.conts ensures Elsewhere(w'.conts[c]) {
      assert Moved(Viewed(w, target), w.conts[c], Seat(w'.conts[c]), a, fallback);
    }
  }

  lemma MovedThen(w: World, w1: World, w': World, a: Output, target: Output, fallback: Output)
    requires Apart(w, w1, {a, target}) && Apart(w1, w', {target}) && Seated(w1, w')
    requires forall c :: c in w.conts ==> Moved(Viewed(w, target), w.conts[c], Seat(w1.conts[c]), a, fallback)
    ensures Apart(w, w', {a, target})
    ensures forall c :: c in w.conts ==> Moved(Viewed(w, target), w.conts[c], Seat(w'.conts[c]), a, fallback)
  {
    forall c | c in w.conts ensures Seat(w'.conts[c]) == Seat(w1.conts[c]) {
      assert Joining(w1.conts[c], w'.conts[c]);
    }
  }

  lemma UnpluggedTidy(w: World, a: Output, target: Output, fallback: Output)
    requires Sound(w, fallback) && a in w.plugged && target in w.plugged && a != target && a != fallback
    ensures var w' := Unplugged(w, a, target, fallback);
            && Tidy(w') && Apart(w, w'.(plugged := w.plugged), {a, target}) && w'.plugged == w.plugged - {a}
            && (target != fallback ==> TilesFrom(w', target, 1))
            && forall c :: c in w.conts ==> Moved(Viewed(w, target), w.conts[c], Seat(w'.conts[c]), a, fallback)
  {
    VacatedTidy(w, a, target, fallback);
    var w' := Vacated(w, a, target, fallback);
    ScreenedTidy(w', w'.screens, w.plugged - {a});
  }

  lemma UnpluggedPlaced(w: World, w': World, a: Output, target: Output, fallback: Output)
    requires Placed(w, fallback) && a in w.plugged && a != fallback && target in w.plugged && a != target
    requires w'.plugged == w.plugged - {a} && w'.screens.Keys == w.screens.Keys && w'.conts.Keys == w.conts.Keys
    requires forall c :: c in w.conts ==> Moved(Viewed(w, target), w.conts[c], Seat(w'.conts[c]), a, fallback)
    ensures Placed(w', fallback)
  {
  }

  /**
   Who was on the output is in its refuge on the other one, and remembered, unless there is a place
   to return to already; everyone else stays. No tiled window that is seen there lacks a node.
   */
  lemma UnpluggedKeeps(w: World, a: Output, target: Output, fallback: Output)
    requires Sound(w, fallback) && a in w.plugged && target in w.plugged && a != target && a != fallback
    ensures var w' := Unplugged(w, a, target, fallback);
            && Sound(w', fallback) && w'.plugged == w.plugged - {a}
            && w'.conts.Keys == w.conts.Keys && (target != fallback ==> TilesFrom(w', target, 1))
            && (forall c :: c in w.conts ==> Moved(Viewed(w, target), w.conts[c], Seat(w'.conts[c]), a, fallback))
  {
    UnpluggedTidy(w, a, target, fallback);
    UnpluggedPlaced(w, Unplugged(w, a, target, fallback), a, target, fallback);
  }

  lemma FarFrom(w: World, w': World, here: set<Output>, lost: Output)
    requires w'.conts.Keys == w.conts.Keys && lost !in here
    requires forall c :: Awaits(w, c, lost) ==> w'.conts[c].saved == w.conts[c].saved
    requires forall p: Spot :: p.output !in here ==> TreeAt(w', p) == TreeAt(w, p)
    ensures Untouched(w, w', lost)
  {
  }

  lemma FarUnplugged(w: World, w': World, a: Output, target: Output, lost: Output)
    requires Apart(w, w'.(plugged := w.plugged), {a, target}) && lost != a && lost != target
    requires forall c :: c in w.conts && w.conts[c].saved.Some? ==> w'.conts[c].saved == w.conts[c].saved
    ensures Untouched(w, w', lost)
  {
  }

  lemma UnpluggedUntouched(w: World, a: Output, target: Output, fallback: Output, lost: Output)
    requires Sound(w, fallback) && a in w.plugged && target in w.plugged && a != target && a != fallback
    requires lost !in w.plugged
    ensures Untouched(w, Unplugged(w, a, target, fallback), lost)
  {
    UnpluggedTidy(w, a, target, fallback);
    FarUnplugged(w, Unplugged(w, a, target, fallback), a, target, lost);
  }

  lemma WelcomedTidy(w: World, a: Output, area: Box, fallback: Output)
    requires Sound(w, fallback) && a !in w.plugged
    ensures var w' := Welcomed(w, a, area);
            && Tidy(w') && w'.all == w.all && w'.plugged == w.plugged + {a} && w'.conts.Keys == w.conts.Keys
            && w'.screens == w.screens[a := ScreenAt(w, a).(area := area)]
            && (forall p: Spot :: p.output !in w.plugged + {a} ==> TreeAt(w', p) == TreeAt(w, p))
            && forall c :: c in w.conts ==>
                 if Awaits(w, c, a) then Back(w.conts[c].saved.value, w'.conts[c]) else w'.conts[c] == w.conts[c]
  {
    var w1 := w.(screens := w.screens[a := ScreenAt(w, a).(area := area)]);
    ScreenedTidy(w, w1.screens, w.plugged);
    if a in w.screens { ReturnedAllKeeps(w1, w.all, a, w.plugged + {a}); }
    var w2 := if a in w.screens then ReturnedAll(w1, w.all, a) else w1;
    ScreenedTidy(w2, w2.screens, w2.plugged + {a});
  }

  /** What an output that appears with the view `v` does to a window. */
  predicate Came(v: (Spot, set<nat>), was: Window, now: Window, fallback: Output) {
    if was.saved.Some? && was.saved.value.spot.output == v.0.output then Back(was.saved.value, now)
    else if was.spot.output == fallback then Rehoused(v, was, Seat(now), fallback)
    else now == was
  }

  lemma PluggedTidy(w: World, a: Output, area: Box, fallback: Output)
    requires Sound(w, fallback) && a !in w.plugged
    ensures var w' := Plugged(w, a, area, fallback);
            && Tidy(w') && w'.all == w.all && w'.plugged == w.plugged + {a} && w'.conts.Keys == w.conts.Keys
            && w'.screens == w.screens[a := ScreenAt(w, a).(area := area)]
            && (forall p: Spot :: p.output !in w.plugged + {a} ==> TreeAt(w', p) == TreeAt(w, p))
            && forall c :: c in w.conts ==> Came(Viewed(w, a), w.conts[c], w'.conts[c], fallback)
  {
    WelcomedTidy(w, a, area, fallback);
    FromFallback(Welcomed(w, a, area), a, fallback);
  }

  lemma FromFallback(w: World, a: Output, fallback: Output)
    requires Tidy(w) && a != fallback
    requires forall c :: c in w.conts && w.conts[c].spot.output == fallback ==> !Awaits(w, c, a)
    ensures var w' := RescuedAll(w, ListAt(w, fallback), a, fallback);
            && Tidy(w') && Apart(w, w', {fallback, a}) && w'.screens == w.screens
            && forall c :: c in w.conts ==>
                 && w'.conts[c].saved == w.conts[c].saved
                 && if w.conts[c].spot.output == fallback then
                      Rehoused(Viewed(w, a), w.conts[c], Seat(w'.conts[c]), fallback)
                    else w'.conts[c] == w.conts[c]
  {
    assert Single(w, fallback);
    RescuedAllKeeps(w, ListAt(w, fallback), a, fallback, {fallback, a});
  }

  lemma PluggedPlaced(w: World, w': World, a: Output, fallback: Output)
    requires Placed(w, fallback) && a !in w.plugged && w'.conts.Keys == w.conts.Keys
    requires w'.plugged == w.plugged + {a} && w'.screens.Keys == w.screens.Keys + {a}
    requires forall c :: c in w.conts ==> Came(Viewed(w, a), w.conts[c], w'.conts[c], fallback)
    ensures Placed(w', fallback)
  {
  }

  /**
   Who was on the output when it was lost is back in place; of the others, those on the fallback
   output come to their refuge on it, and the rest stay as they are. The view is as it was, in the
   new area.
   */
  lemma PluggedKeeps(w: World, a: Output, area: Box, fallback: Output)
    requires Sound(w, fallback) && a !in w.plugged
    ensures var w' := Plugged(w, a, area, fallback);
            && Sound(w', fallback) && w'.plugged == w.plugged + {a}
            && w'.conts.Keys == w.conts.Keys && w'.screens == w.screens[a := ScreenAt(w, a).(area := area)]
            && forall c :: c in w.conts ==> Came(Viewed(w, a), w.conts[c], w'.conts[c], fallback)
  {
    PluggedTidy(w, a, area, fallback);
    PluggedPlaced(w, Plugged(w, a, area, fallback), a, fallback);
  }

  lemma PluggedUntouched(w: World, a: Output, area: Box, fallback: Output, lost: Output)
    requires Sound(w, fallback) && a !in w.plugged && lost !in w.plugged + {a}
    ensures Untouched(w, Plugged(w, a, area, fallback), lost)
  {
    PluggedTidy(w, a, area, fallback);
  }

  // ---- events ----

  datatype Event =
    | Open(c: Handle, o: Output, win: Window)           // a new window on the focused output
    | Close(c: Handle)
    | ToOutput(c: Handle, o: Output)
    | ToTag(c: Handle, ws: nat)
    | SetTags(c: Handle, tags: set<nat>)
    | Float(c: Handle, on: bool)
    | Alter(c: Handle, allowed: bool, minimized: bool, moving: bool, box: Box)
    | Tile(c: Handle)                                   // a mapped window enters the tree of a BSP tag
    | Lift(c: Handle)                                   // an interactive move begins
    | Drop(c: Handle, under: Option<Handle>, side: Side) // and ends, above another window or not
    | InTree(c: Handle, action: Action)                 // any other operation on its node
    | View(o: Output, ws: nat, tags: set<nat>)
    | Layout(o: Output, ws: nat, mode: Mode)
    | Unplug(a: Output, target: Output)
    | Plug(a: Output, area: Box)

  ghost function Opened(w: World, c: Handle, o: Output, win: Window): World {
    var screen := ScreenAt(w, o);
    var spot := Spot(o, if screen.workspace == 0 then 1 else screen.workspace);
    var tags := if screen.tags == {} then {1} else screen.tags;
    w.(all := [c] + w.all, lists := w.lists[o := [c] + ListAt(w, o)],
       conts := w.conts[c := win.(spot := spot, tags := tags, node := None, saved := None)])
  }

  /** Where the destruction of a container looks for the leaf it left in the tree of a lost output. */
  function Sought(win: Window): Spot
    requires win.saved.Some?
  {
    Spot(win.saved.value.spot.output, win.spot.workspace)
  }

  /** The saved leaf is looked for in the tree it is in. */
  predicate Tame(win: Window) {
    win.saved.Some? && win.saved.value.node.Some? ==> win.spot.workspace == win.saved.value.spot.workspace
  }

  /**
   Looking elsewhere is fatal: there is no entry where it looks, or the leaf has no parent or no
   grandparent, which is only known not to be needed of the right entry.
   */
  ghost predicate Fatal(w: World, win: Window, c: Handle) {
    !Tame(win) &&
    var q := win.saved.value.spot;
    TreeAt(w, Sought(win)).Vacant? || !Hosts(w, q, c) || !Deep(TreeAt(w, q), c)
  }

  /** The destruction of a container dereferences a null pointer. */
  ghost predicate Crashes(w: World, c: Handle)
    requires c in w.conts
  {
    Fatal(Lifted(w, c, false), w.conts[c], c)
  }

  /** The leaf a container left in the tree of a lost output goes; `q` is the tree it is in. */
  ghost function Spent(w: World, c: Handle, q: Spot, tame: bool): World
    requires c in w.conts && Hosts(w, q, c) && (!tame ==> Deep(TreeAt(w, q), c))
  {
    var e := if tame then Pruned(TreeAt(w, q), c, false, Shown(w, q)) else Blinded(TreeAt(w, q), c, Shown(w, q));
    w.(trees := w.trees[q := e], conts := w.conts[c := w.conts[c].(saved := None)])
  }

  /** A container leaves the tree of its tag and the tree it would have returned to. */
  ghost function Cleared(w: World, c: Handle): World
    requires c in w.conts
  {
    var w', win := Lifted(w, c, false), w.conts[c];
    if win.saved.Some? && win.saved.value.node.Some? && Hosts(w', win.saved.value.spot, c) && !Fatal(w', win, c) then
      Spent(w', c, win.saved.value.spot, Tame(win))
    else w'
  }

  function Forgotten(w: World, c: Handle): World
    requires c in w.conts
  {
    var o := w.conts[c].spot.output;
    w.(all := Without(w.all, c), lists := w.lists[o := Without(ListAt(w, o), c)], conts := w.conts - {c})
  }

  /** The tag that is laid out at the end: the one the container was taken for. */
  function LastSpot(w: World, c: Handle): Spot
    requires c in w.conts
  {
    var win := w.conts[c];
    var o := if win.saved.Some? && win.saved.value.node.Some? then win.saved.value.spot.output else win.spot.output;
    Spot(o, if win.spot.workspace == 0 then ScreenAt(w, o).workspace else win.spot.workspace)
  }

  /** It is laid out when the container is tiled there, on an output that shows a BSP tag. */
  predicate LaysLast(w: World, c: Handle, fallback: Output)
    requires c in w.conts
  {
    var (win, p) := (w.conts[c], LastSpot(w, c));
    && win.allowed && !win.minimized && !win.floating && ModeAt(w, Spot(p.output, win.spot.workspace)) != Floating
    && p.output != fallback && ModeAt(w, Current(w, p.output)) == Bsp && ModeAt(w, p) == Bsp
  }

  ghost function LaidAt(w: World, p: Spot): World {
    w.(trees := w.trees[p := Laid(TreeAt(w, p), ScreenAt(w, p.output).area, Shown(w, p))])
  }

  ghost function Swept(w: World, c: Handle, fallback: Output): World
    requires c in w.conts
  {
    if LaysLast(w, c, fallback) then LaidAt(Cleared(w, c), LastSpot(w, c)) else Cleared(w, c)
  }

  ghost function Closed(w: World, c: Handle, fallback: Output): World
    requires c in w.conts
  {
    Forgotten(Swept(w, c, fallback), c)
  }

  /** The window under the cursor has a node, on the workspace the dropped one is on. */
  predicate Beside(w: World, c: Handle, under: Option<Handle>)
    requires c in w.conts
  {
    && under.Some? && under.value in w.conts && w.conts[under.value].node.Some?
    && w.conts[under.value].spot.workspace == w.conts[c].spot.workspace
  }

  /** The current tag of its output takes the window for the one focused last. */
  ghost function Aimed(w: World, u: Handle): World
    requires u in w.conts
  {
    var p := Current(w, w.conts[u].spot.output);
    match TreeAt(w, p)
    case Vacant => w
    case Tiled(t, _) => w.(trees := w.trees[p := Tiled(t, u)])
  }

  ghost function Dropped(w: World, c: Handle, under: Option<Handle>, side: Side): World
    requires c in w.conts
  {
    if Beside(w, c, under) then Planted(Aimed(w, under.value), c, side) else Planted(w, c, Right)
  }

  ghost function Floated(w: World, c: Handle, on: bool): World
    requires c in w.conts
  {
    var win := w.conts[c];
    var w' := w.(conts := w.conts[c := win.(floating := on)]);
    if !win.allowed || (!on && !Floats(w, c)) then w
    else if win.node.Some? then
      if Hosts(w', win.spot, c) then Acted(w', c, if on then Hide else Show) else w'
    else if !on && ModeAt(w, Current(w, win.spot.output)) == Bsp then Planted(w', c, Right)
    else w'
  }

  /**
   A container of a lost output is destroyed on another workspace than it had there, and was the
   one focused last in the tree: the entry of the tree is left with a dangling pointer.
   */
  ghost predicate Dangles(w: World, c: Handle)
    requires c in w.conts
  {
    !Tame(w.conts[c]) && !Crashes(w, c) &&
    var entry := TreeAt(w, w.conts[c].saved.value.spot);
    entry.Tiled? && entry.focus == c
  }

  /**
   A window is dropped beside one that is not on the current tag of its output, and that tag has
   a tree: its entry is left with the focus in the tree of another tag.
   */
  predicate Misaims(w: World, c: Handle, under: Option<Handle>)
    requires c in w.conts
  {
    Beside(w, c, under) &&
    var p := w.conts[under.value].spot;
    p != Current(w, p.output) && TreeAt(w, Current(w, p.output)).Tiled?
  }

  /** The event leaves an entry with its focus outside its tree. */
  ghost predicate Breaks(w: World, e: Event) {
    match e
    case Close(c) => c in w.conts && Dangles(w, c)
    case Drop(c, under, _) => c in w.conts && w.conts[c].node.None? && Misaims(w, c, under)
    case _ => false
  }

  ghost predicate Legal(w: World, e: Event, fallback: Output) {
    match e
    case Open(c, o, _) => c !in w.conts && o in w.plugged
    case Close(c) => c in w.conts && !Crashes(w, c)
    case ToOutput(c, o) => c in w.conts && o in w.plugged
    case Drop(c, _, _) => c in w.conts && w.conts[c].node.None?
    case InTree(c, action) => c in w.conts && w.conts[c].node.Some? && !action.Drop?
    case View(o, _, _) => o in w.plugged
    case Layout(o, _, _) => o in w.plugged
    case Unplug(a, target) => a in w.plugged - {fallback} && target in w.plugged - {a}
    case Plug(a, _) => a !in w.plugged
    case _ => e.c in w.conts
  }

  ghost function Step(w: World, e: Event, fallback: Output): World {
    if !Legal(w, e, fallback) then w else
    match e
    case Open(c, o, win) => Opened(w, c, o, win)
    case Close(c) => Closed(w, c, fallback)
    case ToOutput(c, o) => MovedToOutput(w, c, o)
    case ToTag(c, ws) => MovedToTag(w, c, ws)
    case SetTags(c, tags) =>
      if tags == {} then w else w.(conts := w.conts[c := w.conts[c].(tags := tags)])
    case Float(c, on) => Floated(w, c, on)
    case Alter(c, allowed, minimized, moving, box) =>
      w.(conts := w.conts[c := w.conts[c].(allowed := allowed, minimized := minimized, moving := moving, win := box)])
    case Tile(c) =>
      if Floats(w, c) || ModeAt(w, w.conts[c].spot) != Bsp || w.conts[c].node.Some? then w else Planted(w, c, Right)
    case Lift(c) => Lifted(w, c, true)
    case Drop(c, under, side) => Dropped(w, c, under, side)
    case InTree(c, action) => if Hosts(w, w.conts[c].spot, c) then Acted(w, c, action) else w
    case View(o, ws, tags) => w.(screens := w.screens[o := ScreenAt(w, o).(workspace := ws, tags := tags)])
    case Layout(o, ws, mode) => LaidOut(w, o, ws, mode)
    case Unplug(a, target) => Unplugged(w, a, target, fallback)
    case Plug(a, area) => Plugged(w, a, area, fallback)
  }

  /** A step on one container that stays where it is, or goes to an output that is there. */
  predicate OfOne(e: Event) {
    e.ToOutput? || e.ToTag? || e.SetTags? || e.Float? || e.Alter? || e.Tile? || e.Lift? || e.InTree?
  }

  lemma FloatedTidy(w: World, c: Handle, on: bool)
    requires Tidy(w) && c in w.conts && Elsewhere(w.conts[c])
    ensures var w' := Floated(w, c, on);
            && Tidy(w') && Alone(w, w', c)
            && w'.conts[c].saved == w.conts[c].saved && w'.conts[c].spot == w.conts[c].spot
  {
    if w.conts[c].node.Some? {
      FloatedNode(w, c, on);
    } else if on {
      FloatedOut(w, c);
    } else {
      FloatedIn(w, c);
    }
  }

  lemma FloatedNode(w: World, c: Handle, on: bool)
    requires Tidy(w) && c in w.conts && w.conts[c].node.Some?
    ensures var w' := Floated(w, c, on);
            && Tidy(w') && Alone(w, w', c)
            && w'.conts[c].saved == w.conts[c].saved && w'.conts[c].spot == w.conts[c].spot
  {
    TurnedOn(w, c, w.conts[c].(floating := on), if on then Hide else Show);
  }

  lemma FloatedOut(w: World, c: Handle)
    requires Tidy(w) && c in w.conts && w.conts[c].node.None?
    ensures var w' := Floated(w, c, true);
            && Tidy(w') && Alone(w, w', c)
            && w'.conts[c].saved == w.conts[c].saved && w'.conts[c].spot == w.conts[c].spot
  {
    ChangedTidy(w, c, w.conts[c].(floating := true));
  }

  lemma FloatedIn(w: World, c: Handle)
    requires Tidy(w) && c in w.conts && Elsewhere(w.conts[c]) && w.conts[c].node.None?
    ensures var w' := Floated(w, c, false);
            && Tidy(w') && Alone(w, w', c)
            && w'.conts[c].saved == w.conts[c].saved && w'.conts[c].spot == w.conts[c].spot
  {
    ChangedTidy(w, c, w.conts[c].(floating := false));
    SettledIn(w, c);
  }

  lemma TurnedOn(w: World, c: Handle, win: Window, action: Action)
    requires Tidy(w) && c in w.conts && win.node.Some? && !action.Drop?
    requires win == w.conts[c].(floating := win.floating)
    ensures var w1 := w.(conts := w.conts[c := win]);
            && Hosts(w1, win.spot, c)
            && var w' := Acted(w1, c, action); Tidy(w') && Alone(w, w', c) && w'.conts[c] == win
  {
    var w1 := w.(conts := w.conts[c := win]);
    ChangedTidy(w, c, win);
    ActedTidy(w1, c, action);
    AloneThenAlone(w, w1, Acted(w1, c, action), c);
  }

  /** A window that stops floating enters the tree of its tag. */
  lemma SettledIn(w: World, c: Handle)
    requires Tidy(w) && c in w.conts && Elsewhere(w.conts[c]) && w.conts[c].node.None?
    ensures var w' := Planted(w.(conts := w.conts[c := w.conts[c].(floating := false)]), c, Right);
            && Tidy(w') && Alone(w, w', c)
            && w'.conts[c].saved == w.conts[c].saved && w'.conts[c].spot == w.conts[c].spot
  {
    var w1 := w.(conts := w.conts[c := w.conts[c].(floating := false)]);
    ChangedTidy(w, c, w1.conts[c]);
    PlantedTidy(w1, c, Right);
    AloneThenAlone(w, w1, Planted(w1, c, Right), c);
  }

  lemma MoveTidy(w: World, e: Event, fallback: Output)
    requires Sound(w, fallback) && Legal(w, e, fallback) && (e.ToOutput? || e.ToTag? || e.Float?)
    ensures var w' := Step(w, e, fallback);
            && Tidy(w') && Alone(w, w', e.c)
            && w'.conts[e.c].saved == w.conts[e.c].saved && w'.conts[e.c].spot.output in w.plugged
  {
    match e
    case ToOutput(c, o) => MovedToOutputKeeps(w, c, o);
    case ToTag(c, ws) => MovedToTagKeeps(w, c, ws);
    case Float(c, on) => FloatedTidy(w, c, on);
  }

  lemma AlterTidy(w: World, e: Event, fallback: Output)
    requires Sound(w, fallback) && Legal(w, e, fallback) && (e.SetTags? || e.Alter?)
    ensures var w' := Step(w, e, fallback);
            && Tidy(w') && Alone(w, w', e.c)
            && w'.conts[e.c].saved == w.conts[e.c].saved && w'.conts[e.c].spot.output in w.plugged
  {
    match e
    case SetTags(c, tags) => ChangedTidy(w, c, w.conts[c].(tags := tags));
    case Alter(c, allowed, minimized, moving, box) =>
      ChangedTidy(w, c, w.conts[c].(allowed := allowed, minimized := minimized, moving := moving, win := box));
  }

  lemma TreeTidy(w: World, e: Event, fallback: Output)
    requires Sound(w, fallback) && Legal(w, e, fallback) && (e.Tile? || e.Lift? || e.InTree?)
    ensures var w' := Step(w, e, fallback);
            && Tidy(w') && Alone(w, w', e.c)
            && w'.conts[e.c].saved == w.conts[e.c].saved && w'.conts[e.c].spot.output in w.plugged
  {
    match e
    case Tile(c) => if w.conts[c].node.None? { PlantedTidy(w, c, Right); }
    case Lift(c) => LiftedTidy(w, c, true);
    case InTree(c, action) => ActedTidy(w, c, action);
  }

  lemma OneTidy(w: World, e: Event, fallback: Output)
    requires Sound(w, fallback) && Legal(w, e, fallback) && OfOne(e)
    ensures var w' := Step(w, e, fallback);
            && Tidy(w') && Alone(w, w', e.c)
            && w'.conts[e.c].saved == w.conts[e.c].saved && w'.conts[e.c].spot.output in w.plugged
  {
    if e.ToOutput? || e.ToTag? || e.Float? {
      MoveTidy(w, e, fallback);
    } else if e.SetTags? || e.Alter? {
      AlterTidy(w, e, fallback);
    } else {
      TreeTidy(w, e, fallback);
    }
  }

  lemma OpenedTidy(w: World, c: Handle, o: Output, win: Window)
    requires Tidy(w) && c !in w.conts
    ensures Tidy(Opened(w, c, o, win))
  {
    var w' := Opened(w, c, o, win);
    assert Single(w, o) && c !in ListAt(w, o) && c !in w.all;
    PrependOne(ListAt(w, o), c);
    PrependOne(w.all, c);
    forall q ensures Stands(w', q) { assert Stands(w, q); }
    forall q ensures Single(w', q) { assert Single(w, q); }
    forall q, d ensures Hosts(w', q, d) <==> d in w'.conts && Owned(w'.conts[d], q) {
      assert Hosts(w, q, d) <==> d in w.conts && Owned(w.conts[d], q);
    }
    forall q, d ensures d in ListAt(w', q) <==> d in w'.conts && w'.conts[d].spot.output == q {
      assert d in ListAt(w, q) <==> d in w.conts && w.conts[d].spot.output == q;
    }
  }

  /**
   Destroying a container finds the leaf it left in the tree of a lost output exactly when the
   container is still on the workspace it had there.
   */
  lemma ClosedFinds(w: World, c: Handle, fallback: Output)
    requires Sound(w, fallback) && c in w.conts && w.conts[c].saved.Some? && w.conts[c].saved.value.node.Some?
    ensures Hosts(Lifted(w, c, false), Sought(w.conts[c]), c) <==> Tame(w.conts[c])
  {
    LiftedTidy(w, c, false);
  }

  /** Leaving the tree of its tag, a container leaves the one it would return to alone. */
  lemma StillThere(w: World, c: Handle, fallback: Output)
    requires Sound(w, fallback) && c in w.conts && w.conts[c].saved.Some? && w.conts[c].saved.value.node.Some?
    ensures var (w', q) := (Lifted(w, c, false), w.conts[c].saved.value.spot);
            && Tidy(w') && Alone(w, w', c) && w'.lists == w.lists && w'.conts[c] == w.conts[c].(node := None)
            && Hosts(w', q, c) && TreeAt(w', q) == TreeAt(w, q) && w.conts[c].saved.value.node == Some(q)
  {
    LiftedTidy(w, c, false);
  }

  /** What the clearing of a container leaves alone. */
  ghost predicate OnlyCleared(w: World, w': World, c: Handle)
    requires c in w.conts
  {
    var win := w.conts[c];
    && c in w'.conts && w'.conts.Keys == w.conts.Keys && w'.conts == w.conts[c := w'.conts[c]]
    && w'.all == w.all && w'.lists == w.lists && w'.screens == w.screens && w'.plugged == w.plugged
    && w'.conts[c].spot == win.spot && w'.conts[c].node.None?
    && !(w'.conts[c].saved.Some? && w'.conts[c].saved.value.node.Some?)
    && forall p: Spot ::
         p.output != win.spot.output && !(win.saved.Some? && p.output == win.saved.value.spot.output) ==>
         TreeAt(w', p) == TreeAt(w, p)
  }

  lemma SpentFrame(w: World, w1: World, c: Handle, tame: bool)
    requires Alone(w, w1, c) && w1.lists == w.lists
    requires w1.conts[c] == w.conts[c].(node := None) && w.conts[c].saved.Some?
    requires Hosts(w1, w.conts[c].saved.value.spot, c) && (!tame ==> Deep(TreeAt(w1, w.conts[c].saved.value.spot), c))
    ensures OnlyCleared(w, Spent(w1, c, w.conts[c].saved.value.spot, tame), c)
  {
  }

  lemma ClearedTidy(w: World, c: Handle, fallback: Output)
    requires Sound(w, fallback) && c in w.conts && !Crashes(w, c) && !Breaks(w, Close(c))
    ensures Tidy(Cleared(w, c)) && OnlyCleared(w, Cleared(w, c), c)
  {
    if w.conts[c].saved.Some? && w.conts[c].saved.value.node.Some? {
      ClearedTwice(w, c, fallback);
    } else {
      LiftedTidy(w, c, false);
    }
  }

  lemma ClearedTwice(w: World, c: Handle, fallback: Output)
    requires Sound(w, fallback) && c in w.conts && !Crashes(w, c) && !Breaks(w, Close(c))
    requires w.conts[c].saved.Some? && w.conts[c].saved.value.node.Some?
    ensures Tidy(Cleared(w, c)) && OnlyCleared(w, Cleared(w, c), c)
  {
    var (w1, win) := (Lifted(w, c, false), w.conts[c]);
    StillThere(w, c, fallback);
    SpentTidy(w1, c, win.saved.value.spot, Tame(win));
    SpentFrame(w, w1, c, Tame(win));
  }

  lemma SpentTidy(w: World, c: Handle, q: Spot, tame: bool)
    requires Tidy(w) && c in w.conts && w.conts[c].saved.Some? && w.conts[c].saved.value.node == Some(q)
    requires Hosts(w, q, c) && w.conts[c].node.None?
    requires !tame ==> Deep(TreeAt(w, q), c) && TreeAt(w, q).focus != c
    ensures Tidy(Spent(w, c, q, tame))
  {
    var w' := Spent(w, c, q, tame);
    assert Stands(w, q);
    PrunedMembers(TreeAt(w, q), c, false, Shown(w, q));
    if !tame { BlindedMembers(TreeAt(w, q), c, Shown(w, q)); }
    SpentTreed(w, w', c, q);
    forall o ensures Single(w', o) { assert Single(w, o); }
    forall o, d ensures d in ListAt(w', o) <==> d in w'.conts && w'.conts[d].spot.output == o {
      assert d in ListAt(w, o) <==> d in w.conts && w.conts[d].spot.output == o;
    }
  }

  lemma SpentTreed(w: World, w': World, c: Handle, q: Spot)
    requires Treed(w) && c in w.conts && w.conts[c].saved.Some? && w.conts[c].saved.value.node == Some(q)
    requires Hosts(w, q, c) && w.conts[c].node.None?
    requires w'.conts == w.conts[c := w.conts[c].(saved := None)]
    requires forall p: Spot :: p != q ==> TreeAt(w', p) == TreeAt(w, p)
    requires Shaped(TreeAt(w', q)) && Members(TreeAt(w', q)) == Members(TreeAt(w, q)) - {c}
    ensures Treed(w')
  {
    forall p ensures Stands(w', p) { assert Stands(w, p); }
    forall p, d ensures Hosts(w', p, d) <==> d in w'.conts && Owned(w'.conts[d], p) {
      assert Hosts(w, p, d) <==> d in w.conts && Owned(w.conts[d], p);
    }
  }

  lemma ForgottenListed(w: World, c: Handle)
    requires Listed(w) && c in w.conts
    ensures Listed(Forgotten(w, c))
  {
    var (o, w') := (w.conts[c].spot.output, Forgotten(w, c));
    assert Single(w, o);
    WithoutOne(w.all, c);
    WithoutOne(ListAt(w, o), c);
    forall q ensures Single(w', q) { assert Single(w, q); }
    forall q, d ensures d in ListAt(w', q) <==> d in w'.conts && w'.conts[d].spot.output == q {
      assert d in ListAt(w, q) <==> d in w.conts && w.conts[d].spot.output == q;
    }
  }

  lemma ForgottenTidy(w: World, c: Handle)
    requires Tidy(w) && c in w.conts && w.conts[c].node.None?
    requires !(w.conts[c].saved.Some? && w.conts[c].saved.value.node.Some?)
    ensures Tidy(Forgotten(w, c))
  {
    var w' := Forgotten(w, c);
    ForgottenListed(w, c);
    forall q ensures Stands(w', q) { assert Stands(w, q); }
    forall q, d ensures Hosts(w', q, d) <==> d in w'.conts && Owned(w'.conts[d], q) {
      assert Hosts(w, q, d) <==> d in w.conts && Owned(w.conts[d], q);
    }
  }

  // ---- every step and every run ----

  lemma OneSound(w: World, e: Event, fallback: Output)
    requires Sound(w, fallback) && Legal(w, e, fallback) && OfOne(e)
    ensures Sound(Step(w, e, fallback), fallback)
  {
    OneTidy(w, e, fallback);
  }

  /** A layout leaves the agreement as it is, be there one or not. */
  lemma LaidAtTidy(w: World, p: Spot)
    requires Tidy(w)
    ensures Tidy(LaidAt(w, p))
  {
    var w' := LaidAt(w, p);
    LaidKeeps(TreeAt(w, p), ScreenAt(w, p.output).area, Shown(w, p));
    forall q ensures Stands(w', q) { assert Stands(w, q); }
    assert forall q, d :: Hosts(w', q, d) <==> Hosts(w, q, d);
    assert forall o :: Single(w', o) <==> Single(w, o);
    assert forall o :: ListAt(w', o) == ListAt(w, o);
  }

  lemma SweptTidy(w: World, c: Handle, fallback: Output)
    requires Sound(w, fallback) && c in w.conts && !Crashes(w, c) && !Breaks(w, Close(c))
    ensures var w' := Swept(w, c, fallback); Tidy(w') && OnlyCleared(w, w', c)
  {
    ClearedTidy(w, c, fallback);
    LaidAtTidy(Cleared(w, c), LastSpot(w, c));
  }

  lemma ClosedSound(w: World, c: Handle, fallback: Output)
    requires Sound(w, fallback) && c in w.conts && !Crashes(w, c) && !Breaks(w, Close(c))
    ensures Sound(Closed(w, c, fallback), fallback)
  {
    SweptTidy(w, c, fallback);
    ForgottenTidy(Swept(w, c, fallback), c);
  }

  /** A dangling pointer in the entry of a tree is not repaired. */
  lemma ClosedBreaks(w: World, c: Handle, fallback: Output)
    requires Sound(w, fallback) && c in w.conts && Breaks(w, Close(c))
    ensures !Sound(Closed(w, c, fallback), fallback)
  {
    StillThere(w, c, fallback);
    var (w1, w2, q) := (Lifted(w, c, false), Cleared(w, c), w.conts[c].saved.value.spot);
    assert Stands(w1, q);
    BlindedMembers(TreeAt(w1, q), c, Shown(w1, q));
    assert TreeAt(w2, q) == Blinded(TreeAt(w1, q), c, Shown(w1, q));
    LaidKeeps(TreeAt(w2, q), ScreenAt(w2, q.output).area, Shown(w2, q));
    assert !Stands(Closed(w, c, fallback), q);
  }

  // ---- a window is dropped ----

  lemma AimedTidy(w: World, u: Handle)
    requires Tidy(w) && u in w.conts && w.conts[u].node.Some?
    requires var p := w.conts[u].spot; p == Current(w, p.output) || TreeAt(w, Current(w, p.output)).Vacant?
    ensures Tidy(Aimed(w, u))
  {
    var (w', p) := (Aimed(w, u), w.conts[u].spot);
    assert Hosts(w, p, u);
    forall q ensures Stands(w', q) { assert Stands(w, q); }
    assert forall q, d :: Hosts(w', q, d) <==> Hosts(w, q, d);
    assert forall o :: Single(w', o) <==> Single(w, o);
    assert forall o :: ListAt(w', o) == ListAt(w, o);
  }

  /** The window is in a tree of its output, and no other window concerned. */
  ghost predicate Placing(w: World, w': World, c: Handle)
    requires c in w.conts
  {
    && w'.all == w.all && w'.screens == w.screens && w'.plugged == w.plugged
    && w'.conts == w.conts[c := w.conts[c].(floating := false, node := Some(w.conts[c].spot))]
    && forall p: Spot :: p.output !in w.plugged ==> TreeAt(w', p) == TreeAt(w, p)
  }

  lemma PlantedPlacing(w: World, c: Handle, side: Side)
    requires Tidy(w) && c in w.conts && Elsewhere(w.conts[c])
    requires w.conts[c].node.None? && w.conts[c].spot.output in w.plugged
    ensures Tidy(Planted(w, c, side)) && Placing(w, Planted(w, c, side), c)
  {
    PlantedTidy(w, c, side);
  }

  lemma DroppedTidy(w: World, c: Handle, under: Option<Handle>, side: Side, fallback: Output)
    requires Sound(w, fallback) && c in w.conts && w.conts[c].node.None? && !Misaims(w, c, under)
    ensures Tidy(Dropped(w, c, under, side)) && Placing(w, Dropped(w, c, under, side), c)
  {
    if Beside(w, c, under) {
      AimedTidy(w, under.value);
      PlantedPlacing(Aimed(w, under.value), c, side);
    } else {
      PlantedPlacing(w, c, Right);
    }
  }

  /** A focus that is in the tree of another tag is not repaired. */
  lemma DroppedBreaks(w: World, c: Handle, under: Option<Handle>, side: Side, fallback: Output)
    requires Sound(w, fallback) && c in w.conts && w.conts[c].node.None? && Misaims(w, c, under)
    ensures !Sound(Dropped(w, c, under, side), fallback)
  {
    var (w', u) := (Dropped(w, c, under, side), under.value);
    var q := Current(w, w.conts[u].spot.output);
    assert !Hosts(w, q, u);
    assert TreeAt(w', q) == Tiled(TreeAt(w, q).tree, u);
    assert !Stands(w', q);
  }

  lemma LayoutSound(w: World, o: Output, ws: nat, mode: Mode, fallback: Output)
    requires Sound(w, fallback) && o in w.plugged
    ensures Sound(LaidOut(w, o, ws, mode), fallback)
  {
    LaidOutKeeps(w, o, ws, mode);
  }

  /** Every step keeps the windows, the trees and the lists in agreement, but for those that break an entry. */
  lemma StepSound(w: World, e: Event, fallback: Output)
    requires Sound(w, fallback)
    ensures Sound(Step(w, e, fallback), fallback) <==> !Breaks(w, e)
  {
    if Breaks(w, e) {
      StepBreaks(w, e, fallback);
    } else if Legal(w, e, fallback) {
      match e
      case Open(c, o, win) => OpenedTidy(w, c, o, win);
      case Close(c) => ClosedSound(w, c, fallback);
      case Drop(c, under, side) => DroppedTidy(w, c, under, side, fallback);
      case View(o, ws, tags) => ScreenedTidy(w, Step(w, e, fallback).screens, w.plugged);
      case Layout(o, ws, mode) => LayoutSound(w, o, ws, mode, fallback);
      case Unplug(a, target) => UnpluggedKeeps(w, a, target, fallback);
      case Plug(a, area) => PluggedKeeps(w, a, area, fallback);
      case _ => OneSound(w, e, fallback);
    }
  }

  lemma StepBreaks(w: World, e: Event, fallback: Output)
    requires Sound(w, fallback) && Breaks(w, e)
    ensures !Sound(Step(w, e, fallback), fallback)
  {
    match e
    case Close(c) => ClosedBreaks(w, c, fallback);
    case Drop(c, under, side) => DroppedBreaks(w, c, under, side, fallback);
  }

  ghost function Run(w: World, es: seq<Event>, fallback: Output): World
    decreases |es|
  {
    if es == [] then w else Run(Step(w, es[0], fallback), es[1..], fallback)
  }

  ghost predicate RunBreaks(w: World, es: seq<Event>, fallback: Output)
    decreases |es|
  {
    es != [] && (Breaks(w, es[0]) || RunBreaks(Step(w, es[0], fallback), es[1..], fallback))
  }

  /** Before any window is opened there is the fallback output. */
  function Start(fallback: Output): World {
    World([], map[], map[fallback := NEW], {fallback}, map[], map[])
  }

  lemma StartSound(fallback: Output)
    ensures Sound(Start(fallback), fallback)
  {
  }

  lemma {:induction false} RunSound(w: World, es: seq<Event>, fallback: Output)
    requires Sound(w, fallback) && !RunBreaks(w, es, fallback)
    ensures Sound(Run(w, es, fallback), fallback)
    decreases |es|
  {
    if es != [] {
      StepSound(w, es[0], fallback);
      RunSound(Step(w, es[0], fallback), es[1..], fallback);
    }
  }

  /**
   In every run that breaks no entry each container is in exactly one list, that of its output. It
   has a node exactly when it is a leaf of the tree of its output and workspace, and it is a leaf
   of no other tree but the one it left on an output that is gone.
   */
  lemma EveryRun(es: seq<Event>, fallback: Output, c: Handle, o: Output, p: Spot)
    ensures var w := Run(Start(fallback), es, fallback);
            c in w.conts && !RunBreaks(Start(fallback), es, fallback) ==>
              && (c in ListAt(w, o) <==> w.conts[c].spot.output == o) && Distinct(ListAt(w, o))
              && (w.conts[c].node.Some? <==> Hosts(w, w.conts[c].spot, c))
              && (Hosts(w, p, c) && w.conts[c].saved.None? ==> p == w.conts[c].spot)
              && (Hosts(w, p, c) && p.output in w.plugged ==> p == w.conts[c].spot)
  {
    var w := Run(Start(fallback), es, fallback);
    if c in w.conts && !RunBreaks(Start(fallback), es, fallback) {
      StartSound(fallback);
      RunSound(Start(fallback), es, fallback);
      assert Single(w, o);
      assert Hosts(w, w.conts[c].spot, c) <==> Owned(w.conts[c], w.conts[c].spot);
    }
  }

  // ---- an output is lost and found ----

  /** The container that is destroyed left a leaf in a tree of the output. */
  predicate Deserts(w: World, e: Event, lost: Output) {
    e.Close? && Awaits(w, e.c, lost)
  }

  /** While an output is gone, no step but the destruction of its windows concerns its trees. */
  lemma StepAway(w: World, e: Event, fallback: Output, lost: Output)
    requires Sound(w, fallback) && lost !in w.plugged
    requires !(e.Plug? && e.a == lost) && !Deserts(w, e, lost) && !Breaks(w, e)
    ensures Untouched(w, Step(w, e, fallback), lost) && lost !in Step(w, e, fallback).plugged
  {
    if Legal(w, e, fallback) {
      match e
      case Open(c, o, win) =>
      case Close(c) => ClosedAway(w, c, fallback, lost);
      case Drop(c, under, side) => DroppedAway(w, c, under, side, fallback, lost);
      case View(o, ws, tags) =>
      case Layout(o, ws, mode) => LayoutAway(w, o, ws, mode, fallback, lost);
      case Unplug(a, target) => UnplugAway(w, a, target, fallback, lost);
      case Plug(a, area) => PlugAway(w, a, area, fallback, lost);
      case _ => OneAway(w, e, fallback, lost);
    }
  }

  lemma OneAway(w: World, e: Event, fallback: Output, lost: Output)
    requires Sound(w, fallback) && Legal(w, e, fallback) && OfOne(e) && lost !in w.plugged
    ensures Untouched(w, Step(w, e, fallback), lost) && lost !in Step(w, e, fallback).plugged
  {
    OneTidy(w, e, fallback);
    FarFrom(w, Step(w, e, fallback), w.plugged, lost);
  }

  lemma DroppedAway(w: World, c: Handle, under: Option<Handle>, side: Side, fallback: Output, lost: Output)
    requires Sound(w, fallback) && c in w.conts && w.conts[c].node.None? && !Misaims(w, c, under) && lost !in w.plugged
    ensures var w' := Dropped(w, c, under, side); Untouched(w, w', lost) && lost !in w'.plugged
  {
    DroppedTidy(w, c, under, side, fallback);
  }

  lemma UnplugAway(w: World, a: Output, target: Output, fallback: Output, lost: Output)
    requires Sound(w, fallback) && a in w.plugged - {fallback} && target in w.plugged - {a} && lost !in w.plugged
    ensures var w' := Unplugged(w, a, target, fallback); Untouched(w, w', lost) && lost !in w'.plugged
  {
    UnpluggedKeeps(w, a, target, fallback);
    UnpluggedUntouched(w, a, target, fallback, lost);
  }

  lemma PlugAway(w: World, a: Output, area: Box, fallback: Output, lost: Output)
    requires Sound(w, fallback) && a !in w.plugged && lost !in w.plugged + {a}
    ensures var w' := Plugged(w, a, area, fallback); Untouched(w, w', lost) && lost !in w'.plugged
  {
    PluggedKeeps(w, a, area, fallback);
    PluggedUntouched(w, a, area, fallback, lost);
  }

  lemma LayoutAway(w: World, o: Output, ws: nat, mode: Mode, fallback: Output, lost: Output)
    requires Sound(w, fallback) && o in w.plugged && lost !in w.plugged
    ensures Untouched(w, LaidOut(w, o, ws, mode), lost) && lost !in LaidOut(w, o, ws, mode).plugged
  {
    LaidOutKeeps(w, o, ws, mode);
    FarFrom(w, LaidOut(w, o, ws, mode), {o}, lost);
  }

  lemma ClosedAway(w: World, c: Handle, fallback: Output, lost: Output)
    requires Sound(w, fallback) && lost !in w.plugged && c in w.conts && !Awaits(w, c, lost)
    requires !Crashes(w, c) && !Breaks(w, Close(c))
    ensures Untouched(w, Closed(w, c, fallback), lost)
  {
    SweptTidy(w, c, fallback);
  }

  /** A run in which the output does not come back, none of its windows is destroyed, and no entry broken. */
  ghost predicate Absence(w: World, es: seq<Event>, fallback: Output, lost: Output)
    decreases |es|
  {
    es != [] ==>
      && !(es[0].Plug? && es[0].a == lost) && !Deserts(w, es[0], lost) && !Breaks(w, es[0])
      && Absence(Step(w, es[0], fallback), es[1..], fallback, lost)
  }

  lemma {:induction false} RunAway(w: World, es: seq<Event>, fallback: Output, lost: Output)
    requires Sound(w, fallback) && lost !in w.plugged && Absence(w, es, fallback, lost)
    ensures Untouched(w, Run(w, es, fallback), lost) && lost !in Run(w, es, fallback).plugged
    decreases |es|
  {
    if es != [] {
      StepSound(w, es[0], fallback);
      StepAway(w, es[0], fallback, lost);
      RunAway(Step(w, es[0], fallback), es[1..], fallback, lost);
    }
  }

  /** A run in which the output does not come back, the window is not destroyed, and no entry broken. */
  ghost predicate Survives(w: World, es: seq<Event>, fallback: Output, lost: Output, c: Handle)
    decreases |es|
  {
    es != [] ==>
      && !(es[0].Plug? && es[0].a == lost) && es[0] != Close(c) && !Breaks(w, es[0])
      && Survives(Step(w, es[0], fallback), es[1..], fallback, lost, c)
  }

  lemma StepRemembers(w: World, e: Event, fallback: Output, lost: Output, c: Handle)
    requires Sound(w, fallback) && lost !in w.plugged && Awaits(w, c, lost)
    requires !(e.Plug? && e.a == lost) && e != Close(c) && !Breaks(w, e)
    ensures var w' := Step(w, e, fallback);
            && lost !in w'.plugged && c in w'.conts && w'.conts[c].saved == w.conts[c].saved
  {
    if Deserts(w, e, lost) {
      if Legal(w, e, fallback) { SweptTidy(w, e.c, fallback); }
    } else {
      StepAway(w, e, fallback, lost);
    }
  }

  lemma {:induction false} RunRemembers(w: World, es: seq<Event>, fallback: Output, lost: Output, c: Handle)
    requires Sound(w, fallback) && lost !in w.plugged && Awaits(w, c, lost)
    requires Survives(w, es, fallback, lost, c)
    ensures var w' := Run(w, es, fallback);
            && lost !in w'.plugged && c in w'.conts && w'.conts[c].saved == w.conts[c].saved && Sound(w', fallback)
    decreases |es|
  {
    if es != [] {
      StepSound(w, es[0], fallback);
      StepRemembers(w, es[0], fallback, lost, c);
      RunRemembers(Step(w, es[0], fallback), es[1..], fallback, lost, c);
    }
  }

  lemma Lost(w: World, a: Output, target: Output, fallback: Output, c: Handle)
    requires Sound(w, fallback) && a in w.plugged - {fallback} && target in w.plugged - {a}
    requires c in w.conts && w.conts[c].spot.output == a && w.conts[c].saved.None?
    ensures var w' := Unplugged(w, a, target, fallback);
            && Sound(w', fallback) && a !in w'.plugged && Awaits(w', c, a)
            && w'.conts[c].saved == SavedAt(w.conts[c]).saved
  {
    UnpluggedKeeps(w, a, target, fallback);
  }

  lemma Found(w: World, a: Output, area: Box, fallback: Output, c: Handle)
    requires Sound(w, fallback) && a !in w.plugged && Awaits(w, c, a)
    ensures var w' := Plugged(w, a, area, fallback);
            Sound(w', fallback) && c in w'.conts && Back(w.conts[c].saved.value, w'.conts[c])
  {
    PluggedKeeps(w, a, area, fallback);
  }

  /**
   An output is lost, anything happens, and it comes back: every window that lived there and was
   not destroyed has its tag, its workspace and its leaf again, however often it was rescued or
   moved meanwhile.
   */
  lemma RoundTrip(w: World, es: seq<Event>, a: Output, target: Output, area: Box, fallback: Output, c: Handle)
    requires Sound(w, fallback) && a in w.plugged - {fallback} && target in w.plugged - {a}
    requires c in w.conts && w.conts[c].spot.output == a && w.conts[c].saved.None?
    requires Survives(Unplugged(w, a, target, fallback), es, fallback, a, c)
    ensures var w' := Plugged(Run(Unplugged(w, a, target, fallback), es, fallback), a, area, fallback);
            && c in w'.conts && w'.conts[c].saved.None?
            && w'.conts[c].spot == w.conts[c].spot && w'.conts[c].tags == w.conts[c].tags
            && w'.conts[c].node == w.conts[c].node
            && (Hosts(w', w.conts[c].spot, c) <==> Hosts(w, w.conts[c].spot, c))
  {
    var w1 := Unplugged(w, a, target, fallback);
    Lost(w, a, target, fallback, c);
    RunRemembers(w1, es, fallback, a, c);
    var w2 := Run(w1, es, fallback);
    Found(w2, a, area, fallback, c);
    NodeIsLeaf(w, c, fallback);
    NodeIsLeaf(Plugged(w2, a, area, fallback), c, fallback);
  }

  lemma NodeIsLeaf(w: World, c: Handle, fallback: Output)
    requires Sound(w, fallback) && c in w.conts && w.conts[c].saved.None?
    ensures Hosts(w, w.conts[c].spot, c) <==> w.conts[c].node.Some?
  {
  }

  /** The trees of a lost output wait unchanged unless a window that left its leaf there is destroyed. */
  lemma TreesWait(w: World, es: seq<Event>, a: Output, fallback: Output, ws: nat)
    requires Sound(w, fallback) && a !in w.plugged && Absence(w, es, fallback, a)
    ensures TreeAt(Run(w, es, fallback), Spot(a, ws)) == TreeAt(w, Spot(a, ws))
  {
    RunAway(w, es, fallback, a);
  }

  lemma {:induction false} AbsenceSound(w: World, es: seq<Event>, fallback: Output, lost: Output)
    requires Sound(w, fallback) && Absence(w, es, fallback, lost)
    ensures Sound(Run(w, es, fallback), fallback)
    decreases |es|
  {
    if es != [] {
      StepSound(w, es[0], fallback);
      AbsenceSound(Step(w, es[0], fallback), es[1..], fallback, lost);
    }
  }

  /**
   A window of a lost output that has been moved to another workspace had better not be destroyed
   before the output is back: its leaf would be looked for in a tree it is not in.
   */
  lemma StrayedDestroy(w: World, c: Handle, ws: nat, fallback: Output)
    requires Sound(w, fallback) && c in w.conts && w.conts[c].saved.Some? && w.conts[c].saved.value.node.Some?
    ensures var (w', place) := (MovedToTag(w, c, ws), w.conts[c].saved.value);
            && c in w'.conts && w'.conts[c].saved == Some(place) && Hosts(w', place.spot, c)
            && (Hosts(Lifted(w', c, false), Sought(w'.conts[c]), c) <==> ws == place.spot.workspace)
  {
    OneSound(w, ToTag(c, ws), fallback);
    MovedToTagKeeps(w, c, ws);
    var w' := MovedToTag(w, c, ws);
    assert Hosts(w', w.conts[c].saved.value.spot, c);
    ClosedFinds(w', c, fallback);
  }
}

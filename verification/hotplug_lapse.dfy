/** Runs from a fresh server to each step that goes wrong. */
module HotplugLapse {
  import opened Lists
  import opened Options
  import opened Geometry
  import opened BspTree
  import opened BspLayout
  import opened BspOps
  import opened BspRuns
  import opened BspEntry
  import opened Membership
  import opened Hotplug
  import opened HotplugTrees

  const AREA := Box(0, 0, 2, 1)

  const WIN := Window(Spot(1, 1), {1}, None, None, false, true, false, false, ORIGIN)

  /** An output appears, and two of its tags turn to BSP mode. */
  function Fresh(): seq<Event> {
    [Plug(1, AREA), Layout(1, 1, Bsp), Layout(1, 2, Bsp)]
  }

  /** A window is opened, and tiled when it is mapped. */
  function Opening(c: Handle): seq<Event> {
    [Open(c, 1, WIN), Tile(c)]
  }

  /** Another output appears, the first one is lost, and a window of it is sent to the second tag. */
  function Losing(c: Handle): seq<Event> {
    [Plug(2, AREA), Unplug(1, 2), ToTag(c, 2)]
  }

  // ---- runs ----

  ghost predicate Leads(es: seq<Event>, w: World) {
    Run(Start(0), es, 0) == w && !RunBreaks(Start(0), es, 0) && Sound(w, 0)
  }

  lemma {:induction false} RunConcat(w: World, es: seq<Event>, fs: seq<Event>)
    ensures Run(w, es + fs, 0) == Run(Run(w, es, 0), fs, 0)
    ensures RunBreaks(w, es + fs, 0) <==> RunBreaks(w, es, 0) || RunBreaks(Run(w, es, 0), fs, 0)
    decreases |es|
  {
    if es == [] {
      assert es + fs == fs;
    } else {
      assert (es + fs)[0] == es[0] && (es + fs)[1..] == es[1..] + fs;
      RunConcat(Step(w, es[0], 0), es[1..], fs);
    }
  }

  lemma One(w: World, e: Event)
    ensures Run(w, [e], 0) == Step(w, e, 0) && (RunBreaks(w, [e], 0) <==> Breaks(w, e))
  {
    assert [e][1..] == [];
    assert Run(Step(w, e, 0), [], 0) == Step(w, e, 0) && !RunBreaks(Step(w, e, 0), [], 0);
  }

  lemma Then(es: seq<Event>, w: World, e: Event)
    requires Leads(es, w) && !Breaks(w, e)
    ensures Leads(es + [e], Step(w, e, 0))
  {
    RunConcat(Start(0), es, [e]);
    One(w, e);
    StepSound(w, e, 0);
  }

  // ---- before there are windows ----

  /** No window, and one output besides the fallback output. */
  function Bare(screen: Screen): World {
    World([], map[], map[0 := NEW, 1 := screen], {0, 1}, map[], map[])
  }

  lemma PlugBare()
    ensures Step(Start(0), Plug(1, AREA), 0) == Bare(NEW.(area := AREA))
  {
    assert {0} + {1} == {0, 1};
  }

  lemma LayoutBare(screen: Screen, ws: nat)
    requires ws > 0
    ensures Step(Bare(screen), Layout(1, ws, Bsp), 0) == Bare(screen.(modes := screen.modes[ws := Bsp]))
  {
  }

  const FIRST := Screen(1, {1}, AREA, map[1 := Bsp, 2 := Bsp])

  lemma FreshLeads()
    ensures Leads(Fresh(), Bare(FIRST))
  {
    StartSound(0);
    assert Leads([], Start(0));
    PlugBare();
    Then([], Start(0), Plug(1, AREA));
    LayoutBare(NEW.(area := AREA), 1);
    Then([] + [Plug(1, AREA)], Bare(NEW.(area := AREA)), Layout(1, 1, Bsp));
    LayoutBare(NEW.(area := AREA, modes := map[1 := Bsp]), 2);
    var w := Bare(NEW.(area := AREA, modes := map[1 := Bsp]));
    Then([] + [Plug(1, AREA)] + [Layout(1, 1, Bsp)], w, Layout(1, 2, Bsp));
    assert Fresh() == [] + [Plug(1, AREA)] + [Layout(1, 1, Bsp)] + [Layout(1, 2, Bsp)];
  }

  // ---- windows ----

  /** The first output shows `ws`, both its tags are in BSP mode, and all windows are on it, none waiting. */
  ghost predicate Still(w: World, ws: nat) {
    && w.plugged == {0, 1} && w.screens.Keys == {0, 1}
    && w.screens[1].workspace == ws && w.screens[1].tags != {} && w.screens[1].modes == FIRST.modes
    && forall c :: c in w.conts ==> w.conts[c].spot.output == 1 && w.conts[c].saved.None?
  }

  /** The window has been tiled on the tag; it is focused, and deep exactly when it is not the first or second there. */
  ghost predicate Tiles(w: World, w': World, c: Handle, p: Spot) {
    && w'.conts.Keys == w.conts.Keys + {c}
    && w'.conts[c].spot == p && w'.conts[c].node == Some(p) && !w'.conts[c].floating
    && (forall d :: d in w.conts ==> w'.conts[d] == w.conts[d])
    && (forall q: Spot :: q != p ==> TreeAt(w', q) == TreeAt(w, q))
    && TreeAt(w', p).Tiled? && TreeAt(w', p).focus == c && c in Members(TreeAt(w', p))
    && (TreeAt(w, p).Tiled? ==>
          TreeAt(w', p).tree.Inner? && (Deep(TreeAt(w', p), c) <==> TreeAt(w, p).tree.Inner?))
  }

  lemma TiledOne(w: World, c: Handle)
    requires Sound(w, 0) && c in w.conts && w.conts[c].node.None? && w.conts[c].saved.None?
    requires !w.conts[c].floating && ModeAt(w, w.conts[c].spot) == Bsp
    ensures var (w', p) := (Step(w, Tile(c), 0), w.conts[c].spot);
            && Tiles(w.(conts := w.conts - {c}), w', c, p) && w'.screens == w.screens && w'.plugged == w.plugged
            && w'.conts[c].saved.None?
  {
    var (w', p) := (Planted(w, c, Right), w.conts[c].spot);
    assert !Hosts(w, p, c) && Stands(w, p);
    PlantedKeeps(w, c, Right);
    assert Hosts(w', p, c);
    var (e, g, area) := (TreeAt(w, p), Guested(w, c), ScreenAt(w, p.output).area);
    if e.Tiled? { GrownDeep(e, g, Right, area, ModeAt(w, p) == Bsp, Shown(w, p)); }
  }

  /** Everything but the window itself is as it was before it was opened. */
  lemma OpenedOne(w: World, c: Handle, ws: nat)
    requires Still(w, ws) && 1 <= ws && c !in w.conts
    ensures var w1 := Step(w, Open(c, 1, WIN), 0);
            && w1.conts - {c} == w.conts && c in w1.conts
            && w1.trees == w.trees && w1.screens == w.screens && w1.plugged == w.plugged
            && w1.conts[c] == WIN.(spot := Spot(1, ws), tags := w.screens[1].tags)
  {
    assert Step(w, Open(c, 1, WIN), 0) == Opened(w, c, 1, WIN);
  }

  lemma TiledNext(w: World, w1: World, c: Handle, ws: nat)
    requires Sound(w1, 0) && Still(w, ws) && 1 <= ws <= 2 && c !in w.conts && c in w1.conts
    requires w1.conts - {c} == w.conts && w1.trees == w.trees && w1.screens == w.screens && w1.plugged == w.plugged
    requires w1.conts[c] == WIN.(spot := Spot(1, ws), tags := w.screens[1].tags)
    ensures var w' := Step(w1, Tile(c), 0); Still(w', ws) && Tiles(w, w', c, Spot(1, ws))
  {
    TiledOne(w1, c);
  }

  lemma OpeningLeads(es: seq<Event>, w: World, c: Handle, ws: nat) returns (w': World)
    requires Leads(es, w) && Still(w, ws) && 1 <= ws <= 2 && c !in w.conts
    ensures Leads(es + Opening(c), w') && Still(w', ws) && Tiles(w, w', c, Spot(1, ws))
  {
    var w1 := Step(w, Open(c, 1, WIN), 0);
    Then(es, w, Open(c, 1, WIN));
    OpenedOne(w, c, ws);
    TiledNext(w, w1, c, ws);
    w' := Step(w1, Tile(c), 0);
    Then(es + [Open(c, 1, WIN)], w1, Tile(c));
    assert es + Opening(c) == es + [Open(c, 1, WIN)] + [Tile(c)];
  }

  lemma ViewLeads(es: seq<Event>, w: World, was: nat, ws: nat, tags: set<nat>) returns (w': World)
    requires Leads(es, w) && Still(w, was) && tags != {}
    ensures Leads(es + [View(1, ws, tags)], w') && Still(w', ws) && w'.conts == w.conts && w'.trees == w.trees
  {
    w' := Step(w, View(1, ws, tags), 0);
    Then(es, w, View(1, ws, tags));
  }

  // ---- an output is lost ----

  lemma SomeIn(cs: seq<Handle>)
    requires cs != []
    ensures exists c :: c in cs
  {
    assert cs[0] in cs;
  }

  lemma PlugSecond(w: World)
    requires Sound(w, 0) && w.plugged == {0, 1} && w.screens.Keys == {0, 1}
    requires forall c :: c in w.conts ==> w.conts[c].spot.output == 1
    ensures Step(w, Plug(2, AREA), 0) == w.(screens := w.screens[2 := NEW.(area := AREA)], plugged := {0, 1} + {2})
  {
    if ListAt(w, 0) != [] { SomeIn(ListAt(w, 0)); }
  }

  lemma Loses(w: World, c: Handle, a: Output, target: Output)
    requires Sound(w, 0) && a in w.plugged - {0} && target in w.plugged - {a} && c in w.conts
    requires forall d :: d in w.conts ==> w.conts[d].spot.output == a && w.conts[d].saved.None?
    ensures var w' := Step(w, Unplug(a, target), 0);
            && c in w'.conts && w'.conts[c].spot.output != a && w'.conts[c].saved == SavedAt(w.conts[c]).saved
            && SameTrees(w, w', a)
  {
    Lost(w, a, target, 0, c);
    UnpluggedStay(w, a, target, 0);
    LosesStep(w, Unplug(a, target));
    ElsewhereNow(Unplugged(w, a, target, 0), c, a);
  }

  lemma LosesStep(w: World, e: Event)
    requires Legal(w, e, 0) && e.Unplug?
    ensures Step(w, e, 0) == Unplugged(w, e.a, e.target, 0)
  {
  }

  lemma ElsewhereNow(w: World, c: Handle, a: Output)
    requires Sound(w, 0) && c in w.conts && a !in w.plugged
    ensures w.conts[c].spot.output != a
  {
  }

  lemma SentAside(w: World, c: Handle)
    requires Sound(w, 0) && c in w.conts && w.conts[c].spot.output != 1
    ensures var w' := Step(w, ToTag(c, 2), 0);
            && c in w'.conts && w'.conts[c].spot == Spot(w.conts[c].spot.output, 2)
            && w'.conts[c].saved == w.conts[c].saved && SameTrees(w, w', 1)
  {
    MovedToTagKeeps(w, c, 2);
  }

  /** The leaf stays in its tree, which stays as it is, when the output of the window is lost. */
  lemma UnplugLeads(es: seq<Event>, w: World, c: Handle, ws: nat) returns (w': World)
    requires Leads(es, w) && Still(w, ws) && c in w.conts && w.conts[c].node == Some(w.conts[c].spot)
    ensures Leads(es + [Plug(2, AREA)] + [Unplug(1, 2)], w')
    ensures c in w'.conts && w'.conts[c].spot.output != 1
    ensures w'.conts[c].saved == SavedAt(w.conts[c]).saved && SameTrees(w, w', 1)
  {
    var w1 := Step(w, Plug(2, AREA), 0);
    PlugSecond(w);
    Then(es, w, Plug(2, AREA));
    w' := Step(w1, Unplug(1, 2), 0);
    Then(es + [Plug(2, AREA)], w1, Unplug(1, 2));
    Loses(w1, c, 1, 2);
  }

  /** The window then goes to the second tag. */
  lemma LosingLeads(es: seq<Event>, w: World, c: Handle, ws: nat) returns (w': World)
    requires Leads(es, w) && Still(w, ws) && c in w.conts && w.conts[c].node == Some(w.conts[c].spot)
    ensures Leads(es + Losing(c), w')
    ensures c in w'.conts && w'.conts[c].spot.workspace == 2 && w'.conts[c].spot.output != 1
    ensures w'.conts[c].saved == SavedAt(w.conts[c]).saved && SameTrees(w, w', 1)
  {
    var w2 := UnplugLeads(es, w, c, ws);
    w' := Step(w2, ToTag(c, 2), 0);
    Then(es + [Plug(2, AREA)] + [Unplug(1, 2)], w2, ToTag(c, 2));
    SentAside(w2, c);
    assert es + Losing(c) == es + [Plug(2, AREA)] + [Unplug(1, 2)] + [ToTag(c, 2)];
  }

  // ---- what goes wrong ----

  /** The destruction of the window looks in the tree of the second tag of the lost output. */
  lemma LooksAside(w: World, c: Handle)
    requires Sound(w, 0) && c in w.conts && w.conts[c].spot.workspace == 2 && w.conts[c].spot.output != 1
    requires w.conts[c].saved.Some? && w.conts[c].saved.value.spot == Spot(1, 1) && w.conts[c].saved.value.node.Some?
    ensures Hosts(w, Spot(1, 1), c)
    ensures Crashes(w, c) <==> TreeAt(w, Spot(1, 2)).Vacant? || !Deep(TreeAt(w, Spot(1, 1)), c)
  {
    StillThere(w, c, 0);
  }

  /** The only window of a lost output is sent to another tag and closed: there is no entry where it is looked for. */
  lemma CrashReached()
    ensures var es := Fresh() + Opening(7) + Losing(7);
            var w := Run(Start(0), es, 0);
            !RunBreaks(Start(0), es, 0) && 7 in w.conts && Crashes(w, 7)
  {
    FreshLeads();
    var w1 := OpeningLeads(Fresh(), Bare(FIRST), 7, 1);
    var w2 := LosingLeads(Fresh() + Opening(7), w1, 7, 1);
    LooksAside(w2, 7);
  }

  /** A window on the second tag, which is then left. */
  function Second(): seq<Event> {
    Fresh() + [View(1, 2, {2})] + Opening(8) + [View(1, 1, {1})]
  }

  lemma SecondLeads() returns (w: World)
    ensures Leads(Second(), w) && Still(w, 1) && w.conts.Keys == {8} && TreeAt(w, Spot(1, 2)).Tiled?
  {
    FreshLeads();
    var w1 := ViewLeads(Fresh(), Bare(FIRST), 1, 2, {2});
    var w2 := OpeningLeads(Fresh() + [View(1, 2, {2})], w1, 8, 2);
    w := ViewLeads(Fresh() + [View(1, 2, {2})] + Opening(8), w2, 2, 1, {1});
  }

  /** The third window of a tag, which the fourth one leaves alone. */
  lemma ThreeLeads(es: seq<Event>, w: World) returns (w': World)
    requires Leads(es, w) && Still(w, 1) && {5, 6, 7} !! w.conts.Keys
    ensures Leads(es + Opening(5) + Opening(6) + Opening(7), w') && Still(w', 1)
    ensures 7 in w'.conts && w'.conts[7].spot == Spot(1, 1) && w'.conts[7].node == Some(Spot(1, 1))
    ensures TreeAt(w', Spot(1, 2)) == TreeAt(w, Spot(1, 2)) && 7 in Members(TreeAt(w', Spot(1, 1)))
    ensures Deep(TreeAt(w', Spot(1, 1)), 7) && TreeAt(w', Spot(1, 1)).focus == 7
  {
    var w5 := OpeningLeads(es, w, 5, 1);
    var w6 := OpeningLeads(es + Opening(5), w5, 6, 1);
    w' := OpeningLeads(es + Opening(5) + Opening(6), w6, 7, 1);
    ThirdIsDeep(w, w5, w6, w');
  }

  lemma ThirdIsDeep(w: World, w5: World, w6: World, w': World)
    requires Tiles(w, w5, 5, Spot(1, 1)) && Tiles(w5, w6, 6, Spot(1, 1)) && Tiles(w6, w', 7, Spot(1, 1))
    ensures 7 in w'.conts && w'.conts[7].spot == Spot(1, 1) && w'.conts[7].node == Some(Spot(1, 1))
    ensures TreeAt(w', Spot(1, 2)) == TreeAt(w, Spot(1, 2)) && 7 in Members(TreeAt(w', Spot(1, 1)))
    ensures Deep(TreeAt(w', Spot(1, 1)), 7) && TreeAt(w', Spot(1, 1)).focus == 7
  {
  }

  /** Three windows on a tag beside a tag with one. */
  function Four(): seq<Event> {
    Second() + Opening(5) + Opening(6) + Opening(7)
  }

  /** With other windows about, the leaf goes, but its entry keeps the focus on the window that is gone. */
  lemma DanglesReached()
    ensures var es := Four() + Losing(7);
            var w := Run(Start(0), es, 0);
            !RunBreaks(Start(0), es, 0) && Breaks(w, Close(7)) && !Sound(Step(w, Close(7), 0), 0)
  {
    var w0 := SecondLeads();
    var w1 := ThreeLeads(Second(), w0);
    var w2 := LosingLeads(Four(), w1, 7, 1);
    LooksAside(w2, 7);
    StepSound(w2, Close(7), 0);
  }

  /** Two tags with windows are viewed, and a window of the one that is not current is lifted. */
  function Viewed(): seq<Event> {
    Fresh() + [View(1, 2, {2})] + Opening(8) + Opening(9) + [View(1, 1, {1})] + Opening(5) + [View(1, 1, {1, 2})]
  }

  ghost predicate Paired(w: World) {
    && {8, 9} <= w.conts.Keys && w.conts[8].node == w.conts[9].node == Some(Spot(1, 2))
    && w.conts[8].spot == w.conts[9].spot == Spot(1, 2)
  }

  lemma PairLeads(es: seq<Event>, w: World) returns (w': World)
    requires Leads(es, w) && Still(w, 2) && {5, 8, 9} !! w.conts.Keys
    ensures Leads(es + Opening(8) + Opening(9), w') && Still(w', 2) && w'.conts.Keys == w.conts.Keys + {8, 9}
    ensures Paired(w')
  {
    var w1 := OpeningLeads(es, w, 8, 2);
    w' := OpeningLeads(es + Opening(8), w1, 9, 2);
    PairedNow(w, w1, w');
  }

  lemma PairedNow(w: World, w1: World, w': World)
    requires Tiles(w, w1, 8, Spot(1, 2)) && Tiles(w1, w', 9, Spot(1, 2))
    ensures Paired(w') && w'.conts.Keys == w.conts.Keys + {8, 9}
  {
  }

  lemma BothLead(es: seq<Event>, w: World) returns (w': World)
    requires Leads(es, w) && Still(w, 1) && Paired(w) && 5 !in w.conts
    ensures Leads(es + Opening(5) + [View(1, 1, {1, 2})], w') && Still(w', 1) && Paired(w')
    ensures 5 in w'.conts && w'.conts[5].node == Some(Spot(1, 1))
  {
    var w1 := OpeningLeads(es, w, 5, 1);
    w' := ViewLeads(es + Opening(5), w1, 1, 1, {1, 2});
  }

  lemma ViewedLeads() returns (w: World)
    ensures Leads(Viewed(), w) && Still(w, 1) && Paired(w) && 5 in w.conts && w.conts[5].node == Some(Spot(1, 1))
  {
    FreshLeads();
    var w1 := ViewLeads(Fresh(), Bare(FIRST), 1, 2, {2});
    var w2 := PairLeads(Fresh() + [View(1, 2, {2})], w1);
    var es := Fresh() + [View(1, 2, {2})] + Opening(8) + Opening(9);
    var w3 := ViewLeads(es, w2, 2, 1, {1});
    w := BothLead(es + [View(1, 1, {1})], w3);
  }

  /** It is dropped beside another window there: the current tag has its focus in the tree of the other one. */
  lemma MisaimsReached(side: Side)
    ensures var (es, e) := (Viewed() + [Event.Lift(9)], Event.Drop(9, Some(8), side));
            var w := Run(Start(0), es, 0);
            !RunBreaks(Start(0), es, 0) && Breaks(w, e) && !Sound(Step(w, e, 0), 0)
  {
    var w := ViewedLeads();
    Then(Viewed(), w, Event.Lift(9));
    LiftedMisaims(w, side);
    StepSound(Step(w, Event.Lift(9), 0), Event.Drop(9, Some(8), side), 0);
  }

  lemma LiftedMisaims(w: World, side: Side)
    requires Sound(w, 0) && Still(w, 1) && Paired(w) && 5 in w.conts && w.conts[5].node == Some(Spot(1, 1))
    ensures Breaks(Step(w, Event.Lift(9), 0), Event.Drop(9, Some(8), side))
  {
    var w' := Lifted(w, 9, true);
    LiftedTidy(w, 9, true);
    assert Hosts(w', Spot(1, 1), 5);
  }

  /**
   A window is lifted, sent to another BSP tag while it is dragged, and dropped: it has a node
   again, which the source asserts it has not.
   */
  lemma AssertReached(under: Option<Handle>, side: Side)
    ensures var es := Fresh() + Opening(7) + [Event.Lift(7)] + [ToTag(7, 2)];
            var w := Run(Start(0), es, 0);
            && !RunBreaks(Start(0), es, 0) && Sound(w, 0)
            && 7 in w.conts && w.conts[7].node == Some(Spot(1, 2)) && !Legal(w, Event.Drop(7, under, side), 0)
  {
    FreshLeads();
    var es := Fresh() + Opening(7);
    var w := OpeningLeads(Fresh(), Bare(FIRST), 7, 1);
    var w1 := LiftLeads(es, w, 7);
    Then(es + [Event.Lift(7)], w1, ToTag(7, 2));
    SentAgain(w1, 7);
    NoDrop(Step(w1, ToTag(7, 2), 0), 7, under, side);
  }

  lemma NoDrop(w: World, c: Handle, under: Option<Handle>, side: Side)
    requires c in w.conts && w.conts[c].node.Some?
    ensures !Legal(w, Event.Drop(c, under, side), 0)
  {
  }

  lemma LiftLeads(es: seq<Event>, w: World, c: Handle) returns (w': World)
    requires Leads(es, w) && c in w.conts
    ensures Leads(es + [Event.Lift(c)], w') && w'.screens == w.screens
    ensures c in w'.conts && w'.conts[c] == w.conts[c].(node := None)
  {
    Then(es, w, Event.Lift(c));
    w' := Step(w, Event.Lift(c), 0);
    LiftedTidy(w, c, true);
  }

  lemma SentAgain(w: World, c: Handle)
    requires c in w.conts && w.conts[c].node.None? && !w.conts[c].floating && w.conts[c].spot == Spot(1, 1)
    requires ModeAt(w, Spot(1, 2)) == Bsp
    ensures var w' := Step(w, ToTag(c, 2), 0); c in w'.conts && w'.conts[c].node == Some(Spot(1, 2))
  {
  }
}

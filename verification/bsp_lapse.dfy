/** Runs from an empty tag after which the screen is out of date and no layout is asked for. */
module BspLapse {
  import opened Lists
  import opened Geometry
  import opened BspTree
  import opened BspLayout
  import opened BspOps
  import opened BspRuns
  import opened BspEntry
  import opened BspQuiet
  import opened BspTag

  const AREA := Box(0, 0, 2, 1)
  const LEFT := Box(0, 0, 1, 1)
  const RIGHT := Box(1, 0, 1, 1)
  const CUT := Cut(true, AREA, Horizontal, 0.5)
  const AT := Setting(AREA, true, false, true, true)

  function Pixel(c: nat): Guest<nat> {
    Guest(c, true, false, ORIGIN)
  }

  function Shown(box: Box, c: nat): View<nat> {
    Leaf(Pane(true, box, true, false, box), c)
  }

  /** A tag with a window in each half, the first one as given. */
  function Halved(p: Pane, pending: bool): State<nat> {
    State(Tiled(Inner(CUT, Leaf(p, 0), Shown(RIGHT, 1)), 1), pending)
  }

  lemma HalvedShares()
    ensures Halves(AREA, Horizontal, 0.5) == (LEFT, RIGHT)
  {
    assert 2 as real * 0.5 == 1.0;
  }

  /** The first window of a tag in two halves. */
  lemma FirstHalf(p: Pane, pending: bool)
    ensures var s := Halved(p, pending);
            Present(s, 0) && Find(s, 0) == (In(Left, CUT, Shown(RIGHT, 1), Top), Leaf(p, 0))
  {
    var (k, t) := (In(Left, CUT, Shown(RIGHT, 1), Top), Leaf(p, 0));
    assert Plug(k, t) == Halved(p, pending).entry.tree && Leaves(Plug(k, t)) == [0, 1];
    LocateIsUnique(k, t);
  }

  lemma Alone(pending: bool)
    ensures var s := State(Tiled(Shown(AREA, 0), 0), pending); Present(s, 0) && Find(s, 0) == (Top, Shown(AREA, 0))
  {
    assert Leaves(Shown(AREA, 0)) == [0];
    LocateIsUnique(Top, Shown(AREA, 0));
  }

  lemma OneWindow()
    ensures Step(Empty(AT), Do(Add(Pixel(0), BspTree.Right))) == Desk(State(Tiled(Shown(AREA, 0), 0), false), AT)
  {
  }

  lemma TwoWindows()
    ensures var d := Desk(State(Tiled(Shown(AREA, 0), 0), false), AT);
            Step(d, Do(Add(Pixel(1), BspTree.Right))) == Desk(Halved(Pane(true, LEFT, true, false, LEFT), false), AT)
  {
    Alone(false);
    HalvedShares();
    var s := State(Tiled(Shown(AREA, 0), 0), false);
    assert !Present(s, 1);
    var k := InsertCtx(Top, Shown(AREA, 0), BspTree.Right, AREA);
    assert EnableUp(k, Pixel(1).Node()) == Inner(CUT, Shown(AREA, 0), Pixel(1).Node());
    assert Update(Inner(CUT, Shown(AREA, 0), Pixel(1).Node()), true) == Inner(CUT, Shown(LEFT, 0), Shown(RIGHT, 1));
  }

  // ---- runs ----

  const START: Desk<nat> := Empty(AT)

  ghost predicate Leads(es: seq<Event<nat>>, d: Desk<nat>) {
    Run(START, es) == d && !RunLapses(START, es) && !RunStales(START, es)
  }

  /** The desk comes out of a run from an empty tag without a lapse and without a stale flag. */
  ghost predicate Reached(d: Desk<nat>) {
    exists es :: Leads(es, d)
  }

  lemma {:induction false} CleanThen(d: Desk<nat>, es: seq<Event<nat>>, e: Event<nat>)
    requires !RunLapses(d, es) && !RunStales(d, es)
    requires !Lapses(Run(d, es), e) && !LeavesStale(Run(d, es), e)
    ensures !RunLapses(d, es + [e]) && !RunStales(d, es + [e]) && Run(d, es + [e]) == Step(Run(d, es), e)
    decreases |es|
  {
    if es == [] {
      assert (es + [e])[0] == e && (es + [e])[1..] == [];
    } else {
      assert (es + [e])[1..] == es[1..] + [e];
      CleanThen(Step(d, es[0]), es[1..], e);
    }
  }

  lemma Then(d: Desk<nat>, e: Event<nat>)
    requires Reached(d) && !Lapses(d, e) && !LeavesStale(d, e)
    ensures Reached(Step(d, e))
  {
    var es :| Leads(es, d);
    CleanThen(START, es, e);
    assert Leads(es + [e], Step(d, e));
  }

  const ONE: Desk<nat> := Desk(State(Tiled(Shown(AREA, 0), 0), false), AT)

  /** Two windows, the first one with the given state. */
  function Two(enabled: bool, allowed: bool, pending: bool): Desk<nat> {
    Desk(Halved(Pane(enabled, LEFT, allowed, false, LEFT), pending), AT)
  }

  lemma OneReached()
    ensures Reached(ONE)
  {
    assert Leads([], START);
    OneWindow();
    Then(START, Do(Add(Pixel(0), BspTree.Right)));
  }

  lemma TwoReached()
    ensures Reached(Two(true, true, false))
  {
    OneReached();
    TwoWindows();
    Then(ONE, Do(Add(Pixel(1), BspTree.Right)));
  }

  /** The first window is maximized, minimized and taken out of that, and the tag laid out. */
  lemma MaximizedReached()
    ensures Reached(Two(true, false, false))
  {
    TwoReached();
    MarkFirst();
    Then(Two(true, true, false), Do(On(0, Mark(false, false))));
    HideFirst();
    Then(Two(true, false, true), Do(On(0, Hide)));
    ShowFirst();
    Then(Two(false, false, true), Do(On(0, Show)));
    FlushTwo();
    Then(Two(true, false, true), Do(Flush));
  }

  lemma MarkFirst()
    ensures Step(Two(true, true, false), Do(On(0, Mark(false, false)))) == Two(true, false, true)
  {
    FirstHalf(Pane(true, LEFT, true, false, LEFT), false);
  }

  lemma HideFirst()
    ensures Step(Two(true, false, true), Do(On(0, Hide))) == Two(false, false, true)
  {
    FirstHalf(Pane(true, LEFT, false, false, LEFT), true);
  }

  lemma ShowFirst()
    ensures Step(Two(false, false, true), Do(On(0, Show))) == Two(true, false, true)
  {
    FirstHalf(Pane(false, LEFT, false, false, LEFT), true);
    HalvedShares();
    var (k, t) := (In(Left, CUT, Shown(RIGHT, 1), Top), Leaf(Pane(false, LEFT, false, false, LEFT), 0));
    var whole := Two(true, false, true).s.entry.tree;
    assert EnableUp(k, t) == whole;
    assert Update(whole, true) == whole;
  }

  lemma FlushTwo()
    ensures Step(Two(true, false, true), Do(Flush)) == Two(true, false, false)
  {
    HalvedShares();
    var whole := Two(true, false, true).s.entry.tree;
    assert Update(Inner(CUT, whole.l, whole.r), true) == whole;
  }

  // ---- the three lapses ----

  /** The area grows while requests are served: the window stays as it was, and nobody owns the rest. */
  lemma DropsReached()
    ensures var e := Change(AT.(area := Box(0, 0, 4, 1)), true);
            && Reached(ONE) && UpToDate(ONE) && Drops(ONE, e) && Lapses(ONE, e)
            && !Step(ONE, e).s.pending && Owners(Step(ONE, e).s.entry.tree, 3, 0) == 0
  {
    OneReached();
  }

  /** A maximized window is closed whose leaf is enabled: the other window keeps its half. */
  lemma GapesReached()
    ensures var d := Two(true, false, false);
            var e := Event.Close(0, false);
            && Reached(d) && UpToDate(d) && Gapes(d, e) && Lapses(d, e)
            && !Step(d, e).s.pending && Owners(Step(d, e).s.entry.tree, 0, 0) == 0
  {
    MaximizedReached();
    HalvedShares();
    FirstHalf(Pane(true, LEFT, false, false, LEFT), false);
    var s := Two(true, false, false).s;
    assert Remove(In(Left, CUT, Shown(RIGHT, 1), Top), false, true).t == Shown(RIGHT, 1);
  }

  /** The tree of two windows with the line dragged. */
  function Pulled(fact: real): View<nat> {
    Inner(CUT.(fact := fact), Shown(LEFT, 0), Shown(RIGHT, 1))
  }

  lemma PulledShares(fact: real)
    requires 0.0 <= fact < 0.5
    ensures Halves(AREA, Horizontal, fact) == (Box(0, 0, 0, 1), AREA)
  {
    var r := 2 as real * fact;
    assert 0.0 <= r < 1.0;
  }

  lemma PulledFirst(fact: real)
    requires 0.0 <= fact < 0.5
    ensures var k := In(Left, CUT, Shown(RIGHT, 1), Top);
            && Plug(Dragged(k, 0, fact), Shown(LEFT, 0)) == Pulled(fact)
            && !FitsStill(k, Shown(LEFT, 0), 0, fact)
  {
    PulledShares(fact);
  }

  lemma PulledPicture(fact: real)
    requires 0.0 <= fact < 0.5
    ensures Picture(UpdateRoot(Pulled(fact), AREA, true)) != Picture(Pulled(fact))
  {
    PulledShares(fact);
    var t := UpdateRoot(Pulled(fact), AREA, true);
    assert t.l == Shown(Box(0, 0, 0, 1), 0);
    assert Picture(t.l) == [(0, Box(0, 0, 0, 1), Box(0, 0, 0, 1))];
    assert Picture(Shown(LEFT, 0)) == [(0, LEFT, LEFT)];
    assert Picture(t) == Picture(t.l) + Picture(t.r) && Picture(t)[0] == Picture(t.l)[0];
    assert Picture(Pulled(fact))[0] == Picture(Shown(LEFT, 0))[0];
  }

  lemma PulledStep(fact: real)
    requires 0.05 <= fact < 0.5
    ensures var (d, e) := (Two(true, true, false), Event.Drag(0, 0, fact, false));
            Slips(d, e) && Step(d, e).s.entry.tree == Pulled(fact) && !Step(d, e).s.pending
  {
    FirstHalf(Pane(true, LEFT, true, false, LEFT), false);
    PulledFirst(fact);
  }

  /** A line is dragged before the interval has passed: the windows keep the boxes they had. */
  lemma SlipsReached(fact: real)
    requires 0.05 <= fact < 0.5
    ensures var (d, e) := (Two(true, true, false), Event.Drag(0, 0, fact, false));
            && Reached(d) && UpToDate(d) && Slips(d, e) && Lapses(d, e)
            && !Step(d, e).s.pending
            && var t := Step(d, e).s.entry.tree; Picture(UpdateRoot(t, AREA, true)) != Picture(t)
  {
    TwoReached();
    HalvedShares();
    PulledStep(fact);
    PulledPicture(fact);
  }
}

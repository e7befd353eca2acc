/** What becomes of the trees of an output that is lost and comes back. */
module HotplugTrees {
  import opened Lists
  import opened Options
  import opened Geometry
  import opened BspTree
  import opened BspEntry
  import opened Membership
  import opened Hotplug

  ghost predicate SameTrees(w: World, w': World, a: Output) {
    forall p: Spot :: p.output == a ==> TreeAt(w', p) == TreeAt(w, p)
  }

  lemma TreesDiffer(w: World, w': World, c: Handle, p: Spot)
    requires Hosts(w, p, c) != Hosts(w', p, c)
    ensures !SameTrees(w, w', p.output)
  {
  }

  // ---- the loss ----

  /** A window of another lost output has a leaf in a tree of this one. */
  predicate Lodges(w: World, c: Handle, a: Output) {
    c in w.conts && w.conts[c].spot.output == a && w.conts[c].saved.Some? && w.conts[c].node.Some?
  }

  lemma MovedOffStays(w: World, c: Handle, a: Output, target: Output, ws: nat)
    requires c in w.conts && w.conts[c].spot.output == a != target && w.conts[c].saved.Some? && w.conts[c].node.None?
    ensures SameTrees(w, MovedToTag(MovedToOutput(w, c, target), c, ws), a)
  {
    var w1 := MovedToOutput(w, c, target);
    assert w1 == Relisted(w, c, target);
    assert SameTrees(w1, MovedToTag(w1, c, ws), a);
  }

  lemma RescuedStays(w: World, c: Handle, a: Output, target: Output, fallback: Output)
    requires Tidy(w) && c in w.conts && w.conts[c].spot.output == a && !Lodges(w, c, a)
    requires a != target && a != fallback
    ensures SameTrees(w, Rescued(w, c, target, fallback), a)
  {
    match w.conts[c].saved
    case Some(place) => MovedOffStays(w, c, a, target, place.spot.workspace);
    case None =>
      MovedOffStays(w.(conts := w.conts[c := SavedAt(w.conts[c])]), c, a, target, w.conts[c].spot.workspace);
  }

  /** Windows whose place is remembered now leave their leaves in the trees of the lost output. */
  lemma {:induction false} RescuedAllStay(w: World, cs: seq<Handle>, a: Output, target: Output, fallback: Output)
    requires Tidy(w) && Distinct(cs) && a != target && a != fallback
    requires forall c :: c in cs ==>
               && c in w.conts && w.conts[c].spot.output == a && !Lodges(w, c, a)
               && (w.conts[c].saved.Some? ==> w.conts[c].saved.value.spot.output != target)
    ensures SameTrees(w, RescuedAll(w, cs, target, fallback), a)
    decreases |cs|
  {
    if cs != [] {
      Tail(cs);
      RescuedOne(w, cs[0], target, fallback, {a, target});
      RescuedStays(w, cs[0], a, target, fallback);
      RescuedAllStay(Rescued(w, cs[0], target, fallback), cs[1..], a, target, fallback);
    }
  }

  lemma RescuedStay(w: World, a: Output, target: Output, fallback: Output)
    requires Sound(w, fallback) && a in w.plugged - {fallback} && target in w.plugged - {a}
    requires forall c :: !Lodges(w, c, a)
    ensures SameTrees(w, RescuedAll(w, ListAt(w, a), target, fallback), a)
  {
    assert Single(w, a);
    RescuedAllStay(w, ListAt(w, a), a, target, fallback);
  }

  lemma VacatedStay(w: World, a: Output, target: Output, fallback: Output)
    requires Sound(w, fallback) && a in w.plugged - {fallback} && target in w.plugged - {a}
    requires forall c :: !Lodges(w, c, a)
    ensures SameTrees(w, Vacated(w, a, target, fallback), a)
  {
    RescuedStay(w, a, target, fallback);
    RescuedOff(w, a, target, fallback);
    if target != fallback { RelaidKeeps(RescuedAll(w, ListAt(w, a), target, fallback), target, 1); }
  }

  /** A lodger takes its leaf out of the tree. */
  lemma LodgerLeaves(w: World, a: Output, target: Output, fallback: Output, c: Handle)
    requires Sound(w, fallback) && a in w.plugged - {fallback} && target in w.plugged - {a} && Lodges(w, c, a)
    ensures !SameTrees(w, Unplugged(w, a, target, fallback), a)
  {
    var (w', p) := (Unplugged(w, a, target, fallback), w.conts[c].spot);
    UnpluggedTidy(w, a, target, fallback);
    LodgerGone(w, w', c, a, fallback);
    TreesDiffer(w, w', c, p);
  }

  lemma LodgerGone(w: World, w': World, c: Handle, a: Output, fallback: Output)
    requires Sound(w, fallback) && Lodges(w, c, a) && Tidy(w')
    requires c in w'.conts && w'.conts[c].spot.output != a && w'.conts[c].saved == w.conts[c].saved
    ensures Hosts(w, w.conts[c].spot, c) && !Hosts(w', w.conts[c].spot, c)
  {
  }

  /** The loss of an output leaves its trees as they are exactly when no window lodges there. */
  lemma UnpluggedStay(w: World, a: Output, target: Output, fallback: Output)
    requires Sound(w, fallback) && a in w.plugged - {fallback} && target in w.plugged - {a}
    ensures SameTrees(w, Unplugged(w, a, target, fallback), a) <==> forall c :: !Lodges(w, c, a)
  {
    if c :| Lodges(w, c, a) {
      LodgerLeaves(w, a, target, fallback, c);
    } else {
      VacatedStay(w, a, target, fallback);
    }
  }

  // ---- the return ----

  /** Windows that return take their leaves again, and add none. */
  lemma {:induction false} ReturnedAllStay(w: World, cs: seq<Handle>, a: Output)
    requires Tidy(w) && Distinct(cs) && forall c :: c in cs ==> c in w.conts && Elsewhere(w.conts[c])
    ensures SameTrees(w, ReturnedAll(w, cs, a), a)
    decreases |cs|
  {
    if cs != [] {
      Tail(cs);
      ReturnedForKeeps(w, cs[0], a, {a, w.conts[cs[0]].spot.output});
      ReturnedAllStay(ReturnedFor(w, cs[0], a), cs[1..], a);
    }
  }

  lemma WelcomedStay(w: World, a: Output, area: Box, fallback: Output)
    requires Sound(w, fallback) && a !in w.plugged
    ensures SameTrees(w, Welcomed(w, a, area), a)
  {
    var w1 := w.(screens := w.screens[a := ScreenAt(w, a).(area := area)]);
    ScreenedTidy(w, w1.screens, w.plugged);
    if a in w.screens { ReturnedAllStay(w1, w.all, a); }
  }

  /** The window waits on the fallback output, and not for `a`. */
  predicate Strands(w: World, c: Handle, a: Output, fallback: Output) {
    c in w.conts && w.conts[c].spot.output == fallback && !Awaits(w, c, a)
  }

  /** It has no place to return to, and enters the tree of the current tag. */
  predicate SettlesNow(w: World, c: Handle, a: Output)
    requires c in w.conts
  {
    !Floats(w, c) && ModeAt(w, Current(w, a)) == Bsp && !w.conts[c].moving
  }

  /** It enters the tree of the workspace it had, unless that is the current one. */
  predicate SettlesLater(w: World, c: Handle, a: Output, ws: nat)
    requires c in w.conts
  {
    ws != Current(w, a).workspace && ModeAt(w, Spot(a, ws)) == Bsp && !w.conts[c].floating
  }

  /** A stranded window enters a tree when `a` takes it in. */
  predicate Settles(w: World, c: Handle, a: Output, fallback: Output) {
    Strands(w, c, a, fallback) &&
    match w.conts[c].saved
    case None => SettlesNow(w, c, a)
    case Some(place) => SettlesLater(w, c, a, place.spot.workspace)
  }

  lemma SettlesFirst(w: World, c: Handle, a: Output)
    requires Tidy(w) && c in w.conts && w.conts[c].spot.output != a && w.conts[c].saved.None?
    ensures var w' := MovedToOutput(w, c, a);
            c in w'.conts && if SettlesNow(w, c, a) then w'.conts[c].node.Some? else SameTrees(w, w', a)
  {
  }

  lemma SettlesSecond(w: World, c: Handle, a: Output, ws: nat)
    requires Tidy(w) && c in w.conts && w.conts[c].spot.output != a && w.conts[c].saved.Some?
    requires w.conts[c].saved.value.spot.output != a
    ensures var w' := MovedToTag(MovedToOutput(w, c, a), c, ws);
            c in w'.conts && if SettlesLater(w, c, a, ws) then w'.conts[c].node.Some? else SameTrees(w, w', a)
  {
    LeftTidy(w, c, a);
  }

  lemma SettlesOne(w: World, c: Handle, a: Output, fallback: Output)
    requires Tidy(w) && a != fallback && Strands(w, c, a, fallback)
    ensures var w' := Rescued(w, c, a, fallback);
            && c in w'.conts && w'.screens == w.screens
            && if Settles(w, c, a, fallback) then w'.conts[c].node.Some? else SameTrees(w, w', a)
  {
    RescuedKeeps(w, c, a, fallback);
    match w.conts[c].saved
    case None => SettlesFirst(w, c, a);
    case Some(place) => SettlesSecond(w, c, a, place.spot.workspace);
  }

  /** The others settle or not as before. */
  lemma SettlesStill(w: World, c: Handle, a: Output, fallback: Output, d: Handle)
    requires Tidy(w) && a != fallback && Strands(w, c, a, fallback) && d != c && Strands(w, d, a, fallback)
    ensures var w' := Rescued(w, c, a, fallback);
            Strands(w', d, a, fallback) && (Settles(w', d, a, fallback) <==> Settles(w, d, a, fallback))
  {
    RescuedKeeps(w, c, a, fallback);
    assert Rescued(w, c, a, fallback).conts[d] == w.conts[d];
  }

  lemma SettlesRest(w: World, cs: seq<Handle>, a: Output, fallback: Output)
    requires Tidy(w) && Distinct(cs) && a != fallback && cs != [] && forall c :: c in cs ==> Strands(w, c, a, fallback)
    ensures cs[0] in w.conts && Distinct(cs[1..]) && cs[0] !in cs[1..] && forall c :: c in cs[1..] ==> c in cs
    ensures var w' := Rescued(w, cs[0], a, fallback);
            && Tidy(w') && cs[0] in w'.conts
            && (forall c :: c in cs[1..] ==>
                  Strands(w', c, a, fallback) && (Settles(w', c, a, fallback) <==> Settles(w, c, a, fallback)))
  {
    Tail(cs);
    assert Strands(w, cs[0], a, fallback);
    RescuedKeeps(w, cs[0], a, fallback);
    forall c | c in cs[1..]
      ensures var w' := Rescued(w, cs[0], a, fallback);
              Strands(w', c, a, fallback) && (Settles(w', c, a, fallback) <==> Settles(w, c, a, fallback))
    {
      SettlesStill(w, cs[0], a, fallback, c);
    }
  }

  /** Nobody settles: no tree changes. */
  lemma {:induction false} NoneSettles(w: World, cs: seq<Handle>, a: Output, fallback: Output)
    requires Tidy(w) && Distinct(cs) && a != fallback && forall c :: c in cs ==> Strands(w, c, a, fallback)
    requires forall c :: c in cs ==> !Settles(w, c, a, fallback)
    ensures SameTrees(w, RescuedAll(w, cs, a, fallback), a)
    decreases |cs|
  {
    if cs != [] {
      SettlesRest(w, cs, a, fallback);
      SettlesOne(w, cs[0], a, fallback);
      NoneSettles(Rescued(w, cs[0], a, fallback), cs[1..], a, fallback);
    }
  }

  /** Who settles has a node in the end. */
  lemma {:induction false} SomeSettles(w: World, cs: seq<Handle>, a: Output, fallback: Output, c: Handle)
    requires Tidy(w) && Distinct(cs) && a != fallback && forall d :: d in cs ==> Strands(w, d, a, fallback)
    requires c in cs && Settles(w, c, a, fallback)
    ensures var w' := RescuedAll(w, cs, a, fallback); c in w'.conts && w'.conts[c].node.Some?
    decreases |cs|
  {
    SettlesRest(w, cs, a, fallback);
    var w1 := Rescued(w, cs[0], a, fallback);
    if c == cs[0] {
      SettlesOne(w, c, a, fallback);
      Unaffected(w1, cs[1..], a, fallback, c);
    } else {
      assert cs == [cs[0]] + cs[1..];
      SomeSettles(w1, cs[1..], a, fallback, c);
    }
  }

  lemma Unaffected(w: World, cs: seq<Handle>, a: Output, fallback: Output, c: Handle)
    requires Tidy(w) && Distinct(cs) && a != fallback && forall d :: d in cs ==> Strands(w, d, a, fallback)
    requires c in w.conts && c !in cs
    ensures var w' := RescuedAll(w, cs, a, fallback); c in w'.conts && w'.conts[c] == w.conts[c]
  {
    RescuedAllKeeps(w, cs, a, fallback, {a, fallback});
  }

  lemma {:induction false} ReturnedScreens(w: World, cs: seq<Handle>, a: Output)
    requires Tidy(w) && Distinct(cs) && forall c :: c in cs ==> c in w.conts && Elsewhere(w.conts[c])
    ensures ReturnedAll(w, cs, a).screens == w.screens
    decreases |cs|
  {
    if cs != [] {
      Tail(cs);
      ReturnedForKeeps(w, cs[0], a, {a, w.conts[cs[0]].spot.output});
      if Awaits(w, cs[0], a) { ReturnedKeeps(w, cs[0]); }
      ReturnedScreens(ReturnedFor(w, cs[0], a), cs[1..], a);
    }
  }

  lemma WelcomedModes(w: World, a: Output, area: Box, fallback: Output)
    requires Sound(w, fallback) && a !in w.plugged
    ensures var w' := Welcomed(w, a, area);
            Current(w', a) == Current(w, a) && forall p :: ModeAt(w', p) == ModeAt(w, p)
  {
    var w1 := w.(screens := w.screens[a := ScreenAt(w, a).(area := area)]);
    ScreenedTidy(w, w1.screens, w.plugged);
    if a in w.screens { ReturnedScreens(w1, w.all, a); }
  }

  /** Who is stranded before the windows return is who is on the fallback output after. */
  lemma StrandedStay(w: World, a: Output, area: Box, fallback: Output, c: Handle)
    requires Sound(w, fallback) && a !in w.plugged
    ensures var w' := Welcomed(w, a, area);
            && (c in ListAt(w', fallback) <==> Strands(w, c, a, fallback))
            && (Strands(w, c, a, fallback) ==> Strands(w', c, a, fallback))
            && (Settles(w', c, a, fallback) <==> Settles(w, c, a, fallback))
  {
    WelcomedTidy(w, a, area, fallback);
    WelcomedModes(w, a, area, fallback);
  }

  /** A window that settles brings a leaf into a tree. */
  lemma SettlerEnters(w: World, a: Output, area: Box, fallback: Output, c: Handle)
    requires Sound(w, fallback) && a !in w.plugged && Strands(w, c, a, fallback)
    requires var w' := Plugged(w, a, area, fallback);
             c in w'.conts && w'.conts[c].node.Some? && w'.conts[c].spot.output == a
    ensures !SameTrees(w, Plugged(w, a, area, fallback), a)
  {
    var w' := Plugged(w, a, area, fallback);
    PluggedTidy(w, a, area, fallback);
    var p := w'.conts[c].spot;
    assert Hosts(w', p, c);
    assert !Hosts(w, p, c);
    TreesDiffer(w, w', c, p);
  }

  /** The return of an output leaves its trees as they are exactly when no window settles there. */
  lemma PluggedStay(w: World, a: Output, area: Box, fallback: Output)
    requires Sound(w, fallback) && a !in w.plugged
    ensures SameTrees(w, Plugged(w, a, area, fallback), a) <==> forall c :: !Settles(w, c, a, fallback)
  {
    var w' := Welcomed(w, a, area);
    WelcomedTidy(w, a, area, fallback);
    WelcomedStay(w, a, area, fallback);
    forall c ensures c in ListAt(w', fallback) <==> Strands(w, c, a, fallback)
             ensures Strands(w, c, a, fallback) ==> Strands(w', c, a, fallback)
             ensures Settles(w', c, a, fallback) <==> Settles(w, c, a, fallback)
    {
      StrandedStay(w, a, area, fallback, c);
    }
    assert Single(w', fallback);
    if c :| Settles(w, c, a, fallback) {
      SomeSettles(w', ListAt(w', fallback), a, fallback, c);
      FromFallback(w', a, fallback);
      SettlerEnters(w, a, area, fallback, c);
    } else {
      NoneSettles(w', ListAt(w', fallback), a, fallback);
    }
  }

  // ---- the whole way ----

  /**
   An output on which no window lodges is lost, anything happens but the destruction of its
   windows, and it comes back: its trees are exactly those it had, with flags, factors and the
   boxes of their nodes, if and only if no window from the fallback output settles there.
   */
  lemma TreesReturn(w: World, es: seq<Event>, a: Output, target: Output, area: Box, fallback: Output)
    requires Sound(w, fallback) && a in w.plugged - {fallback} && target in w.plugged - {a}
    requires forall c :: !Lodges(w, c, a)
    requires Absence(Unplugged(w, a, target, fallback), es, fallback, a)
    ensures var w2 := Run(Unplugged(w, a, target, fallback), es, fallback);
            SameTrees(w, Plugged(w2, a, area, fallback), a) <==> (forall c :: !Settles(w2, c, a, fallback))
  {
    var w1 := Unplugged(w, a, target, fallback);
    var w2 := Run(w1, es, fallback);
    UnpluggedStay(w, a, target, fallback);
    UnpluggedKeeps(w, a, target, fallback);
    AbsenceSound(w1, es, fallback, a);
    RunAway(w1, es, fallback, a);
    PluggedStay(w2, a, area, fallback);
  }
}

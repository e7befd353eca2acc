/** The compositor's operations on containers and outputs, step by step as it runs them. */
module Server {
  import opened Lists
  import opened Options
  import opened Geometry
  import opened BspTree
  import opened BspLayout
  import opened BspOps
  import opened BspRuns
  import opened BspEntry
  import opened Membership
  import opened Hotplug
  import opened Placement

  class Server {
    var all: seq<Handle>
    var conts: map<Handle, Window>
    var screens: map<Output, Screen>
    var plugged: set<Output>
    var lists: map<Output, seq<Handle>>
    ghost var trees: map<Spot, Entry<Handle>>
    const fallback: Output

    constructor (fallback: Output)
      ensures this.fallback == fallback && W() == Start(fallback) && Sound(W(), fallback)
    {
      this.fallback := fallback;
      all, conts, plugged, lists, trees := [], map[], {fallback}, map[], map[];
      screens := map[fallback := NEW];
      new;
      StartSound(fallback);
    }

    ghost function W(): World
      reads this
    {
      World(all, conts, screens, plugged, trees, lists)
    }

    function ModeOf(o: Output, ws: nat): Mode
      reads this`screens
    {
      (if o in screens then screens[o] else NEW).ModeOf(ws)
    }

    method BspInsert(c: Handle, side: Side)
      requires c in conts && conts[c].node == None
      modifies this`conts, this`trees
      ensures W() == Planted(old(W()), c, side)
    {
      ghost var w := W();
      var spot := conts[c].spot;
      trees := Planted(w, c, side).trees;
      conts := conts[c := conts[c].(floating := false, node := Some(spot))];
    }

    /** The leaf is looked for in the tree of the container's output and workspace. */
    method BspRemove(c: Handle, update: bool)
      requires c in conts && Hosts(W(), conts[c].spot, c)
      modifies this`conts, this`trees
      ensures W() == Uprooted(old(W()), c, update)
    {
      trees := Uprooted(W(), c, update).trees;
      conts := conts[c := conts[c].(node := None)];
    }

    method BspAct(c: Handle, action: Action)
      requires c in conts && Hosts(W(), conts[c].spot, c)
      modifies this`trees
      ensures W() == Acted(old(W()), c, action)
    {
      trees := Acted(W(), c, action).trees;
    }

    method Lift(c: Handle, update: bool)
      requires c in conts && Tidy(W())
      modifies this`conts, this`trees
      ensures W() == Lifted(old(W()), c, update) && conts[c].node == None
    {
      if conts[c].node != None {
        assert Hosts(W(), conts[c].spot, c);
        BspRemove(c, update);
      }
    }

    /** From the list of its output to the end of another one. */
    method Reattach(c: Handle, o: Output)
      requires c in conts
      modifies this`conts, this`lists
      ensures W() == Relisted(old(W()), c, o)
    {
      var was := conts[c].spot.output;
      var screen := if o in screens then screens[o] else NEW;
      lists := lists[was := Without(if was in lists then lists[was] else [], c)];
      lists := lists[o := (if o in lists then lists[o] else []) + [c]];
      conts := conts[c := conts[c].(spot := Spot(o, screen.workspace), tags := screen.tags)];
    }

    /** Out of the tree, and to another output. */
    method Leave(c: Handle, o: Output)
      requires c in conts && Tidy(W())
      modifies this`conts, this`trees, this`lists
      ensures W() == Relisted(Lifted(old(W()), c, false), c, o)
    {
      Lift(c, false);
      Reattach(c, o);
    }

    method MoveToOutput(c: Handle, o: Output)
      requires c in conts && Tidy(W())
      modifies this`conts, this`trees, this`lists
      ensures W() == MovedToOutput(old(W()), c, o)
    {
      ghost var w := W();
      var was := conts[c].spot.output;
      if was == o {
        return;
      }
      var screen := if o in screens then screens[o] else NEW;
      var mode := screen.ModeOf(screen.workspace);
      var floating := conts[c].floating || ModeOf(was, conts[c].spot.workspace) == Floating || mode == Floating;
      Leave(c, o);
      if !floating && mode == Bsp && !conts[c].moving && conts[c].saved == None {
        BspInsert(c, Right);
      }
    }

    method MoveToTag(c: Handle, ws: nat)
      requires c in conts && Tidy(W())
      modifies this`conts, this`trees
      ensures W() == MovedToTag(old(W()), c, ws)
    {
      ghost var w := W();
      if conts[c].spot.workspace == ws {
        return;
      }
      Lift(c, true);
      var o := conts[c].spot.output;
      conts := conts[c := conts[c].(tags := {ws}, spot := Spot(o, ws))];
      if ModeOf(o, ws) == Bsp && !conts[c].floating {
        BspInsert(c, Right);
      }
    }

    /** One round of the rescue. */
    method RescueOne(c: Handle, source: Output, target: Output)
      requires c in conts && conts[c].spot.output == source != target && Tidy(W())
      requires conts[c].saved.Some? ==> conts[c].saved.value.spot.output != target
      modifies this`conts, this`trees, this`lists
      ensures W() == Rescued(old(W()), c, target, fallback)
    {
      ghost var w := W();
      var moveTag := true;
      if conts[c].saved == None {
        if source == fallback {
          moveTag := false;
        } else {
          Remember(c);
        }
      }
      ghost var w1 := W();
      MoveToOutput(c, target);
      if moveTag {
        MovedToOutputKeeps(w1, c, target);
        MoveToTag(c, conts[c].saved.value.spot.workspace);
      }
    }

    /** The place of a container is remembered, and its leaf stays in the tree without it. */
    method Remember(c: Handle)
      requires c in conts && Tidy(W()) && conts[c].saved == None
      modifies this`conts
      ensures W() == old(W()).(conts := old(conts)[c := SavedAt(old(conts[c]))]) && Tidy(W())
    {
      ghost var w := W();
      ChangedTidy(w, c, SavedAt(conts[c]));
      var win := conts[c];
      conts := conts[c := win.(saved := Some(Saved(win.spot, win.tags, win.node)), node := None)];
      assert W() == w.(conts := w.conts[c := SavedAt(w.conts[c])]);
    }

    /** All containers of an output go to another one. */
    method Rescue(source: Output, target: Output)
      requires Tidy(W()) && source != target
      requires forall c :: c in conts && conts[c].spot.output == source && conts[c].saved.Some? ==>
                 conts[c].saved.value.spot.output != target
      modifies this`conts, this`trees, this`lists
      ensures W() == RescuedAll(old(W()), ListAt(old(W()), source), target, fallback)
      ensures EachRehoused(old(conts), conts, ListAt(old(W()), source), Viewed(old(W()), target), fallback)
    {
      ghost var w := W();
      var cs := if source in lists then lists[source] else [];
      InOrder(w, source, cs);
      RescuedAllKeeps(w, cs, target, fallback, {source, target});
      for i := 0 to |cs|
        invariant RescuedAll(W(), cs[i..], target, fallback) == RescuedAll(w, cs, target, fallback)
        invariant Tidy(W())
        invariant forall j :: i <= j < |cs| ==> cs[j] in conts && conts[cs[j]] == w.conts[cs[j]]
      {
        assert cs[i..][0] == cs[i] && cs[i..][1..] == cs[i + 1..];
        RescueNext(cs[i], source, target);
        assert forall j :: i < j < |cs| ==> cs[j] != cs[i];
      }
    }

    method RescueNext(c: Handle, source: Output, target: Output)
      requires c in conts && conts[c].spot.output == source != target && Tidy(W())
      requires conts[c].saved.Some? ==> conts[c].saved.value.spot.output != target
      modifies this`conts, this`trees, this`lists
      ensures W() == Rescued(old(W()), c, target, fallback) && Tidy(W())
      ensures c in conts && conts == old(conts)[c := conts[c]]
    {
      RescuedOne(W(), c, target, fallback, {source, target});
      RescueOne(c, source, target);
    }

    /** The container goes back to the place that is remembered for it. */
    method RestoreOne(c: Handle)
      requires Tidy(W()) && c in conts && conts[c].saved.Some? && Elsewhere(conts[c])
      modifies this`conts, this`trees, this`lists
      ensures W() == Returned(old(W()), c)
    {
      MoveToOutput(c, conts[c].saved.value.spot.output);
      PutBack(c);
    }

    method PutBack(c: Handle)
      requires c in conts && conts[c].saved.Some?
      modifies this`conts
      ensures var (win, place) := (old(conts[c]), old(conts[c].saved.value));
              conts == old(conts)[c := win.(
                node := place.node, tags := place.tags, saved := None,
                spot := Spot(win.spot.output, place.spot.workspace))]
    {
      var (win, place) := (conts[c], conts[c].saved.value);
      var spot := Spot(win.spot.output, place.spot.workspace);
      conts := conts[c := win.(node := place.node, tags := place.tags, spot := spot)];
      conts := conts[c := conts[c].(saved := None)];
    }

    /** One round of the return. */
    method RestoreNext(c: Handle, a: Output)
      requires Tidy(W()) && Homeless(W()) && c in conts
      modifies this`conts, this`trees, this`lists
      ensures W() == ReturnedFor(old(W()), c, a)
      ensures Tidy(W()) && Homeless(W()) && conts.Keys == old(conts).Keys
    {
      if conts[c].saved == None || conts[c].saved.value.spot.output != a {
        return;
      }
      ReturnedOne(W(), c, {conts[c].spot.output, a});
      RestoreOne(c);
    }

    /** The containers that were on the output go back to it. */
    method Restore(a: Output)
      requires Tidy(W()) && Homeless(W())
      modifies this`conts, this`trees, this`lists
      ensures W() == ReturnedAll(old(W()), all, a)
    {
      ghost var w := W();
      assert forall c :: c in all ==> c in conts;
      for i := 0 to |all|
        invariant ReturnedAll(W(), all[i..], a) == ReturnedAll(w, all, a)
        invariant Tidy(W()) && Homeless(W()) && conts.Keys == w.conts.Keys
      {
        assert all[i..][0] == all[i] && all[i..][1..] == all[i + 1..];
        RestoreNext(all[i], a);
      }
    }

    method SetLayoutMode(o: Output, tag: nat, mode: Mode)
      requires Tidy(W()) && o in screens && NoneWaits(W(), o)
      modifies this`conts, this`trees, this`screens
      ensures W() == LaidOut(old(W()), o, tag, mode)
    {
      var ws := if tag == 0 then screens[o].workspace else tag;
      ghost var w := Moded(W(), o, ws, mode);
      screens := screens[o := screens[o].(modes := screens[o].modes[ws := mode])];
      ScreenedTidy(old(W()), screens, plugged);
      if mode != Bsp {
        return;
      }
      JoinAll(o, ws);
    }

    /** The tiled windows that are seen on the tag enter its tree. */
    method JoinAll(o: Output, ws: nat)
      requires Tidy(W()) && o in screens && NoneWaits(W(), o)
      modifies this`conts, this`trees
      ensures W() == JoinedAll(old(W()), ListAt(old(W()), o), ws)
    {
      ghost var w := W();
      var cs := if o in lists then lists[o] else [];
      InOrder(w, o, cs);
      for i := 0 to |cs|
        invariant JoinedAll(W(), cs[i..], ws) == JoinedAll(w, cs, ws)
        invariant Tidy(W()) && NoneWaits(W(), o) && AllOn(W(), o, cs)
      {
        assert cs[i..][0] == cs[i] && cs[i..][1..] == cs[i + 1..];
        ghost var w1 := W();
        JoinNext(cs[i], ws);
        SeatedStay(w1, W(), o, cs);
      }
    }

    method JoinNext(c: Handle, ws: nat)
      requires c in conts && Tidy(W()) && Elsewhere(conts[c]) && conts[c].spot.output in screens
      modifies this`conts, this`trees
      ensures W() == Joined(old(W()), c, ws) && Tidy(W()) && Seated(old(W()), W())
    {
      JoinedKeeps(W(), c, ws);
      JoinOne(c, ws);
    }

    method JoinOne(c: Handle, ws: nat)
      requires c in conts && Tidy(W()) && Elsewhere(conts[c]) && conts[c].spot.output in screens
      modifies this`conts, this`trees
      ensures W() == Joined(old(W()), c, ws)
    {
      var (win, screen) := (conts[c], screens[conts[c].spot.output]);
      if screen.workspace == 0 || screen.tags == {} || win.minimized || ws != win.spot.workspace
         || win.floating || screen.ModeOf(win.spot.workspace) == Floating || win.node != None {
        return;
      }
      PlantedTidy(W(), c, Right);
      BspInsert(c, Right);
      assert Hosts(W(), win.spot, c);
      if !win.allowed {
        BspAct(c, Hide);
      }
    }

    /** An output vanishes. */
    method OutputDestroyed(a: Output, target: Output)
      requires Sound(W(), fallback) && Legal(W(), Unplug(a, target), fallback)
      modifies this
      ensures W() == Unplugged(old(W()), a, target, fallback) && Sound(W(), fallback)
      ensures conts.Keys == old(conts).Keys && forall c :: c in conts ==>
                Moved(Viewed(old(W()), target), old(conts)[c], Seat(conts[c]), a, fallback)
    {
      UnpluggedKeeps(W(), a, target, fallback);
      Vacate(a, target);
      plugged := plugged - {a};
    }

    /** The windows of one output go to another, whose layouts take them up. */
    method Vacate(a: Output, target: Output)
      requires Sound(W(), fallback) && a in plugged && target in plugged && a != target
      modifies this`conts, this`trees, this`lists, this`screens
      ensures W() == Vacated(old(W()), a, target, fallback)
    {
      RescuedOff(W(), a, target, fallback);
      Rescue(a, target);
      if target != fallback {
        Relay(target);
      }
    }

    /** Every tag of an output takes its layout mode again. */
    method Relay(o: Output)
      requires Tidy(W()) && o in screens && NoneWaits(W(), o)
      modifies this`conts, this`trees, this`screens
      ensures W() == Relaid(old(W()), o, 1)
    {
      ghost var w := W();
      for ws := 1 to MAX_WORKSPACE
        invariant Relaid(W(), o, ws) == Relaid(w, o, 1)
        invariant Tidy(W()) && NoneWaits(W(), o) && o in screens
      {
        RelayNext(o, ws);
      }
    }

    method RelayNext(o: Output, ws: nat)
      requires Tidy(W()) && o in screens && NoneWaits(W(), o)
      modifies this`conts, this`trees, this`screens
      ensures W() == LaidOut(old(W()), o, ws, ModeAt(old(W()), Spot(o, ws)))
      ensures Tidy(W()) && o in screens && NoneWaits(W(), o)
    {
      ghost var w := W();
      LaidOutKeeps(w, o, ws, ModeOf(o, ws));
      SetLayoutMode(o, ws, ModeOf(o, ws));
      SeatedStay(w, W(), o, []);
    }

    /** An output appears, perhaps one that was there before. */
    method OutputCreated(a: Output, area: Box)
      requires Sound(W(), fallback) && a !in plugged
      modifies this
      ensures W() == Plugged(old(W()), a, area, fallback) && Sound(W(), fallback)
    {
      ghost var w := W();
      PluggedKeeps(w, a, area, fallback);
      WelcomedTidy(w, a, area, fallback);
      var known := a in screens;
      screens := screens[a := (if known then screens[a] else NEW).(area := area)];
      ScreenedTidy(w, screens, plugged);
      if known {
        Restore(a);
      }
      plugged := plugged + {a};
      assert W() == Welcomed(w, a, area);
      WelcomedPlaced(w, W(), a, fallback);
      Rescue(fallback, a);
    }

    method SetFloating(c: Handle, on: bool)
      requires c in conts && Tidy(W())
      modifies this`conts, this`trees
      ensures W() == Floated(old(W()), c, on) && Refloated(old(W()), W(), c, on)
    {
      ghost var w := W();
      FloatedShows(w, c, on);
      var win := conts[c];
      if !win.allowed || (!on && !win.floating && ModeOf(win.spot.output, win.spot.workspace) != Floating) {
        return;
      }
      MarkFloating(c, on);
      if win.node != None {
        BspAct(c, if on then Hide else Show);
      } else if !on {
        var screen := if win.spot.output in screens then screens[win.spot.output] else NEW;
        if screen.ModeOf(screen.workspace) == Bsp {
          BspInsert(c, Right);
        }
      }
    }

    method MarkFloating(c: Handle, on: bool)
      requires c in conts && Tidy(W())
      modifies this`conts
      ensures W() == old(W()).(conts := old(conts)[c := old(conts[c]).(floating := on)])
      ensures Tidy(W()) && (conts[c].node != None ==> Hosts(W(), conts[c].spot, c))
    {
      ChangedTidy(W(), c, conts[c].(floating := on));
      conts := conts[c := conts[c].(floating := on)];
    }

    /** An interactive move ends; `under` is the window under the cursor. */
    method EndMove(c: Handle, under: Option<Handle>, side: Side)
      requires Sound(W(), fallback) && c in conts && conts[c].node == None
      requires under.Some? ==> under.value in conts
      modifies this`conts, this`trees
      ensures W() == Dropped(old(W()), c, under, side)
      ensures Sound(W(), fallback) <==> !Misaims(old(W()), c, under)
    {
      ghost var w := W();
      StepSound(w, Event.Drop(c, under, side), fallback);
      if under == None || conts[under.value].node == None
         || conts[c].spot.workspace != conts[under.value].spot.workspace {
        BspInsert(c, Right);
        return;
      }
      Aim(under.value);
      BspInsert(c, side);
    }

    /** The entry that is changed is that of the current tag, whichever tag the window is on. */
    method Aim(u: Handle)
      requires u in conts
      modifies this`trees
      ensures W() == Aimed(old(W()), u)
    {
      trees := Aimed(W(), u).trees;
    }

    /** A container is destroyed. */
    method ContainerFini(c: Handle)
      requires Sound(W(), fallback) && c in conts && !Crashes(W(), c)
      modifies this
      ensures W() == Closed(old(W()), c, fallback)
      ensures Sound(W(), fallback) <==> !Breaks(old(W()), Close(c))
    {
      if Breaks(W(), Close(c)) { ClosedBreaks(W(), c, fallback); } else { ClosedSound(W(), c, fallback); }
      Sweep(c);
      Forget(c);
    }

    method Sweep(c: Handle)
      requires Sound(W(), fallback) && c in conts && !Crashes(W(), c)
      modifies this`conts, this`trees
      ensures c in conts && W() == Swept(old(W()), c, fallback)
    {
      var win := conts[c];
      var o := win.spot.output;
      if win.saved != None && win.saved.value.node != None {
        o := win.saved.value.spot.output;
      }
      Clear(c);
      LayLast(win, o);
    }

    /** The tag is laid out if the container, taken for one of the output, is tiled. */
    method LayLast(win: Window, o: Output)
      modifies this`trees
      ensures var (w, screen) := (old(W()), ScreenAt(old(W()), o));
              var p := Spot(o, if win.spot.workspace == 0 then screen.workspace else win.spot.workspace);
              var tiled := && win.allowed && !win.minimized && !win.floating
                           && ModeAt(w, Spot(o, win.spot.workspace)) != Floating;
              var lays := tiled && o != fallback && ModeAt(w, Current(w, o)) == Bsp && ModeAt(w, p) == Bsp;
              W() == if lays then LaidAt(w, p) else w
    {
      if !win.allowed || win.minimized || win.floating || ModeOf(o, win.spot.workspace) == Floating || o == fallback {
        return;
      }
      var screen := if o in screens then screens[o] else NEW;
      var ws := if win.spot.workspace == 0 then screen.workspace else win.spot.workspace;
      if screen.ModeOf(screen.workspace) == Bsp && screen.ModeOf(ws) == Bsp {
        trees := LaidAt(W(), Spot(o, ws)).trees;
      }
    }

    method Clear(c: Handle)
      requires Sound(W(), fallback) && c in conts && !Crashes(W(), c)
      modifies this`conts, this`trees
      ensures c in conts && W() == Cleared(old(W()), c)
    {
      if conts[c].saved != None && conts[c].saved.value.node != None { StillThere(W(), c, fallback); }
      Lift(c, false);
      if conts[c].saved != None && conts[c].saved.value.node != None {
        RemoveSaved(c);
      }
    }

    method Forget(c: Handle)
      requires c in conts
      modifies this`conts, this`all, this`lists
      ensures var (w, o) := (old(W()), old(conts[c].spot.output));
              var lists := w.lists[o := Without(ListAt(w, o), c)];
              W() == w.(all := Without(w.all, c), lists := lists, conts := w.conts - {c})
    {
      var o := conts[c].spot.output;
      lists := lists[o := Without(if o in lists then lists[o] else [], c)];
      all, conts := Without(all, c), conts - {c};
    }

    /**
     The container is taken for one of the lost output, on the workspace it is on now: the entry
     that is looked up there is the wrong one when that is another than it had.
     */
    method RemoveSaved(c: Handle)
      requires c in conts && conts[c].saved.Some? && Hosts(W(), conts[c].saved.value.spot, c)
      requires conts[c].saved.value.node.Some? && !Fatal(W(), conts[c], c)
      modifies this`conts, this`trees
      ensures W() == Spent(old(W()), c, old(conts[c].saved.value.spot), Tame(old(conts[c])))
    {
      var win := conts[c];
      ghost var (w, q) := (W(), win.saved.value.spot);
      var looked := Spot(win.saved.value.spot.output, win.spot.workspace);
      if looked == win.saved.value.spot {
        trees := trees[q := Pruned(TreeAt(w, q), c, false, Shown(w, q))];
      } else {
        trees := trees[q := Blinded(TreeAt(w, q), c, Shown(w, q))];
      }
      conts := conts[c := win.(saved := None)];
    }
  }

  /** No container is on the output it would return to. */
  ghost predicate Homeless(w: World) {
    forall c :: c in w.conts ==> Elsewhere(w.conts[c])
  }

  ghost predicate AllOn(w: World, o: Output, cs: seq<Handle>) {
    forall i :: 0 <= i < |cs| ==> cs[i] in w.conts && w.conts[cs[i]].spot.output == o
  }

  lemma SeatedStay(w: World, w': World, o: Output, cs: seq<Handle>)
    requires Seated(w, w') && NoneWaits(w, o) && AllOn(w, o, cs)
    ensures NoneWaits(w', o) && AllOn(w', o, cs)
  {
    assert forall c :: c in w.conts ==> Joining(w.conts[c], w'.conts[c]);
  }

  lemma InOrder(w: World, o: Output, cs: seq<Handle>)
    requires Listed(w) && cs == ListAt(w, o)
    ensures AllOn(w, o, cs) && Distinct(cs)
  {
    assert Single(w, o);
    assert forall c :: c in cs ==> c in ListAt(w, o);
  }

  lemma WelcomedPlaced(w: World, w': World, a: Output, fallback: Output)
    requires Placed(w, fallback) && a !in w.plugged
    requires w'.plugged == w.plugged + {a} && w'.screens.Keys == w.screens.Keys + {a} && w'.conts.Keys == w.conts.Keys
    requires forall c :: c in w.conts ==>
               if Awaits(w, c, a) then Back(w.conts[c].saved.value, w'.conts[c]) else w'.conts[c] == w.conts[c]
    ensures Placed(w', fallback)
  {
  }
}

/**
 The keys that bindings have taken: the focused client is told of all the others that are down,
 and only of those.
 */
module Keyboard {
  import opened Options
  import opened Lists

  type Key = int
  type Surface = nat

  /** The tracker counts keys eight higher than the device does. */
  const OFFSET := 8

  /** A key goes down or up; meanwhile bindings move the focus along, and may take a press. */
  datatype Event =
    | Press(key: Key, moves: seq<Option<Surface>>, bound: bool)
    | Release(key: Key, moves: seq<Option<Surface>>)
    | Refocus(surface: Option<Surface>)

  /** The device reports a key down only when it was up, and up only when it was down. */
  predicate Possible(held: seq<Key>, e: Event) {
    match e
    case Press(k, _, _) => k !in held
    case Release(k, _) => k in held
    case Refocus(_) => true
  }

  /** The keys that are down after an event. */
  function Down(held: seq<Key>, e: Event): seq<Key> {
    match e
    case Press(k, _, _) => held + [k]
    case Release(k, _) => Without(held, k)
    case Refocus(_) => held
  }

  /** The keys that are taken after an event: bindings take presses, and releases give back. */
  function Taken(tracker: seq<Key>, e: Event): seq<Key> {
    match e
    case Press(k, _, bound) => if bound then tracker + [k + OFFSET] else tracker
    case Release(k, _) => Without(tracker, k + OFFSET)
    case Refocus(_) => tracker
  }

  function Focused(focus: Option<Surface>, e: Event): Option<Surface> {
    if e.Refocus? then e.surface else LastOf(focus, e.moves)
  }

  ghost function Final(s: (seq<Key>, seq<Key>, Option<Surface>), es: seq<Event>): (seq<Key>, seq<Key>, Option<Surface>)
    decreases |es|
  {
    if es == [] then s
    else Final((Down(s.0, es[0]), Taken(s.1, es[0]), Focused(s.2, es[0])), es[1..])
  }

  function LastOf(focus: Option<Surface>, moves: seq<Option<Surface>>): Option<Surface> {
    if moves == [] then focus else moves[|moves| - 1]
  }

  ghost predicate AllPossible(held: seq<Key>, es: seq<Event>)
    decreases |es|
  {
    es != [] ==> Possible(held, es[0]) && AllPossible(Down(held, es[0]), es[1..])
  }

  /** The keys that are down and not taken. */
  function Free(held: seq<Key>, tracker: seq<Key>): set<Key> {
    set k | k in held && k + OFFSET !in tracker
  }

  class Seat {
    var held: seq<Key>             // down, as the device knows
    var tracker: seq<Key>          // down, and taken by a binding
    var focus: Option<Surface>
    var believed: set<Key>         // down, as the focused client knows

    /** Taken keys are down, none twice, and the client knows of all keys that are not taken. */
    ghost predicate Synced()
      reads this
    {
      && Distinct(held) && Distinct(tracker)
      && (forall k :: k in tracker ==> k - OFFSET in held)
      && (focus.Some? ==> believed == Free(held, tracker))
    }

    constructor ()
      ensures Synced() && held == tracker == [] && focus == None
    {
      held, tracker, focus, believed := [], [], None, {};
    }

    method Find(keycode: Key) returns (i: int)
      ensures i == -1 <==> keycode !in tracker
      ensures i != -1 ==> 0 <= i < |tracker| && tracker[i] == keycode
    {
      for j := 0 to |tracker|
        invariant keycode !in tracker[..j]
      {
        if tracker[j] == keycode {
          return j;
        }
      }
      return -1;
    }

    method KeysToSend() returns (sent: seq<Key>)
      ensures (set k | k in sent) == Free(held, tracker)
    {
      sent := [];
      for i := 0 to |held|
        invariant forall k :: k in sent <==> k in held[..i] && k + OFFSET !in tracker
      {
        var at := Find(held[i] + OFFSET);
        if at == -1 {
          sent := sent + [held[i]];
        }
      }
      assert held[..|held|] == held;
      assert forall k :: k in sent <==> k in Free(held, tracker);
    }

    /** A client that gains the focus is sent the keys that are down and not taken. */
    method FocusSurface(surface: Option<Surface>)
      modifies this`focus, this`believed
      ensures focus == surface
      ensures believed == if surface == None || surface == old(focus) then old(believed) else Free(held, tracker)
    {
      if surface != None {
        var sent := KeysToSend();
        if focus != surface {
          believed := set k | k in sent;
        }
      }
      focus := surface;
    }

    /** The bindings of a key run, and move the focus; `late` is a key the focused client may not have heard of yet. */
    method RunBindings(moves: seq<Option<Surface>>, ghost late: set<Key>)
      requires focus.Some? ==> Free(held, tracker) <= believed <= Free(held, tracker) + late
      modifies this`focus, this`believed
      ensures focus == if moves == [] then old(focus) else moves[|moves| - 1]
      ensures focus.Some? ==> Free(held, tracker) <= believed <= Free(held, tracker) + late
    {
      for i := 0 to |moves|
        invariant focus == LastOf(old(focus), moves[..i])
        invariant focus.Some? ==> Free(held, tracker) <= believed <= Free(held, tracker) + late
      {
        FocusSurface(moves[i]);
      }
      assert moves[..|moves|] == moves;
    }

    method NotifyKey(key: Key, pressed: bool)
      modifies this`believed
      ensures focus.Some? ==> believed == if pressed then old(believed) + {key} else old(believed) - {key}
    {
      if focus.Some? {
        believed := if pressed then believed + {key} else believed - {key};
      }
    }

    /** The device has the key down already when the event arrives. */
    method KeyPressed(key: Key, moves: seq<Option<Surface>>, bound: bool)
      requires Synced() && key !in held
      modifies this
      ensures Synced() && held == old(held) + [key]
      ensures focus == if moves == [] then old(focus) else moves[|moves| - 1]
      ensures tracker == if bound then old(tracker) + [key + OFFSET] else old(tracker)
    {
      held := held + [key];
      var keycode := key + OFFSET;
      var at := Find(keycode);
      if at == -1 {
        tracker := tracker + [keycode];
      }
      assert Free(held, tracker) == Free(old(held), old(tracker));
      RunBindings(moves, {});
      if !bound {
        tracker := tracker[..|tracker| - 1];
        NotifyKey(key, true);
        assert tracker == old(tracker) && Free(held, tracker) == Free(old(held), tracker) + {key};
      }
    }

    method KeyReleased(key: Key, moves: seq<Option<Surface>>)
      requires Synced() && key in held
      modifies this
      ensures Synced() && held == Without(old(held), key)
      ensures focus == if moves == [] then old(focus) else moves[|moves| - 1]
      ensures tracker == Without(old(tracker), key + OFFSET)
    {
      Unheld(held, tracker, key);
      held := Without(held, key);
      var handled := GiveBack(key + OFFSET);
      RunBindings(moves, if handled then {} else {key});
      if !handled {
        NotifyKey(key, false);
      }
    }

    /** The key is no longer taken; the result says whether it was. */
    method GiveBack(keycode: Key) returns (handled: bool)
      requires Distinct(tracker)
      modifies this`tracker
      ensures tracker == Without(old(tracker), keycode) && (handled <==> keycode in old(tracker))
    {
      var at := Find(keycode);
      handled := at != -1;
      if handled {
        WithoutAt(tracker, at);
        tracker := tracker[..at] + tracker[at + 1..];
      } else {
        WithoutNone(tracker, keycode);
      }
    }
  }

  /** A released key is neither held nor taken, and nothing else changes. */
  lemma Unheld(held: seq<Key>, tracker: seq<Key>, key: Key)
    requires Distinct(held) && Distinct(tracker) && key in held
    requires forall k :: k in tracker ==> k - OFFSET in held
    ensures var (h, t) := (Without(held, key), Without(tracker, key + OFFSET));
            && Distinct(h) && Distinct(t) && (forall k :: k in t ==> k - OFFSET in h)
            && Free(h, t) == Free(held, tracker) - {key}
            && (key + OFFSET in tracker ==> key !in Free(held, tracker))
            && (key + OFFSET !in tracker ==> t == tracker)
  {
    WithoutOne(held, key);
    WithoutOne(tracker, key + OFFSET);
    if key + OFFSET !in tracker { WithoutNone(tracker, key + OFFSET); }
  }

  /** Over every run of presses, releases and focus changes, inside bindings or not. */
  method Execute(seat: Seat, es: seq<Event>)
    requires seat.Synced() && AllPossible(seat.held, es)
    modifies seat
    ensures seat.Synced()
    ensures (seat.held, seat.tracker, seat.focus) == Final(old((seat.held, seat.tracker, seat.focus)), es)
  {
    for i := 0 to |es|
      invariant seat.Synced() && AllPossible(seat.held, es[i..])
      invariant Final((seat.held, seat.tracker, seat.focus), es[i..])
             == Final(old((seat.held, seat.tracker, seat.focus)), es)
    {
      assert es[i..][0] == es[i] && es[i..][1..] == es[i + 1..];
      match es[i] {
        case Press(k, moves, bound) => seat.KeyPressed(k, moves, bound);
        case Release(k, moves) => seat.KeyReleased(k, moves);
        case Refocus(surface) => seat.FocusSurface(surface);
      }
    }
  }
}

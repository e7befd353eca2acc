/** The order of the outputs: from the top left to the bottom right. */
module Outputs {
  import opened Lists

  datatype Screen = Screen(name: nat, x: int, y: int)

  /** At or left of, and at or above: not every two outputs compare. */
  predicate Leads(a: Screen, b: Screen) {
    a.y <= b.y && a.x <= b.x
  }

  predicate SamePlace(a: Screen, b: Screen) {
    a.x == b.x && a.y == b.y
  }

  /** Nearer to the left and not further down, or further up and not more to the right. */
  predicate Before(a: Screen, b: Screen) {
    (a.x < b.x && a.y <= b.y) || (a.x <= b.x && a.y < b.y)
  }

  /** No output comes after one that it should be before. */
  ghost predicate InOrder(s: seq<Screen>) {
    forall i, j :: 0 <= i < j < |s| ==> !Before(s[j], s[i])
  }

  /** Before the first one it leads, or at the end. */
  function Insert(s: seq<Screen>, o: Screen): seq<Screen> {
    if s == [] then [o]
    else if Leads(o, s[0]) then [o] + s
    else [s[0]] + Insert(s[1..], o)
  }

  function Sort(s: seq<Screen>): seq<Screen> {
    if s == [] then [] else Insert(Sort(s[..|s| - 1]), s[|s| - 1])
  }

  lemma {:induction false} InsertAdds(s: seq<Screen>, o: Screen)
    ensures multiset(Insert(s, o)) == multiset(s) + multiset{o}
    ensures forall x :: x in Insert(s, o) ==> x == o || x in s
    ensures |Insert(s, o)| == |s| + 1
  {
    if s != [] {
      assert s == [s[0]] + s[1..];
      InsertAdds(s[1..], o);
    }
  }

  lemma {:induction false} InsertKeeps(s: seq<Screen>, o: Screen)
    requires InOrder(s)
    ensures InOrder(Insert(s, o))
  {
    if s != [] {
      if Leads(o, s[0]) {
        forall j | 0 <= j < |s| ensures !Before(s[j], o) {
          assert j > 0 ==> !Before(s[j], s[0]);
        }
        Prepended(o, s);
      } else {
        var rest := s[1..];
        assert forall i :: 0 <= i < |rest| ==> rest[i] == s[i + 1];
        InsertKeeps(rest, o);
        InsertAdds(rest, o);
        var r := Insert(rest, o);
        forall j | 0 <= j < |r| ensures !Before(r[j], s[0]) {
          assert r[j] in r;
        }
        Prepended(s[0], r);
      }
    }
  }

  lemma Prepended(o: Screen, s: seq<Screen>)
    requires InOrder(s) && forall j :: 0 <= j < |s| ==> !Before(s[j], o)
    ensures InOrder([o] + s)
  {
    var r := [o] + s;
    assert forall i :: 0 < i < |r| ==> r[i] == s[i - 1];
  }

  /** Sorting gives a permutation in which no output comes before one that is further left and not lower, or higher. */
  lemma {:induction false} SortOrders(s: seq<Screen>)
    ensures InOrder(Sort(s)) && multiset(Sort(s)) == multiset(s)
  {
    if s != [] {
      SortOrders(s[..|s| - 1]);
      InsertKeeps(Sort(s[..|s| - 1]), s[|s| - 1]);
      InsertAdds(Sort(s[..|s| - 1]), s[|s| - 1]);
      assert s == s[..|s| - 1] + [s[|s| - 1]];
    }
  }

  lemma {:induction false} InsertAtEnd(s: seq<Screen>, o: Screen)
    requires forall i :: 0 <= i < |s| ==> !Leads(o, s[i])
    ensures Insert(s, o) == s + [o]
  {
    if s != [] { InsertAtEnd(s[1..], o); }
  }

  lemma {:induction false} InsertedAtEnd(s: seq<Screen>, o: Screen, r: seq<Screen>)
    requires Insert(s, o) == r + [o] && o !in s
    ensures s == r && forall i :: 0 <= i < |s| ==> !Leads(o, s[i])
  {
    InsertAdds(s, o);
    if s != [] {
      assert ([o] + s)[|s|] == s[|s| - 1] != o && |Insert(s, o)| == |r| + 1;
      if !Leads(o, s[0]) {
        assert (r + [o])[1..] == r[1..] + [o];
        InsertedAtEnd(s[1..], o, r[1..]);
        assert forall i :: 0 < i < |s| ==> s[i] == s[1..][i - 1];
      }
    }
  }

  /** Sorting leaves a list alone exactly when no output leads one before it, be it in the same place. */
  lemma {:induction false} SortFixed(s: seq<Screen>)
    requires Distinct(s)
    ensures Sort(s) == s <==> forall i, j :: 0 <= i < j < |s| ==> !Leads(s[j], s[i])
  {
    if s != [] {
      var (init, o) := (s[..|s| - 1], s[|s| - 1]);
      assert s == init + [o];
      SortFixed(init);
      SortOrders(init);
      if Sort(s) == s {
        assert o !in multiset(init);
        InsertedAtEnd(Sort(init), o, init);
      }
      if forall i, j :: 0 <= i < j < |s| ==> !Leads(s[j], s[i]) {
        assert forall i :: 0 <= i < |init| ==> init[i] == s[i];
        InsertAtEnd(init, o);
      }
    }
  }

  /** Two different outputs in the same place change places each time. */
  lemma SortSwaps(a: Screen, b: Screen)
    requires SamePlace(a, b)
    ensures Sort([a, b]) == [b, a]
  {
    assert [a, b][..1] == [a] && [a][..0] == [];
    assert Sort([a]) == Insert([], a) == [a];
  }

  class Server {
    var outputs: seq<Screen>

    /** Rebuilds the list of outputs in a second one. */
    method SortOutputIndex()
      modifies this
      ensures outputs == Sort(old(outputs))
      ensures InOrder(outputs) && multiset(outputs) == multiset(old(outputs))
    {
      SortOrders(outputs);
      var sorted := [];
      assert outputs[..0] == [];
      for i := 0 to |outputs|
        invariant outputs == old(outputs) && sorted == Sort(outputs[..i])
      {
        assert outputs[..i + 1][..i] == outputs[..i];
        sorted := InsertOne(sorted, outputs[i]);
      }
      assert outputs[..|outputs|] == outputs;
      outputs := sorted;
    }

    method InsertOne(sorted: seq<Screen>, o: Screen) returns (r: seq<Screen>)
      ensures r == Insert(sorted, o)
    {
      var at := 0;
      while at < |sorted| && !Leads(o, sorted[at])
        invariant 0 <= at <= |sorted|
        invariant Insert(sorted, o) == sorted[..at] + Insert(sorted[at..], o)
      {
        assert sorted[at..][1..] == sorted[at + 1..];
        assert sorted[..at] + [sorted[at]] == sorted[..at + 1];
        at := at + 1;
      }
      r := sorted[..at] + [o] + sorted[at..];
    }
  }
}

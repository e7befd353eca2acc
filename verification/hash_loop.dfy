/** A run of insertions and removals from an empty map after which a lookup never ends. */
module HashLoop {
  import opened Options
  import opened HashTable
  import opened HashRefill
  import opened HashMap
  import opened HashRun

  /** The run: a chain that goes round is emptied from its front, and its slots filled again. */
  const RUN: seq<Op<int>> :=
    [Assign(8, None), Assign(1, None), Assign(7, None), Assign(15, None),
     Discard(7), Discard(8), Discard(1),
     Assign(3, None), Assign(4, None), Assign(5, None), Assign(6, None), Assign(23, None)]

  /** An operation that ends, in a map that never shrinks. */
  ghost predicate StepTo(t: Table<int>, op: Op<int>, u: Table<int>) {
    Ready(Store(t, 0), op) && Next(Store(t, 0), op) == Store(u, 0)
  }

  /** A new hash is put into the first free slot after the end of its chain, with no rehash. */
  lemma PutStep(t: Table<int>, h: nat, prev: nat, cur: nat, u: Table<int>)
    requires Linked(t) && Halts(t, h) && Lookup(t, h) == Missing(prev) && |Live(t)| < |t| * 3 / 4
    requires FirstFree(t, prev, cur) && u == Put(t, prev, cur, h, None)
    ensures StepTo(t, Assign(h, None), u)
  {
    FreeIs(t, prev, cur);
    Subset(Live(u), Live(t) + {cur});
    assert Grown(t, h, None) == u;
  }

  lemma TakeStep(t: Table<int>, h: nat, i: nat, p: nat)
    requires Linked(t) && Halts(t, h) && Lookup(t, h) == At(i, p) && i < |t| && p < |t|
    ensures StepTo(t, Discard(h), Take(t, i, p))
  {
  }

  /** Eight slots with the given hashes, of which only the last may have a link, to the third. */
  function Slots(hashes: seq<nat>, linked: bool): Table<int>
    requires |hashes| == 8
  {
    seq(8, (i: nat) requires i < 8 => Slot(if i == 7 && linked then Some(2) else None, hashes[i], None))
  }

  /** Three slots are empty. */
  predicate Empty3(hashes: seq<nat>, a: nat, b: nat, c: nat)
    requires |hashes| == 8
  {
    a < b < c < 8 && hashes[a] == 0 && hashes[b] == 0 && hashes[c] == 0
  }

  lemma LiveBound(hashes: seq<nat>, linked: bool, a: nat, b: nat, c: nat)
    requires |hashes| == 8 && Empty3(hashes, a, b, c)
    ensures |Live(Slots(hashes, linked))| <= 5
  {
    var live := Live(Slots(hashes, linked));
    var free: set<nat> := {a, b, c};
    assert a !in live && b !in live && c !in live;
    Subset(live + free, {0, 1, 2, 3, 4, 5, 6, 7});
    assert live !! free && |live + free| == |live| + |free|;
  }

  /** A hash whose root slot is empty is put there. */
  lemma InsertAtRoot(hashes: seq<nat>, linked: bool, h: nat, a: nat, b: nat, c: nat, after: seq<nat>)
    requires |hashes| == 8 && after == hashes[h % 8 := h] && h != 0 && hashes[h % 8] == 0 && (h % 8 == 7 ==> !linked)
    requires Empty3(hashes, a, b, c)
    ensures StepTo(Slots(hashes, linked), Assign(h, None), Slots(after, linked))
  {
    var t, cur := Slots(hashes, linked), h % 8;
    LiveBound(hashes, linked, a, b, c);
    LookupIs(t, h, 0);
    assert FirstFree(t, cur, cur);
    assert Put(t, cur, cur, h, None) == Slots(after, linked);
    PutStep(t, h, cur, cur, Slots(after, linked));
  }

  /** A hash in its root slot, which has no link, is taken out. */
  lemma RemoveAtRoot(hashes: seq<nat>, linked: bool, h: nat, after: seq<nat>)
    requires |hashes| == 8 && after == hashes[h % 8 := 0] && h != 0 && hashes[h % 8] == h && h % 8 != 7
    ensures StepTo(Slots(hashes, linked), Discard(h), Slots(after, linked))
  {
    var t, cur := Slots(hashes, linked), h % 8;
    LookupIs(t, h, 0);
    assert Take(t, cur, cur) == Slots(after, linked);
    TakeStep(t, h, cur, cur);
  }

  /** With slots 7, 0 and 1 full, the second hash of the last chain goes round to slot 2. */
  lemma InsertRound()
    ensures StepTo(Slots([8, 1, 0, 0, 0, 0, 0, 7], false), Assign(15, None), Slots([8, 1, 15, 0, 0, 0, 0, 7], true))
  {
    var t := Slots([8, 1, 0, 0, 0, 0, 0, 7], false);
    LiveBound([8, 1, 0, 0, 0, 0, 0, 7], false, 2, 3, 4);
    LookupIs(t, 15, 0);
    assert FirstFree(t, 7, 2);
    assert Put(t, 7, 2, 15, None) == Slots([8, 1, 15, 0, 0, 0, 0, 7], true);
    PutStep(t, 15, 7, 2, Slots([8, 1, 15, 0, 0, 0, 0, 7], true));
  }

  /** The first hash of that chain leaves a slot without an entry but with its link. */
  lemma RemoveLinked()
    ensures StepTo(Slots([8, 1, 15, 0, 0, 0, 0, 7], true), Discard(7), Slots([8, 1, 15, 0, 0, 0, 0, 0], true))
  {
    var t := Slots([8, 1, 15, 0, 0, 0, 0, 7], true);
    LookupIs(t, 7, 0);
    assert Take(t, 7, 7) == Slots([8, 1, 15, 0, 0, 0, 0, 0], true);
    TakeStep(t, 7, 7, 7);
  }

  const FULL := [0, 0, 15, 3, 4, 5, 6, 0]

  /** A third hash of the chain goes round again, into the slot whose link leads to the chain's end. */
  lemma InsertIntoLinked()
    ensures StepTo(Slots(FULL, true), Assign(23, None), Put(Slots(FULL, true), 2, 7, 23, None))
    ensures Puttable(Slots(FULL, true), 2, 7, 23) && Reaches(Slots(FULL, true), 7, 2)
  {
    var t := Slots(FULL, true);
    LiveBound(FULL, true, 0, 1, 7);
    assert Seek(t, 7, 7, 23, 1) == Seek(t, 2, 7, 23, 0) == Missing(2);
    LookupIs(t, 23, 1);
    assert FirstFree(t, 2, 7);
    PutStep(t, 23, 2, 7, Put(t, 2, 7, 23, None));
    assert After(t, 7, 1) == After(t, 2, 0) == Some(2);
  }

  /** `u` comes out of the first `n` operations, all of which end, on an empty table of the smallest size. */
  ghost predicate Along(n: nat, u: Table<int>) {
    n <= |RUN| && Leads(Store(Bare<int>(8), 0), RUN[..n], u)
  }

  ghost predicate Leads(s: Store<int>, ops: seq<Op<int>>, u: Table<int>) {
    Halting(s, ops) && Reached(s, ops) == Store(u, 0)
  }

  /** Every operation ends, and then no lookup of an absent hash with root slot 7 does. */
  ghost predicate Loops(s: Store<int>, ops: seq<Op<int>>) {
    && Halting(s, ops)
    && var t := Reached(s, ops).t;
       Linked(t) && forall g: nat :: g % 8 == 7 && g != 15 && g != 23 ==> !Halts(t, g)
  }

  lemma {:induction false} OneMore(s: Store<int>, ops: seq<Op<int>>, op: Op<int>)
    ensures Reached(s, ops + [op]) == Next(Reached(s, ops), op)
    ensures Halting(s, ops + [op]) <==> Halting(s, ops) && Ready(Reached(s, ops), op)
    decreases |ops|
  {
    if ops == [] {
      assert ([op])[1..] == [] && ops + [op] == [op];
    } else {
      assert (ops + [op])[1..] == ops[1..] + [op];
      OneMore(Next(s, ops[0]), ops[1..], op);
    }
  }

  lemma Then(n: nat, v: Table<int>, u: Table<int>)
    requires n < |RUN| && Along(n, v) && StepTo(v, RUN[n], u)
    ensures Along(n + 1, u)
  {
    OneMore(Store(Bare<int>(8), 0), RUN[..n], RUN[n]);
    assert RUN[..n + 1] == RUN[..n] + [RUN[n]];
  }

  lemma RootStep(n: nat, hashes: seq<nat>, linked: bool, h: nat, a: nat, b: nat, c: nat, after: seq<nat>)
    requires |hashes| == 8 && after == hashes[h % 8 := h] && h != 0 && hashes[h % 8] == 0 && (h % 8 == 7 ==> !linked)
    requires Empty3(hashes, a, b, c)
    requires n < |RUN| && RUN[n] == Assign(h, None) && Along(n, Slots(hashes, linked))
    ensures Along(n + 1, Slots(after, linked))
  {
    InsertAtRoot(hashes, linked, h, a, b, c, after);
    Then(n, Slots(hashes, linked), Slots(after, linked));
  }

  lemma EmptyStep(n: nat, hashes: seq<nat>, linked: bool, h: nat, after: seq<nat>)
    requires |hashes| == 8 && after == hashes[h % 8 := 0] && h != 0 && hashes[h % 8] == h && h % 8 != 7
    requires n < |RUN| && RUN[n] == Discard(h) && Along(n, Slots(hashes, linked))
    ensures Along(n + 1, Slots(after, linked))
  {
    RemoveAtRoot(hashes, linked, h, after);
    Then(n, Slots(hashes, linked), Slots(after, linked));
  }

  lemma Started()
    ensures Along(1, Slots([8, 0, 0, 0, 0, 0, 0, 0], false))
  {
    assert Slots([0, 0, 0, 0, 0, 0, 0, 0], false) == Bare<int>(8);
    assert Along(0, Slots([0, 0, 0, 0, 0, 0, 0, 0], false));
    RootStep(0, [0, 0, 0, 0, 0, 0, 0, 0], false, 8, 0, 1, 2, [8, 0, 0, 0, 0, 0, 0, 0]);
  }

  lemma Filling()
    ensures Along(2, Slots([8, 1, 0, 0, 0, 0, 0, 0], false))
  {
    Started();
    RootStep(1, [8, 0, 0, 0, 0, 0, 0, 0], false, 1, 1, 2, 3, [8, 1, 0, 0, 0, 0, 0, 0]);
  }

  lemma Filled()
    ensures Along(3, Slots([8, 1, 0, 0, 0, 0, 0, 7], false))
  {
    Filling();
    RootStep(2, [8, 1, 0, 0, 0, 0, 0, 0], false, 7, 2, 3, 4, [8, 1, 0, 0, 0, 0, 0, 7]);
  }

  lemma Rounded()
    ensures Along(4, Slots([8, 1, 15, 0, 0, 0, 0, 7], true))
  {
    Filled();
    InsertRound();
    Then(3, Slots([8, 1, 0, 0, 0, 0, 0, 7], false), Slots([8, 1, 15, 0, 0, 0, 0, 7], true));
  }

  lemma Linking()
    ensures Along(5, Slots([8, 1, 15, 0, 0, 0, 0, 0], true))
  {
    Rounded();
    RemoveLinked();
    Then(4, Slots([8, 1, 15, 0, 0, 0, 0, 7], true), Slots([8, 1, 15, 0, 0, 0, 0, 0], true));
  }

  lemma Emptying()
    ensures Along(6, Slots([0, 1, 15, 0, 0, 0, 0, 0], true))
  {
    Linking();
    EmptyStep(5, [8, 1, 15, 0, 0, 0, 0, 0], true, 8, [0, 1, 15, 0, 0, 0, 0, 0]);
  }

  lemma Emptied()
    ensures Along(7, Slots([0, 0, 15, 0, 0, 0, 0, 0], true))
  {
    Emptying();
    EmptyStep(6, [0, 1, 15, 0, 0, 0, 0, 0], true, 1, [0, 0, 15, 0, 0, 0, 0, 0]);
  }

  lemma Refilling()
    ensures Along(8, Slots([0, 0, 15, 3, 0, 0, 0, 0], true))
  {
    Emptied();
    RootStep(7, [0, 0, 15, 0, 0, 0, 0, 0], true, 3, 0, 1, 7, [0, 0, 15, 3, 0, 0, 0, 0]);
  }

  lemma FilledAgain()
    ensures Along(9, Slots([0, 0, 15, 3, 4, 0, 0, 0], true))
  {
    Refilling();
    RootStep(8, [0, 0, 15, 3, 0, 0, 0, 0], true, 4, 0, 1, 7, [0, 0, 15, 3, 4, 0, 0, 0]);
  }

  lemma Crowding()
    ensures Along(10, Slots([0, 0, 15, 3, 4, 5, 0, 0], true))
  {
    FilledAgain();
    RootStep(9, [0, 0, 15, 3, 4, 0, 0, 0], true, 5, 0, 1, 7, [0, 0, 15, 3, 4, 5, 0, 0]);
  }

  lemma Crowded()
    ensures Along(11, Slots(FULL, true))
  {
    Crowding();
    RootStep(10, [0, 0, 15, 3, 4, 5, 0, 0], true, 6, 0, 1, 7, FULL);
  }

  lemma Closing()
    ensures Along(12, Put(Slots(FULL, true), 2, 7, 23, None))
  {
    Crowded();
    InsertIntoLinked();
    Then(11, Slots(FULL, true), Put(Slots(FULL, true), 2, 7, 23, None));
  }

  lemma Closed(g: nat)
    requires g % 8 == 7 && g != 15 && g != 23
    ensures var u := Put(Slots(FULL, true), 2, 7, 23, None); Linked(u) && !Halts(u, g)
  {
    InsertIntoLinked();
    PutLoopsLookup(Slots(FULL, true), 2, 7, 23, None, g);
  }

  lemma LeadsToLoop(s: Store<int>, ops: seq<Op<int>>)
    requires Leads(s, ops, Put(Slots(FULL, true), 2, 7, 23, None))
    ensures Loops(s, ops)
  {
    Closed(7);
    forall g: nat | g % 8 == 7 && g != 15 && g != 23 ensures !Halts(Put(Slots(FULL, true), 2, 7, 23, None), g) {
      Closed(g);
    }
  }

  /**
   Insertions and removals alone can close a loop, in a map of eight slots that is never rehashed:
   every operation of the run ends, and afterwards every lookup of an absent hash with root slot 7
   goes on for ever.
   */
  lemma RunCanLoop()
    ensures Loops(Store(Bare<int>(8), 0), RUN)
  {
    Closing();
    assert RUN[..12] == RUN;
    LeadsToLoop(Store(Bare<int>(8), 0), RUN);
  }
}

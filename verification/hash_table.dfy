/**
 The slot array of the hybrid hash map as a value: chains threaded through the slots by index,
 a free slot found by linear probing, and what links do under insertion and removal.
 */
module HashTable {
  import opened Options

  /** Hash 0 marks a slot without an entry; such a slot may keep a link. */
  datatype Slot<D> = Slot(next: Option<nat>, hash: nat, data: Option<D>)

  type Table<D> = seq<Slot<D>>

  predicate Linked<D>(t: Table<D>) {
    |t| > 0 && forall i :: 0 <= i < |t| ==> t[i].next.Some? ==> t[i].next.value < |t|
  }

  ghost function Live<D>(t: Table<D>): set<nat> {
    set i: nat | i < |t| && t[i].hash != 0
  }

  ghost predicate DistinctHashes<D>(t: Table<D>) {
    forall i, j :: 0 <= i < |t| && 0 <= j < |t| && t[i].hash == t[j].hash != 0 ==> i == j
  }

  ghost predicate Holds<D>(t: Table<D>, h: nat) {
    exists i :: 0 <= i < |t| && t[i].hash == h
  }

  ghost function Where<D>(t: Table<D>, h: nat): (i: nat)
    requires Holds(t, h)
    ensures i < |t| && t[i].hash == h
  {
    var i: nat :| i < |t| && t[i].hash == h;
    i
  }

  /** The finite map from hash to data that a table stands for. */
  ghost function Contents<D>(t: Table<D>): map<nat, Option<D>> {
    map i: nat | i in (set j: nat | j < |t| && t[j].hash != 0 :: t[j].hash) && Holds(t, i) :: t[Where(t, i)].data
  }

  lemma ContentsAt<D>(t: Table<D>, h: nat)
    ensures h in Contents(t) <==> h != 0 && Holds(t, h)
  {
    if h != 0 && Holds(t, h) {
      var i := Where(t, h);
      assert t[i].hash in (set j: nat | j < |t| && t[j].hash != 0 :: t[j].hash);
    }
  }

  lemma ContentsIs<D>(t: Table<D>, i: nat)
    requires DistinctHashes(t) && i < |t| && t[i].hash != 0
    ensures t[i].hash in Contents(t) && Contents(t)[t[i].hash] == t[i].data
  {
    assert Holds(t, t[i].hash);
    ContentsAt(t, t[i].hash);
  }

  /** Two tables with the same entries, wherever these are, have the same contents. */
  lemma ContentsEqual<D>(t: Table<D>, m: map<nat, Option<D>>)
    requires DistinctHashes(t)
    requires forall i: nat :: i < |t| && t[i].hash != 0 ==> t[i].hash in m && m[t[i].hash] == t[i].data
    requires forall h :: h in m ==> h != 0 && Holds(t, h)
    ensures Contents(t) == m
  {
    forall h: nat ensures h in Contents(t) <==> h in m {
      ContentsAt(t, h);
      if h in Contents(t) {
        assert t[Where(t, h)].hash in m;
      }
    }
    forall h | h in m ensures h in Contents(t) && Contents(t)[h] == m[h] {
      ContentsAt(t, h);
      ContentsIs(t, Where(t, h));
    }
    assert Contents(t).Keys == m.Keys;
  }

  // ---- walking a chain ----

  /** The slot `n` links further on, if the chain is that long. */
  ghost function After<D>(t: Table<D>, i: nat, n: nat): (r: Option<nat>)
    requires Linked(t) && i < |t|
    ensures r.Some? ==> r.value < |t|
    decreases n
  {
    if n == 0 then Some(i)
    else if t[i].next.None? then None
    else After(t, t[i].next.value, n - 1)
  }

  ghost predicate Reaches<D>(t: Table<D>, i: nat, j: nat)
    requires Linked(t) && i < |t|
  {
    exists n: nat :: After(t, i, n) == Some(j)
  }

  ghost predicate Ends<D>(t: Table<D>, i: nat)
    requires Linked(t) && i < |t|
  {
    exists n: nat :: After(t, i, n).None?
  }

  ghost predicate Acyclic<D>(t: Table<D>)
    requires Linked(t)
  {
    forall i: nat :: i < |t| ==> Ends(t, i)
  }

  function Root<D>(t: Table<D>, h: nat): (r: nat)
    requires |t| > 0
    ensures r < |t|
  {
    h % |t|
  }

  /** Every entry is on the chain that starts at the root slot of its hash. */
  ghost predicate Findable<D>(t: Table<D>)
    requires Linked(t)
  {
    forall i: nat :: i < |t| && t[i].hash != 0 ==> Reaches(t, Root(t, t[i].hash), i)
  }

  /** Slots without an entry have no link: no removal has left one behind. */
  predicate Clean<D>(t: Table<D>) {
    forall i :: 0 <= i < |t| && t[i].hash == 0 ==> t[i].next.None?
  }

  lemma {:induction false} AfterAdd<D>(t: Table<D>, i: nat, n: nat, m: nat)
    requires Linked(t) && i < |t| && After(t, i, n).Some?
    ensures After(t, i, n + m) == After(t, After(t, i, n).value, m)
    decreases n
  {
    if n > 0 { AfterAdd(t, t[i].next.value, n - 1, m); }
  }

  lemma {:induction false} EndedStays<D>(t: Table<D>, i: nat, n: nat, m: nat)
    requires Linked(t) && i < |t| && n <= m && After(t, i, n).None?
    ensures After(t, i, m).None?
    decreases n
  {
    if t[i].next.Some? { EndedStays(t, t[i].next.value, n - 1, m - 1); }
  }

  lemma ReachesTrans<D>(t: Table<D>, i: nat, j: nat, k: nat)
    requires Linked(t) && i < |t| && j < |t| && Reaches(t, i, j) && Reaches(t, j, k)
    ensures Reaches(t, i, k)
  {
    var n: nat :| After(t, i, n) == Some(j);
    var m: nat :| After(t, j, m) == Some(k);
    AfterAdd(t, i, n, m);
  }

  // ---- lookup ----

  /** Where a lookup stops: at the entry, at the last slot of the chain, or not within `n` links. */
  datatype Sought = At(i: nat, prev: nat) | Missing(prev: nat) | Lost

  function Seek<D>(t: Table<D>, i: nat, prev: nat, h: nat, n: nat): Sought
    requires Linked(t) && i < |t|
    decreases n
  {
    if t[i].hash == h then At(i, prev)
    else if t[i].next.None? then Missing(i)
    else if n == 0 then Lost
    else Seek(t, t[i].next.value, i, h, n - 1)
  }

  /** The lookup of a hash comes to an end. */
  ghost predicate Halts<D>(t: Table<D>, h: nat)
    requires Linked(t)
  {
    exists n: nat :: Seek(t, Root(t, h), Root(t, h), h, n) != Lost
  }

  /** The outcome of a lookup that comes to an end. */
  ghost function Lookup<D>(t: Table<D>, h: nat): Sought
    requires Linked(t) && Halts(t, h)
  {
    var n: nat :| Seek(t, Root(t, h), Root(t, h), h, n) != Lost;
    Seek(t, Root(t, h), Root(t, h), h, n)
  }

  lemma {:induction false} SeekStable<D>(t: Table<D>, i: nat, prev: nat, h: nat, n: nat, m: nat)
    requires Linked(t) && i < |t| && n <= m && Seek(t, i, prev, h, n) != Lost
    ensures Seek(t, i, prev, h, m) == Seek(t, i, prev, h, n)
    decreases n
  {
    if t[i].hash != h && t[i].next.Some? {
      SeekStable(t, t[i].next.value, i, h, n - 1, m - 1);
    }
  }

  lemma LookupIs<D>(t: Table<D>, h: nat, n: nat)
    requires Linked(t) && Seek(t, Root(t, h), Root(t, h), h, n) != Lost
    ensures Halts(t, h) && Lookup(t, h) == Seek(t, Root(t, h), Root(t, h), h, n)
  {
    var r := Root(t, h);
    var m: nat :| Seek(t, r, r, h, m) != Lost && Lookup(t, h) == Seek(t, r, r, h, m);
    if m <= n { SeekStable(t, r, r, h, m, n); } else { SeekStable(t, r, r, h, n, m); }
  }

  /** What each way of stopping means for the chain. */
  lemma {:induction false} SeekMeans<D>(t: Table<D>, i: nat, prev: nat, h: nat, n: nat)
    requires Linked(t) && i < |t| && prev < |t|
    ensures match Seek(t, i, prev, h, n)
            case At(j, p) =>
              && j < |t| && t[j].hash == h && Reaches(t, i, j)
              && ((j == i && p == prev) || (p < |t| && Reaches(t, i, p) && t[p].next == Some(j)))
            case Missing(p) =>
              && p < |t| && Reaches(t, i, p) && t[p].next.None?
              && forall j: nat :: j < |t| && Reaches(t, i, j) ==> t[j].hash != h
            case Lost =>
              forall m: nat :: m <= n ==> After(t, i, m).Some? && t[After(t, i, m).value].hash != h
    decreases n
  {
    assert After(t, i, 0) == Some(i);
    if t[i].hash != h {
      if t[i].next.None? {
        forall j: nat | j < |t| && Reaches(t, i, j) ensures t[j].hash != h {
          var m: nat :| After(t, i, m) == Some(j);
        }
      } else if n > 0 {
        var k := t[i].next.value;
        SeekMeans(t, k, i, h, n - 1);
        assert After(t, i, 1) == After(t, k, 0);
        match Seek(t, i, prev, h, n)
        case At(j, p) =>
          ReachesTrans(t, i, k, j);
          if p != i { ReachesTrans(t, i, k, p); }
        case Missing(p) =>
          ReachesTrans(t, i, k, p);
          forall j: nat | j < |t| && Reaches(t, i, j) ensures t[j].hash != h {
            var m: nat :| After(t, i, m) == Some(j);
            if m > 0 { assert After(t, k, m - 1) == Some(j); }
          }
        case Lost =>
          forall m: nat | m <= n ensures After(t, i, m).Some? && t[After(t, i, m).value].hash != h {
            if m > 0 { assert After(t, i, m) == After(t, k, m - 1); }
          }
      }
    }
  }

  /** On a findable table a lookup that ends tells whether the hash is there. */
  lemma LookupMeans<D>(t: Table<D>, h: nat)
    requires Linked(t) && Findable(t) && h != 0 && Halts(t, h)
    ensures match Lookup(t, h)
            case At(j, p) =>
              && j < |t| && t[j].hash == h && p < |t| && Reaches(t, Root(t, h), p)
              && (p == j || t[p].next == Some(j))
            case Missing(p) =>
              && p < |t| && Reaches(t, Root(t, h), p) && t[p].next.None? && !Holds(t, h)
            case Lost => false
  {
    var n: nat :|
      Seek(t, Root(t, h), Root(t, h), h, n) != Lost && Lookup(t, h) == Seek(t, Root(t, h), Root(t, h), h, n);
    SeekMeans(t, Root(t, h), Root(t, h), h, n);
    assert After(t, Root(t, h), 0) == Some(Root(t, h));
    if Holds(t, h) { assert Reaches(t, Root(t, h), Where(t, h)); }
  }

  /** Lookups end on chains that end. */
  lemma EndsHalts<D>(t: Table<D>, h: nat)
    requires Linked(t) && Ends(t, Root(t, h))
    ensures Halts(t, h)
  {
    var n: nat :| After(t, Root(t, h), n).None?;
    SeekMeans(t, Root(t, h), Root(t, h), h, n);
  }

  /** On a chain that does not end, the lookup of a hash that is not on it never ends. */
  lemma AbsentLoops<D>(t: Table<D>, h: nat)
    requires Linked(t) && !Ends(t, Root(t, h))
    requires forall j: nat :: j < |t| && Reaches(t, Root(t, h), j) ==> t[j].hash != h
    ensures !Halts(t, h)
  {
    forall n: nat ensures Seek(t, Root(t, h), Root(t, h), h, n) == Lost {
      SeekMeans(t, Root(t, h), Root(t, h), h, n);
      match Seek(t, Root(t, h), Root(t, h), h, n)
      case At(_, _) =>
      case Lost =>
      case Missing(p) =>
        var m: nat :| After(t, Root(t, h), m) == Some(p);
        AfterAdd(t, Root(t, h), m, 1);
    }
  }

  // ---- insertion ----

  /** `cur` is the first slot without an entry, going round from `start`. */
  ghost predicate FirstFree<D>(t: Table<D>, start: nat, cur: nat) {
    && start < |t| && cur < |t| && t[cur].hash == 0
    && forall i: nat :: i < |t| && Between(|t|, start, i, cur) ==> t[i].hash != 0
  }

  /** Going round a table of `n` slots from `start`, `i` comes before `cur`. */
  predicate Between(n: nat, start: nat, i: nat, cur: nat) {
    if start <= cur then start <= i < cur else start <= i < n || i < cur
  }

  /**
   The entry put into the slot `cur`, which keeps the link it had, and `cur` appended to the
   chain that ends at `prev`.
   */
  function Put<D>(t: Table<D>, prev: nat, cur: nat, h: nat, data: Option<D>): Table<D>
    requires prev < |t| && cur < |t|
  {
    var u := t[cur := t[cur].(hash := h, data := data)];
    if prev == cur then u else u[prev := u[prev].(next := Some(cur))]
  }

  /** An insertion into `t` that has found the chain ending at `prev` without the hash. */
  ghost predicate Puttable<D>(t: Table<D>, prev: nat, cur: nat, h: nat) {
    && Linked(t) && prev < |t| && cur < |t| && h != 0
    && t[prev].next.None? && t[cur].hash == 0
    && !Holds(t, h) && Reaches(t, Root(t, h), prev)
  }

  lemma {:induction false} PutKeepsWalks<D>(t: Table<D>, prev: nat, cur: nat, h: nat, data: Option<D>, i: nat, n: nat)
    requires Puttable(t, prev, cur, h) && i < |t| && After(t, i, n).Some?
    ensures Linked(Put(t, prev, cur, h, data))
    ensures After(Put(t, prev, cur, h, data), i, n) == After(t, i, n)
    decreases n
  {
    if n > 0 { PutKeepsWalks(t, prev, cur, h, data, t[i].next.value, n - 1); }
  }

  lemma PutSlots<D>(t: Table<D>, prev: nat, cur: nat, h: nat, data: Option<D>)
    requires Puttable(t, prev, cur, h) && DistinctHashes(t)
    ensures var u := Put(t, prev, cur, h, data);
            && |u| == |t| && DistinctHashes(u) && Live(u) == Live(t) + {cur}
            && forall i :: 0 <= i < |t| ==>
                 && u[i].hash == (if i == cur then h else t[i].hash)
                 && u[i].data == (if i == cur then data else t[i].data)
  {
  }

  lemma PutContents<D>(t: Table<D>, prev: nat, cur: nat, h: nat, data: Option<D>)
    requires Puttable(t, prev, cur, h) && DistinctHashes(t)
    ensures DistinctHashes(Put(t, prev, cur, h, data))
    ensures Contents(Put(t, prev, cur, h, data)) == Contents(t)[h := data]
    ensures Live(Put(t, prev, cur, h, data)) == Live(t) + {cur}
  {
    var u, m := Put(t, prev, cur, h, data), Contents(t)[h := data];
    PutSlots(t, prev, cur, h, data);
    forall i: nat | i < |u| && u[i].hash != 0 ensures u[i].hash in m && m[u[i].hash] == u[i].data {
      if i != cur {
        ContentsIs(t, i);
        assert t[i].hash != h;
      }
    }
    forall g | g in m ensures g != 0 && Holds(u, g) {
      ContentsAt(t, g);
      var i := if g == h then cur else Where(t, g);
      assert u[i].hash == g;
    }
    ContentsEqual(u, m);
  }

  lemma PutFindable<D>(t: Table<D>, prev: nat, cur: nat, h: nat, data: Option<D>)
    requires Puttable(t, prev, cur, h) && Findable(t)
    ensures Linked(Put(t, prev, cur, h, data)) && Findable(Put(t, prev, cur, h, data))
  {
    var u := Put(t, prev, cur, h, data);
    forall i: nat | i < |u| && u[i].hash != 0 ensures Reaches(u, Root(u, u[i].hash), i) {
      if i == cur {
        var n: nat :| After(t, Root(t, h), n) == Some(prev);
        PutKeepsWalks(t, prev, cur, h, data, Root(t, h), n);
        if prev != cur {
          AfterAdd(u, Root(t, h), n, 1);
          assert After(u, prev, 1) == Some(cur);
        }
      } else {
        var n: nat :| After(t, Root(t, t[i].hash), n) == Some(i);
        PutKeepsWalks(t, prev, cur, h, data, Root(t, t[i].hash), n);
      }
    }
  }

  /** Appending a slot whose chain does not come back to `prev` leaves every chain with an end. */
  lemma PutAcyclic<D>(t: Table<D>, prev: nat, cur: nat, h: nat, data: Option<D>)
    requires Puttable(t, prev, cur, h) && Acyclic(t)
    requires prev == cur || !Reaches(t, cur, prev)
    ensures Linked(Put(t, prev, cur, h, data)) && Acyclic(Put(t, prev, cur, h, data))
  {
    var u := Put(t, prev, cur, h, data);
    PutKeepsWalks(t, prev, cur, h, data, prev, 0);
    if prev != cur {
      assert Ends(t, cur);
      var m: nat :| After(t, cur, m).None?;
      PutEnds(t, prev, cur, h, data, cur, m);
    }
    forall i: nat | i < |u| ensures Ends(u, i) {
      assert Ends(t, i);
      var n: nat :| After(t, i, n).None?;
      PutEnds(t, prev, cur, h, data, i, n);
    }
  }

  /** A walk that ended before either still ends, or passes over `prev` to `cur`. */
  lemma {:induction false} PutEnds<D>(t: Table<D>, prev: nat, cur: nat, h: nat, data: Option<D>, i: nat, n: nat)
    requires Puttable(t, prev, cur, h) && i < |t| && After(t, i, n).None?
    ensures Linked(Put(t, prev, cur, h, data))
    ensures prev == cur || !Reaches(t, i, prev) || Ends(Put(t, prev, cur, h, data), cur) ==>
              Ends(Put(t, prev, cur, h, data), i)
    decreases n
  {
    var u := Put(t, prev, cur, h, data);
    PutKeepsWalks(t, prev, cur, h, data, i, 0);
    assert After(t, i, 0) == Some(i);
    if t[i].next.None? {
      if i == prev && prev != cur {
        if Ends(u, cur) {
          var m: nat :| After(u, cur, m).None?;
          assert After(u, i, m + 1).None?;
        }
      } else {
        assert After(u, i, 1).None?;
      }
    } else {
      var k := t[i].next.value;
      PutEnds(t, prev, cur, h, data, k, n - 1);
      assert u[i].next == t[i].next;
      if Ends(u, k) {
        var m: nat :| After(u, k, m).None?;
        assert After(u, i, m + 1).None?;
      }
      if Reaches(t, k, prev) {
        var m: nat :| After(t, k, m) == Some(prev);
        assert After(t, i, m + 1) == Some(prev);
      }
    }
  }

  /** From a slot that comes back to itself, a walk never ends. */
  lemma {:induction false} LoopNeverEnds<D>(t: Table<D>, i: nat, len: nat, n: nat)
    requires Linked(t) && i < |t| && len > 0 && After(t, i, len) == Some(i)
    ensures After(t, i, n).Some?
    decreases n
  {
    if n <= len {
      if After(t, i, n).None? { EndedStays(t, i, n, len); }
    } else {
      LoopNeverEnds(t, i, len, n - len);
      AfterAdd(t, i, len, n - len);
    }
  }

  /** Appending a slot whose chain comes back to `prev` closes a loop. */
  lemma PutLoops<D>(t: Table<D>, prev: nat, cur: nat, h: nat, data: Option<D>)
    requires Puttable(t, prev, cur, h) && prev != cur && Reaches(t, cur, prev)
    ensures Linked(Put(t, prev, cur, h, data)) && !Ends(Put(t, prev, cur, h, data), prev)
  {
    var u := Put(t, prev, cur, h, data);
    var m: nat :| After(t, cur, m) == Some(prev);
    PutKeepsWalks(t, prev, cur, h, data, cur, m);
    assert After(u, prev, m + 1) == Some(prev);
    forall n: nat ensures After(u, prev, n).Some? { LoopNeverEnds(u, prev, m + 1, n); }
  }

  /**
   Exactly when an insertion keeps every chain ending: the slot it fills is the last slot of the
   chain itself, or it heads a chain that does not end at the slot being extended.
   */
  lemma PutAcyclicExactly<D>(t: Table<D>, prev: nat, cur: nat, h: nat, data: Option<D>)
    requires Puttable(t, prev, cur, h) && Acyclic(t)
    ensures Linked(Put(t, prev, cur, h, data))
    ensures Acyclic(Put(t, prev, cur, h, data)) <==> prev == cur || !Reaches(t, cur, prev)
  {
    if prev == cur || !Reaches(t, cur, prev) {
      PutAcyclic(t, prev, cur, h, data);
    } else {
      PutLoops(t, prev, cur, h, data);
    }
  }

  /** After a loop is closed, looking up any hash that is absent from the chain goes on for ever. */
  lemma PutLoopsLookup<D>(t: Table<D>, prev: nat, cur: nat, h: nat, data: Option<D>, g: nat)
    requires Puttable(t, prev, cur, h) && prev != cur && Reaches(t, cur, prev)
    requires Root(t, g) == Root(t, h) && g != 0 && g != h && !Holds(t, g)
    ensures Linked(Put(t, prev, cur, h, data)) && !Halts(Put(t, prev, cur, h, data), g)
  {
    var u := Put(t, prev, cur, h, data);
    PutLoops(t, prev, cur, h, data);
    var r := Root(t, g);
    var n: nat :| After(t, r, n) == Some(prev);
    PutKeepsWalks(t, prev, cur, h, data, r, n);
    if Ends(u, r) {
      var m: nat :| After(u, r, m).None?;
      EndedStays(u, r, m, n + m);
      AfterAdd(u, r, n, m);
    }
    assert forall j :: 0 <= j < |u| ==> u[j].hash == if j == cur then h else t[j].hash;
    AbsentLoops(u, g);
  }

  /** On a clean table every insertion is safe, and leaves the table clean. */
  lemma PutClean<D>(t: Table<D>, prev: nat, cur: nat, h: nat, data: Option<D>)
    requires Puttable(t, prev, cur, h) && FirstFree(t, prev, cur) && Acyclic(t) && Clean(t)
    ensures Clean(Put(t, prev, cur, h, data))
    ensures Linked(Put(t, prev, cur, h, data)) && Acyclic(Put(t, prev, cur, h, data))
  {
    if prev != cur {
      assert Between(|t|, prev, prev, cur);
      forall m: nat ensures After(t, cur, m) != Some(prev) {
      }
    }
    PutAcyclic(t, prev, cur, h, data);
  }

  // ---- removal ----

  function Vacated<D>(s: Slot<D>): Slot<D> {
    s.(hash := 0, data := None)
  }

  /** The entry at `i` taken out: at the end of a chain the slot is cut off, elsewhere its link stays. */
  function Take<D>(t: Table<D>, i: nat, prev: nat): Table<D>
    requires i < |t| && prev < |t|
  {
    if t[i].next.None? then
      var u := t[prev := t[prev].(next := None)];
      u[i := Slot(None, 0, None)]
    else t[i := Vacated(t[i])]
  }

  ghost predicate Takeable<D>(t: Table<D>, i: nat, prev: nat) {
    && Linked(t) && i < |t| && prev < |t| && t[i].hash != 0
    && (prev == i || t[prev].next == Some(i))
  }

  lemma {:induction false} TakeKeepsWalks<D>(t: Table<D>, i: nat, prev: nat, j: nat, n: nat)
    requires Takeable(t, i, prev) && j < |t| && After(t, j, n).Some? && After(t, j, n) != Some(i)
    ensures Linked(Take(t, i, prev)) && After(Take(t, i, prev), j, n) == After(t, j, n)
    decreases n
  {
    if n > 0 { TakeKeepsWalks(t, i, prev, t[j].next.value, n - 1); }
  }

  lemma {:induction false} TakeEnds<D>(t: Table<D>, i: nat, prev: nat, j: nat, n: nat)
    requires Takeable(t, i, prev) && j < |t| && After(t, j, n).None?
    ensures Linked(Take(t, i, prev)) && After(Take(t, i, prev), j, n).None?
    decreases n
  {
    if t[j].next.Some? { TakeEnds(t, i, prev, t[j].next.value, n - 1); }
  }

  lemma TakeFindable<D>(t: Table<D>, i: nat, prev: nat)
    requires Takeable(t, i, prev) && Findable(t)
    ensures Linked(Take(t, i, prev)) && Findable(Take(t, i, prev))
    ensures Live(Take(t, i, prev)) == Live(t) - {i}
  {
    var u := Take(t, i, prev);
    assert forall j :: 0 <= j < |t| ==> u[j].hash == if j == i then 0 else t[j].hash;
    forall j: nat | j < |u| && u[j].hash != 0 ensures Reaches(u, Root(u, u[j].hash), j) {
      var n: nat :| After(t, Root(t, t[j].hash), n) == Some(j);
      TakeKeepsWalks(t, i, prev, Root(t, t[j].hash), n);
    }
  }

  /**
   Removal takes exactly one hash out, and keeps every other entry findable and every chain
   ending, whatever tombstones and shared tails the table has.
   */
  lemma TakeKeeps<D>(t: Table<D>, i: nat, prev: nat)
    requires Takeable(t, i, prev) && DistinctHashes(t) && Findable(t)
    ensures var u := Take(t, i, prev);
            && Linked(u) && DistinctHashes(u) && Findable(u)
            && Contents(u) == Contents(t) - {t[i].hash}
            && Live(u) == Live(t) - {i}
            && (Acyclic(t) ==> Acyclic(u))
  {
    var u := Take(t, i, prev);
    TakeFindable(t, i, prev);
    if Acyclic(t) {
      forall j: nat | j < |u| ensures Ends(u, j) {
        assert Ends(t, j);
        var n: nat :| After(t, j, n).None?;
        TakeEnds(t, i, prev, j, n);
      }
    }
    TakeContents(t, i, prev);
  }

  lemma TakeContents<D>(t: Table<D>, i: nat, prev: nat)
    requires Takeable(t, i, prev) && DistinctHashes(t)
    ensures DistinctHashes(Take(t, i, prev))
    ensures Contents(Take(t, i, prev)) == Contents(t) - {t[i].hash}
  {
    var u := Take(t, i, prev);
    assert forall j :: 0 <= j < |t| ==> u[j].hash == if j == i then 0 else t[j].hash;
    var m := Contents(t) - {t[i].hash};
    forall j: nat | j < |u| && u[j].hash != 0 ensures u[j].hash in m && m[u[j].hash] == u[j].data {
      ContentsIs(t, j);
    }
    forall g | g in m ensures g != 0 && Holds(u, g) {
      ContentsAt(t, g);
      assert u[Where(t, g)].hash == g;
    }
    ContentsEqual(u, m);
  }

  // ---- counting ----

  lemma {:induction false} FullCount<D>(t: Table<D>, n: nat)
    requires n <= |t|
    requires forall i: nat :: i < n ==> t[i].hash != 0
    ensures |set i: nat | i < n && t[i].hash != 0| == n
  {
    if n > 0 {
      FullCount(t, n - 1);
      var s, s' := set i: nat | i < n && t[i].hash != 0, set i: nat | i < n - 1 && t[i].hash != 0;
      assert s == s' + {n - 1};
    }
  }

  /** Fewer entries than slots: a slot is free. */
  lemma SomeFree<D>(t: Table<D>) returns (f: nat)
    requires |Live(t)| < |t|
    ensures f < |t| && t[f].hash == 0
  {
    if forall i: nat :: i < |t| ==> t[i].hash != 0 { FullCount(t, |t|); }
    f :| f < |t| && t[f].hash == 0;
  }
}

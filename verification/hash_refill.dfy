/** Insertion and rehashing of the slot array as values: the table that the hybrid hash map goes on with. */
module HashRefill {
  import opened Options
  import opened HashTable

  /** Every entry can be found, and there is room for another one. */
  ghost predicate Whole<D>(t: Table<D>) {
    Linked(t) && DistinctHashes(t) && Findable(t) && |Live(t)| <= |t| * 3 / 4
  }

  /** Every chain ends, and no slot without an entry has a link. */
  ghost predicate Pristine<D>(t: Table<D>) {
    Whole(t) && Acyclic(t) && Clean(t)
  }

  function Bare<D>(n: nat): Table<D> {
    seq(n, _ => Slot(None, 0, None))
  }

  /** The first slot without an entry, going round from `start`. */
  ghost function Free<D>(t: Table<D>, start: nat): nat
    requires exists slot: nat :: FirstFree(t, start, slot)
  {
    var slot: nat :| FirstFree(t, start, slot);
    slot
  }

  /** The table after an insertion whose lookup ends, before it is seen whether it has grown too full. */
  ghost function Assigned<D>(t: Table<D>, h: nat, data: Option<D>): Table<D> {
    if !Linked(t) || !Halts(t, h) then t
    else
      match Lookup(t, h)
      case At(i, _) => if i < |t| then t[i := t[i].(data := data)] else t
      case Missing(prev) =>
        if exists slot: nat :: FirstFree(t, prev, slot) then Put(t, prev, Free(t, prev), h, data) else t
      case Lost => t
  }

  /** The entries of the first `i` slots of `t`, inserted one by one into `n` bare slots. */
  ghost function Filled<D>(t: Table<D>, i: nat, n: nat): Table<D>
    requires i <= |t|
  {
    if i == 0 then Bare(n)
    else
      var u := Filled(t, i - 1, n);
      if t[i - 1].hash == 0 then u else Assigned(u, t[i - 1].hash, t[i - 1].data)
  }

  /** The table after an insertion, rehashed to twice its size if it has grown too full. */
  ghost function Grown<D>(t: Table<D>, h: nat, data: Option<D>): Table<D> {
    var u := Assigned(t, h, data);
    if |Live(u)| > |u| * 3 / 4 then Filled(u, |u|, 2 * |u|) else u
  }

  /** The same as `Filled`, in a table that grows when `n` slots do not suffice. */
  ghost function Refilled<D>(t: Table<D>, i: nat, n: nat): Table<D>
    requires i <= |t|
  {
    if i == 0 then Bare(n)
    else
      var u := Refilled(t, i - 1, n);
      if t[i - 1].hash == 0 then u else Grown(u, t[i - 1].hash, t[i - 1].data)
  }

  // ---- one insertion ----

  lemma FreeIs<D>(t: Table<D>, start: nat, slot: nat)
    requires FirstFree(t, start, slot)
    ensures Free(t, start) == slot
  {
  }

  /** Probing goes on from `cur` to the first free slot; `f` is a free one ahead. */
  lemma {:induction false} ProbeOn<D>(t: Table<D>, start: nat, cur: nat, f: nat)
    requires start < |t| && cur < |t| && f < |t| && t[f].hash == 0
    requires if start <= f then start <= cur <= f else start <= cur || cur <= f
    requires forall i: nat :: i < |t| && Between(|t|, start, i, cur) ==> t[i].hash != 0
    ensures exists slot: nat :: FirstFree(t, start, slot)
    decreases if cur <= f then f - cur else f + |t| - cur
  {
    if t[cur].hash == 0 {
      assert FirstFree(t, start, cur);
    } else {
      ProbeOn(t, start, if cur + 1 == |t| then 0 else cur + 1, f);
    }
  }

  lemma FreeFound<D>(t: Table<D>, start: nat)
    requires start < |t| && |Live(t)| < |t|
    ensures exists slot: nat :: FirstFree(t, start, slot)
  {
    var f := SomeFree(t);
    ProbeOn(t, start, start, f);
  }

  /** The slot a new hash is put into, and what the table is then. */
  lemma AssignedMissing<D>(t: Table<D>, h: nat, data: Option<D>)
    requires Linked(t) && Findable(t) && |Live(t)| < |t| && h != 0 && Halts(t, h) && Lookup(t, h).Missing?
    ensures var prev := Lookup(t, h).prev;
            && (exists slot: nat :: FirstFree(t, prev, slot))
            && var cur := Free(t, prev);
               && FirstFree(t, prev, cur) && Puttable(t, prev, cur, h)
               && Assigned(t, h, data) == Put(t, prev, cur, h, data)
  {
    LookupMeans(t, h);
    FreeFound(t, Lookup(t, h).prev);
  }

  /** An insertion acts as on the finite map; a table without tombstones stays so, and its chains end. */
  lemma AssignedMeans<D>(t: Table<D>, h: nat, data: Option<D>)
    requires Linked(t) && DistinctHashes(t) && Findable(t) && |Live(t)| < |t| && h != 0 && Halts(t, h)
    ensures var u := Assigned(t, h, data);
            && |u| == |t| && Linked(u) && DistinctHashes(u) && Findable(u)
            && Contents(u) == Contents(t)[h := data]
            && |Live(u)| == |Live(t)| + (if h in Contents(t) then 0 else 1)
            && (Acyclic(t) && Clean(t) ==> Acyclic(u) && Clean(u))
  {
    LookupMeans(t, h);
    ContentsAt(t, h);
    match Lookup(t, h)
    case At(i, _) => Overwrite(t, i, data);
    case Missing(prev) =>
      AssignedMissing(t, h, data);
      var cur := Free(t, prev);
      PutContents(t, prev, cur, h, data);
      PutFindable(t, prev, cur, h, data);
      assert cur !in Live(t);
      if Acyclic(t) && Clean(t) { PutClean(t, prev, cur, h, data); }
  }

  // ---- rehashing ----

  lemma AbsentHalts<D>(t: Table<D>, h: nat)
    requires Linked(t) && Acyclic(t)
    ensures Halts(t, h)
  {
    assert Ends(t, Root(t, h));
    EndsHalts(t, h);
  }

  /** Into slots that suffice, the entries go as they are, and leave the rest of the table bare. */
  lemma {:induction false} FilledMeans<D>(t: Table<D>, i: nat, n: nat)
    requires DistinctHashes(t) && n > 0 && i <= |t| && |Live(t)| <= n * 3 / 4
    ensures var u := Filled(t, i, n);
            && Pristine(u) && |u| == n && Contents(u) == Contents(t[..i]) && |Live(u)| == |Live(t[..i])|
    decreases i
  {
    if i == 0 {
      Blank(Bare<D>(n));
      assert t[..0] == [];
    } else {
      var (u, slot) := (Filled(t, i - 1, n), t[i - 1]);
      FilledMeans(t, i - 1, n);
      Prefix(t, i - 1);
      if slot.hash != 0 {
        AbsentHalts(u, slot.hash);
        AssignedMeans(u, slot.hash, slot.data);
      }
    }
  }

  /** An insertion with its rehash acts as on the finite map, and leaves room. */
  lemma GrownMeans<D>(t: Table<D>, h: nat, data: Option<D>)
    requires Whole(t) && h != 0 && Halts(t, h)
    ensures var (u, grows) := (Grown(t, h, data), h !in Contents(t) && |Live(t)| == |t| * 3 / 4);
            && Whole(u) && Contents(u) == Contents(t)[h := data]
            && |Live(u)| == |Live(t)| + (if h in Contents(t) then 0 else 1)
            && (if grows then Pristine(u) && |u| == 2 * |t| else u == Assigned(t, h, data) && |u| == |t|)
            && (Pristine(t) ==> Pristine(u))
  {
    AssignedMeans(t, h, data);
    var u := Assigned(t, h, data);
    if |Live(u)| > |u| * 3 / 4 {
      FilledMeans(u, |u|, 2 * |u|);
      assert u[..|u|] == u;
    }
  }

  /** A rehash keeps the finite map; slots that suffice are not exceeded. */
  lemma {:induction false} RefilledMeans<D>(t: Table<D>, i: nat, n: nat)
    requires DistinctHashes(t) && n > 0 && i <= |t|
    ensures var u := Refilled(t, i, n);
            && Pristine(u) && |u| >= n && Contents(u) == Contents(t[..i]) && |Live(u)| == |Live(t[..i])|
            && (|Live(t)| <= n * 3 / 4 ==> |u| == n && u == Filled(t, i, n))
    decreases i
  {
    if i == 0 {
      Blank(Bare<D>(n));
      assert t[..0] == [];
    } else {
      var (u, slot) := (Refilled(t, i - 1, n), t[i - 1]);
      RefilledMeans(t, i - 1, n);
      Prefix(t, i - 1);
      if slot.hash != 0 {
        AbsentHalts(u, slot.hash);
        GrownMeans(u, slot.hash, slot.data);
      }
    }
  }

  /** The insertion and the rehash after it, one after the other. */
  lemma GrownIs<D>(t: Table<D>, h: nat, data: Option<D>)
    requires Whole(t) && h != 0 && Halts(t, h)
    ensures var u := Assigned(t, h, data);
            && DistinctHashes(u) && |Live(u)| <= |u| * 3 / 4 + 1 <= 2 * |u| * 3 / 4
            && Grown(t, h, data) == if |Live(u)| > |u| * 3 / 4 then Refilled(u, |u|, 2 * |u|) else u
  {
    var u := Assigned(t, h, data);
    AssignedMeans(t, h, data);
    RefilledMeans(u, |u|, 2 * |u|);
  }

  // ---- what the entries of a table are ----

  /** The contents of a prefix grow by one entry at a time. */
  lemma Prefix<D>(t: Table<D>, i: nat)
    requires DistinctHashes(t) && i < |t|
    ensures DistinctHashes(t[..i]) && DistinctHashes(t[..i + 1])
    ensures t[i].hash == 0 ==> Contents(t[..i + 1]) == Contents(t[..i]) && Live(t[..i + 1]) == Live(t[..i])
    ensures t[i].hash != 0 ==>
              && t[i].hash !in Contents(t[..i])
              && Contents(t[..i + 1]) == Contents(t[..i])[t[i].hash := t[i].data]
              && |Live(t[..i + 1])| == |Live(t[..i])| + 1 <= |Live(t)|
  {
    PrefixContents(t, i);
    PrefixLive(t, i);
  }

  lemma PrefixLive<D>(t: Table<D>, i: nat)
    requires i < |t|
    ensures t[i].hash == 0 ==> Live(t[..i + 1]) == Live(t[..i])
    ensures t[i].hash != 0 ==> |Live(t[..i + 1])| == |Live(t[..i])| + 1 <= |Live(t)|
  {
    var u, v := t[..i], t[..i + 1];
    if t[i].hash != 0 {
      assert Live(v) == Live(u) + {i};
      Subset(Live(v), Live(t));
    } else {
      assert Live(v) == Live(u);
    }
  }

  lemma PrefixContents<D>(t: Table<D>, i: nat)
    requires DistinctHashes(t) && i < |t|
    ensures t[i].hash == 0 ==> Contents(t[..i + 1]) == Contents(t[..i])
    ensures t[i].hash != 0 ==>
              && t[i].hash !in Contents(t[..i])
              && Contents(t[..i + 1]) == Contents(t[..i])[t[i].hash := t[i].data]
  {
    var u, v := t[..i], t[..i + 1];
    assert forall j: nat :: j < i ==> u[j] == t[j] == v[j];
    assert v[i] == t[i];
    ContentsAt(u, t[i].hash);
    var m := if t[i].hash == 0 then Contents(u) else Contents(u)[t[i].hash := t[i].data];
    forall j: nat | j < |v| && v[j].hash != 0 ensures v[j].hash in m && m[v[j].hash] == v[j].data {
      if j < i { ContentsIs(u, j); }
    }
    forall g | g in m ensures g != 0 && Holds(v, g) {
      ContentsAt(u, g);
      var j := if g == t[i].hash then i else Where(u, g);
      assert v[j].hash == g;
    }
    ContentsEqual(v, m);
  }

  lemma Subset(a: set<nat>, b: set<nat>)
    requires a <= b
    ensures |a| <= |b|
  {
    assert b == a + (b - a);
  }

  lemma Overwrite<D>(t: Table<D>, i: nat, data: Option<D>)
    requires Linked(t) && DistinctHashes(t) && i < |t| && t[i].hash != 0
    ensures var u := t[i := t[i].(data := data)];
            && Linked(u) && DistinctHashes(u) && Live(u) == Live(t)
            && Contents(u) == Contents(t)[t[i].hash := data]
            && (Findable(t) ==> Findable(u)) && (Acyclic(t) ==> Acyclic(u)) && (Clean(t) ==> Clean(u))
  {
    var u := t[i := t[i].(data := data)];
    assert forall j :: 0 <= j < |t| ==> u[j].hash == t[j].hash && u[j].next == t[j].next;
    SameLinks(t, u);
    var m := Contents(t)[t[i].hash := data];
    forall j: nat | j < |u| && u[j].hash != 0 ensures u[j].hash in m && m[u[j].hash] == u[j].data {
      ContentsIs(t, j);
    }
    forall g | g in m ensures g != 0 && Holds(u, g) {
      ContentsAt(t, g);
      var j := if g == t[i].hash then i else Where(t, g);
      assert u[j].hash == g;
    }
    ContentsEqual(u, m);
  }

  lemma SameLinks<D>(t: Table<D>, u: Table<D>)
    requires Linked(t) && |u| == |t| && forall j :: 0 <= j < |t| ==> u[j].hash == t[j].hash && u[j].next == t[j].next
    ensures Linked(u) && (Findable(t) ==> Findable(u)) && (Acyclic(t) ==> Acyclic(u))
  {
    forall i: nat, n: nat | i < |t| ensures After(u, i, n) == After(t, i, n) { SameWalk(t, u, i, n); }
    if Findable(t) {
      forall i: nat | i < |u| && u[i].hash != 0 ensures Reaches(u, Root(u, u[i].hash), i) {
        var n: nat :| After(t, Root(t, t[i].hash), n) == Some(i);
        assert After(u, Root(u, u[i].hash), n) == Some(i);
      }
    }
    if Acyclic(t) {
      forall i: nat | i < |u| ensures Ends(u, i) {
        assert Ends(t, i);
        var n: nat :| After(t, i, n).None?;
        assert After(u, i, n).None?;
      }
    }
  }

  lemma {:induction false} SameWalk<D>(t: Table<D>, u: Table<D>, i: nat, n: nat)
    requires Linked(t) && Linked(u) && i < |t|
    requires |u| == |t| && forall j :: 0 <= j < |t| ==> u[j].next == t[j].next
    ensures After(u, i, n) == After(t, i, n)
    decreases n
  {
    if n > 0 && t[i].next.Some? { SameWalk(t, u, t[i].next.value, n - 1); }
  }

  lemma Blank<D>(t: Table<D>)
    requires |t| > 0 && forall i :: 0 <= i < |t| ==> t[i] == Slot(None, 0, None)
    ensures Linked(t) && DistinctHashes(t) && Findable(t) && Acyclic(t) && Clean(t)
    ensures Contents(t) == map[] && Live(t) == {}
  {
    forall i: nat | i < |t| ensures Ends(t, i) {
      assert After(t, i, 1).None?;
    }
    ContentsEqual(t, map[]);
  }
}

/** The hybrid hash map itself: a slot array overwritten in place, and its rehashing. */
module HashMap {
  import opened Options
  import opened HashTable
  import opened HashRefill

  /** A map shrinks below a fifth, but not to fewer than 8 slots. */
  function ShrinkLimit(alloc: nat): nat {
    if alloc / 5 < 8 then 0 else alloc / 5
  }

  class HashMap<D> {
    var table: array<Slot<D>>
    var size: nat
    var alloc: nat
    var expandAt: nat
    var shrinkAt: nat

    /** The bookkeeping fits the table; nothing is said about its links. */
    ghost predicate Counted()
      reads this, table
    {
      && alloc == table.Length > 0
      && expandAt == alloc * 3 / 4 && size == |Live(table[..])|
      && (shrinkAt == 0 || (shrinkAt == alloc / 5 && shrinkAt >= 8))
      && DistinctHashes(table[..])
    }

    /** Every entry can be found. */
    ghost predicate Sound()
      reads this, table
    {
      Counted() && Whole(table[..])
    }

    ghost function Map(): map<nat, Option<D>>
      reads this, table
    {
      Contents(table[..])
    }

    constructor (prealloc: int)
      ensures Sound() && Pristine(table[..]) && Map() == map[] && fresh(table)
      ensures alloc >= 8 && alloc >= prealloc && (alloc == 8 || alloc / 2 < prealloc) && shrinkAt == 0
    {
      var initAlloc := 8;
      while initAlloc < prealloc
        invariant initAlloc >= 8 && (initAlloc == 8 || initAlloc / 2 < prealloc)
      {
        initAlloc := initAlloc * 2;
      }
      size, alloc := 0, initAlloc;
      table := new Slot<D>[initAlloc](_ => Slot(None, 0, None));
      expandAt := initAlloc * 3 / 4;
      shrinkAt := 0;
      new;
      Blank(table[..]);
    }

    /** The walk along a chain; `found` is the slot of the entry, `prev` the slot before it or the last one. */
    method LookupSlot(h: nat) returns (found: Option<nat>, prev: nat)
      requires Counted() && Linked(table[..]) && h != 0 && Halts(table[..], h)
      ensures match Lookup(table[..], h)
              case At(i, p) => found == Some(i) && prev == p
              case Missing(p) => found == None && prev == p
              case Lost => false
    {
      ghost var t := table[..];
      var idx := h % alloc;
      prev := idx;
      var current: Option<nat> := Some(idx);
      ghost var n: nat :| Seek(t, idx, idx, h, n) != Lost;
      LookupIs(t, h, n);
      ghost var left := n;
      while current != None
        invariant current.Some? ==> current.value < |t| && Seek(t, current.value, prev, h, left) == Lookup(t, h)
        invariant current.None? ==> Lookup(t, h) == Missing(prev)
        decreases current.Some?, left
      {
        if h == table[current.value].hash {
          break;
        }
        prev := current.value;
        current := table[current.value].next;
        if current.Some? { left := left - 1; }
      }
      found := current;
    }

    method RecomputeLimit()
      requires alloc == table.Length > 0
      modifies this`expandAt, this`shrinkAt
      ensures expandAt == alloc * 3 / 4 && shrinkAt == ShrinkLimit(alloc)
    {
      expandAt := alloc * 3 / 4;
      shrinkAt := alloc / 5;
      if shrinkAt < 8 {
        shrinkAt := 0;
      }
    }

    /** Linear probing from `start` for a slot without an entry. */
    method ProbeFree(start: nat) returns (cur: nat)
      requires Counted() && size < alloc && start < alloc
      ensures FirstFree(table[..], start, cur)
    {
      ghost var f := SomeFree(table[..]);
      cur := start;
      while table[cur].hash != 0
        invariant cur < alloc && (if start <= f then start <= cur <= f else start <= cur || cur <= f)
        invariant forall i: nat :: i < alloc && Between(alloc, start, i, cur) ==> table[i].hash != 0
        decreases if cur <= f then f - cur else f + alloc - cur
      {
        cur := cur + 1;
        if cur >= alloc {
          cur := cur - alloc;
        }
      }
    }

    /** A slot already there is overwritten, a new one filled; too full a table is rehashed. */
    method Insert(h: nat, data: Option<D>)
      requires Sound() && h != 0 && Halts(table[..], h)
      modifies this, table
      ensures Sound() && Map() == old(Map())[h := data] && (table == old(table) || fresh(table))
      ensures size == old(size) + if h in old(Map()) then 0 else 1
      ensures alloc == if h in old(Map()) || old(size < expandAt) then old(alloc) else 2 * old(alloc)
      ensures table[..] == Grown(old(table[..]), h, data)
      ensures old(Pristine(table[..])) || alloc != old(alloc) ==> Pristine(table[..])
      ensures shrinkAt == if alloc == old(alloc) then old(shrinkAt) else ShrinkLimit(alloc)
      decreases if size >= expandAt then 2 else 0, 2
    {
      ghost var t := table[..];
      GrownMeans(t, h, data);
      SoughtTakeable(t, h);
      var found, prev := LookupSlot(h);
      if found.Some? {
        SetData(found.value, data);
        assert table[..] == Assigned(t, h, data);
      } else {
        InsertAbsent(prev, h, data);
      }
    }

    method SetData(i: nat, data: Option<D>)
      requires Counted() && Linked(table[..]) && i < alloc && table[i].hash != 0
      modifies table
      ensures Counted() && table[..] == old(table[..])[i := old(table[i]).(data := data)]
    {
      ghost var t := table[..];
      Overwrite(t, i, data);
      table[i] := table[i].(data := data);
      assert table[..] == t[i := t[i].(data := data)];
    }

    /** Insertion at the end of the chain on which the hash was looked for. */
    method InsertAbsent(prev: nat, h: nat, data: Option<D>)
      requires Sound() && h != 0 && Halts(table[..], h) && Lookup(table[..], h) == Missing(prev)
      modifies this, table
      ensures Counted() && (table == old(table) || fresh(table))
      ensures table[..] == Grown(old(table[..]), h, data)
      ensures shrinkAt == if alloc == old(alloc) then old(shrinkAt) else ShrinkLimit(alloc)
      decreases if size >= expandAt then 2 else 0, 1
    {
      ghost var t := table[..];
      AssignedMissing(t, h, data);
      var cur := ProbeFree(prev);
      FreeIs(t, prev, cur);
      Fill(prev, cur, h, data);
      GrownIs(t, h, data);
      RehashExpand();
    }

    /** Doubles the table when it has grown too full. */
    method RehashExpand()
      requires Counted() && size <= 2 * alloc * 3 / 4
      modifies this
      ensures Counted() && (table == old(table) || fresh(table))
      ensures var u := old(table[..]); table[..] == if |Live(u)| > |u| * 3 / 4 then Refilled(u, |u|, 2 * |u|) else u
      ensures shrinkAt == if alloc == old(alloc) then old(shrinkAt) else ShrinkLimit(alloc)
      decreases if size > expandAt then 2 else 0, 0
    {
      if expandAt >= size {
        return;
      }
      RehashToSize(2 * alloc);
    }

    /** Puts a new entry into a slot and appends the slot to the chain that ends at `prev`. */
    method Fill(prev: nat, cur: nat, h: nat, data: Option<D>)
      requires Sound() && Puttable(table[..], prev, cur, h)
      modifies this`size, table
      ensures Counted() && size == old(size) + 1 && table[..] == Put(old(table[..]), prev, cur, h, data)
    {
      ghost var t := table[..];
      table[cur] := table[cur].(hash := h, data := data);
      size := size + 1;
      if prev != cur {
        table[prev] := table[prev].(next := Some(cur));
      }
      assert table[..] == Put(t, prev, cur, h, data);
      PutSlots(t, prev, cur, h, data);
      assert cur !in Live(t);
    }

    /** A new table without entries. */
    method Restart(newSize: nat)
      requires newSize > 0
      modifies this
      ensures Counted() && fresh(table) && table[..] == Bare(newSize) && shrinkAt == ShrinkLimit(alloc)
    {
      table := new Slot<D>[newSize](_ => Slot(None, 0, None));
      size := 0;
      alloc := newSize;
      RecomputeLimit();
      Blank(table[..]);
      assert table[..] == Bare(newSize);
    }

    /** Rebuilds the table in `newSize` slots, or more when these do not suffice; links are not looked at. */
    method RehashToSize(newSize: nat)
      requires alloc == table.Length && DistinctHashes(table[..]) && newSize > 0
      modifies this
      ensures Sound() && Pristine(table[..]) && Map() == old(Map()) && fresh(table)
      ensures table[..] == Refilled(old(table[..]), old(alloc), newSize)
      ensures size == |Live(old(table[..]))|
      ensures alloc >= newSize && (size <= newSize * 3 / 4 ==> alloc == newSize) && shrinkAt == ShrinkLimit(alloc)
      decreases if |Live(table[..])| <= newSize * 3 / 4 then 1 else 3
    {
      var oldAlloc, oldTable := alloc, table;
      ghost var t := table[..];
      Restart(newSize);
      for i := 0 to oldAlloc
        invariant Counted() && fresh(table) && table != oldTable && oldTable[..] == t
        invariant table[..] == Refilled(t, i, newSize) && shrinkAt == ShrinkLimit(alloc)
      {
        var elem := oldTable[i];
        if elem.hash == 0 {
          continue;
        }
        Insertable(t, i, newSize);
        Insert(elem.hash, elem.data);
      }
      RefilledMeans(t, oldAlloc, newSize);
      assert t[..oldAlloc] == t;
    }

    /** The data last inserted for a hash; None when there is none. */
    method Get(h: nat) returns (data: Option<D>)
      requires Sound() && h != 0 && Halts(table[..], h)
      ensures data == if h in Map() then Map()[h] else None
    {
      LookupMeans(table[..], h);
      ContentsAt(table[..], h);
      var found, prev := LookupSlot(h);
      if found.Some? {
        ContentsIs(table[..], found.value);
        return table[found.value].data;
      }
      return None;
    }

    method Remove(h: nat)
      requires Sound() && h != 0 && Halts(table[..], h)
      modifies this, table
      ensures Sound() && Map() == old(Map()) - {h} && (table == old(table) || fresh(table))
      ensures old(Acyclic(table[..])) ==> Acyclic(table[..])
      ensures match Lookup(old(table[..]), h)
              case At(i, p) =>
                i < old(alloc) && p < old(alloc) &&
                var u := Take(old(table[..]), i, p);
                if |Live(u)| < old(shrinkAt)
                then
                  && table[..] == Refilled(u, |u|, |u| / 2) && Pristine(table[..])
                  && shrinkAt == ShrinkLimit(alloc) && alloc == old(alloc) / 2
                else table[..] == u && shrinkAt == old(shrinkAt)
              case _ => table[..] == old(table[..]) && shrinkAt == old(shrinkAt)
    {
      SoughtTakeable(table[..], h);
      var result, prev := LookupSlot(h);
      if result == None {
        return;
      }
      Cut(result.value, prev);
      if size < shrinkAt {
        RehashToSize(alloc / 2);
      }
    }

    /** Takes one entry out of its slot, and cuts the slot off when it is the last of its chain. */
    method Cut(i: nat, prev: nat)
      requires Sound() && Takeable(table[..], i, prev)
      modifies this`size, table
      ensures Sound() && size == old(size) - 1 && table[..] == Take(old(table[..]), i, prev)
      ensures Map() == old(Map()) - {old(table[i].hash)}
      ensures old(Acyclic(table[..])) ==> Acyclic(table[..])
    {
      ghost var t := table[..];
      assert i in Live(t);
      if table[i].next == None {
        table[prev] := table[prev].(next := None);
        table[i] := Slot(None, 0, None);
      } else {
        table[i] := table[i].(hash := 0, data := None);
      }
      size := size - 1;
      assert table[..] == Take(t, i, prev);
      TakeKeeps(t, i, prev);
    }
  }

  /** In the middle of a rehash the next entry can be inserted; no table is expanded that has room for all. */
  lemma Insertable<D>(t: Table<D>, i: nat, n: nat)
    requires DistinctHashes(t) && n > 0 && i < |t| && t[i].hash != 0
    ensures var u := Refilled(t, i, n);
            && Whole(u) && Halts(u, t[i].hash)
            && (|Live(t)| <= n * 3 / 4 ==> |Live(u)| < |u| * 3 / 4)
  {
    RefilledMeans(t, i, n);
    Prefix(t, i);
    AbsentHalts(Refilled(t, i, n), t[i].hash);
  }

  /** The slot in which a lookup finds the hash can be emptied; without one the hash is not there. */
  lemma SoughtTakeable<D>(t: Table<D>, h: nat)
    requires Linked(t) && Findable(t) && h != 0 && Halts(t, h)
    ensures match Lookup(t, h)
            case At(i, p) => Takeable(t, i, p) && t[i].hash == h
            case Missing(_) => h !in Contents(t)
            case Lost => false
  {
    LookupMeans(t, h);
    ContentsAt(t, h);
  }
}

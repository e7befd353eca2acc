/** Runs of the hash map: they answer as a finite map does, and when their lookups keep ending. */
module HashRun {
  import opened Options
  import opened Division
  import opened HashTable
  import opened HashRefill
  import opened HashMap

  /** The slots of a map, and the size below which it shrinks. */
  datatype Store<D> = Store(t: Table<D>, shrinkAt: nat)

  datatype Op<D> =
    | Assign(h: nat, data: Option<D>)
    | Query(h: nat)
    | Discard(h: nat)
    | Rehash(newSize: nat)

  predicate Proper<D>(op: Op<D>) {
    if op.Rehash? then op.newSize > 0 else op.h != 0
  }

  /** What an operation does to the finite map, and what it answers. */
  function Effect<D>(m: map<nat, Option<D>>, op: Op<D>): map<nat, Option<D>> {
    match op
    case Assign(h, data) => m[h := data]
    case Discard(h) => m - {h}
    case _ => m
  }

  function Answer<D>(m: map<nat, Option<D>>, op: Op<D>): Option<D> {
    if op.Query? && op.h in m then m[op.h] else None
  }

  function Final<D>(m: map<nat, Option<D>>, ops: seq<Op<D>>): map<nat, Option<D>>
    decreases |ops|
  {
    if ops == [] then m else Final(Effect(m, ops[0]), ops[1..])
  }

  function Answers<D>(m: map<nat, Option<D>>, ops: seq<Op<D>>): seq<Option<D>>
    decreases |ops|
  {
    if ops == [] then [] else [Answer(m, ops[0])] + Answers(Effect(m, ops[0]), ops[1..])
  }

  // ---- how the slots change ----

  /** Every entry can be found, there is room, and the limits are those of the size. */
  ghost predicate Fit<D>(s: Store<D>) {
    Whole(s.t) && (s.shrinkAt == 0 || (s.shrinkAt == |s.t| / 5 && s.shrinkAt >= 8))
  }

  /** And every chain ends. */
  ghost predicate Usable<D>(s: Store<D>) {
    Fit(s) && Acyclic(s.t)
  }

  /** The operation comes to an end: its lookup does, or it makes none. */
  ghost predicate Ready<D>(s: Store<D>, op: Op<D>) {
    Linked(s.t) && (op.Rehash? || Halts(s.t, op.h))
  }

  ghost function Rehashed<D>(t: Table<D>, newSize: nat): Store<D> {
    var u := Refilled(t, |t|, newSize);
    Store(u, ShrinkLimit(|u|))
  }

  ghost function Shrunk<D>(u: Table<D>, shrinkAt: nat): Store<D> {
    if |Live(u)| < shrinkAt then Rehashed(u, |u| / 2) else Store(u, shrinkAt)
  }

  /** The slots after an operation that comes to an end. */
  ghost function Next<D>(s: Store<D>, op: Op<D>): Store<D> {
    match op
    case Query(_) => s
    case Rehash(newSize) => Rehashed(s.t, newSize)
    case Assign(h, data) =>
      var u := Grown(s.t, h, data);
      Store(u, if |u| == |s.t| then s.shrinkAt else ShrinkLimit(|u|))
    case Discard(h) =>
      if !Linked(s.t) || !Halts(s.t, h) then s
      else
        match Lookup(s.t, h)
        case At(i, p) => if i < |s.t| && p < |s.t| then Shrunk(Take(s.t, i, p), s.shrinkAt) else s
        case _ => s
  }

  /** The insertion fills a slot whose links lead to the end of the chain it extends. */
  ghost predicate Closes<D>(s: Store<D>, op: Op<D>) {
    && op.Assign? && Linked(s.t) && Halts(s.t, op.h) && |Live(s.t)| < |s.t| * 3 / 4
    && var sought := Lookup(s.t, op.h);
       sought.Missing? &&
       exists slot: nat ::
         FirstFree(s.t, sought.prev, slot) && slot != sought.prev && Reaches(s.t, slot, sought.prev)
  }

  lemma FirstFreeOnly<D>(t: Table<D>, start: nat, a: nat, b: nat)
    requires FirstFree(t, start, a) && FirstFree(t, start, b)
    ensures a == b
  {
  }

  /** An insertion that does not rehash keeps chains ending exactly when it closes no loop. */
  lemma AssignedAcyclic<D>(s: Store<D>, h: nat, data: Option<D>)
    requires Usable(s) && h != 0 && Halts(s.t, h) && |Live(s.t)| < |s.t| * 3 / 4
    ensures var u := Assigned(s.t, h, data); Linked(u) && (Acyclic(u) <==> !Closes(s, Assign(h, data)))
  {
    LookupMeans(s.t, h);
    match Lookup(s.t, h)
    case At(i, _) => Overwrite(s.t, i, data);
    case Missing(prev) =>
      AssignedMissing(s.t, h, data);
      var slot := Free(s.t, prev);
      PutAcyclicExactly(s.t, prev, slot, h, data);
      if Closes(s, Assign(h, data)) {
        var slot': nat :| FirstFree(s.t, prev, slot') && slot' != prev && Reaches(s.t, slot', prev);
        FirstFreeOnly(s.t, prev, slot, slot');
      }
  }

  lemma AssignKeeps<D>(s: Store<D>, h: nat, data: Option<D>)
    requires Fit(s) && h != 0 && Halts(s.t, h)
    ensures var u := Next(s, Assign(h, data));
            && Fit(u) && Contents(u.t) == Contents(s.t)[h := data]
            && (Acyclic(s.t) ==> (Acyclic(u.t) <==> !Closes(s, Assign(h, data))))
  {
    GrownMeans(s.t, h, data);
    LookupMeans(s.t, h);
    ContentsAt(s.t, h);
    if Acyclic(s.t) {
      if |Live(s.t)| < |s.t| * 3 / 4 {
        AssignedAcyclic(s, h, data);
      } else if h in Contents(s.t) {
        Overwrite(s.t, Lookup(s.t, h).i, data);
      }
    }
  }

  lemma RehashedKeeps<D>(t: Table<D>, newSize: nat)
    requires DistinctHashes(t) && newSize > 0
    ensures Usable(Rehashed(t, newSize)) && Contents(Rehashed(t, newSize).t) == Contents(t)
    ensures Clean(Rehashed(t, newSize).t) && |Rehashed(t, newSize).t| >= newSize
  {
    RefilledMeans(t, |t|, newSize);
    assert t[..|t|] == t;
  }

  lemma TakenKeeps<D>(s: Store<D>, i: nat, p: nat)
    requires Fit(s) && Takeable(s.t, i, p)
    ensures var u := Shrunk(Take(s.t, i, p), s.shrinkAt);
            && Fit(u) && Contents(u.t) == Contents(s.t) - {s.t[i].hash}
            && (Acyclic(s.t) ==> Acyclic(u.t))
  {
    var u := Take(s.t, i, p);
    TakeKeeps(s.t, i, p);
    Subset(Live(u), Live(s.t));
    if |Live(u)| < s.shrinkAt { RehashedKeeps(u, |u| / 2); }
  }

  lemma DiscardKeeps<D>(s: Store<D>, h: nat)
    requires Fit(s) && h != 0 && Halts(s.t, h)
    ensures var u := Next(s, Discard(h));
            Fit(u) && Contents(u.t) == Contents(s.t) - {h} && (Acyclic(s.t) ==> Acyclic(u.t))
  {
    SoughtTakeable(s.t, h);
    match Lookup(s.t, h)
    case At(i, p) => TakenKeeps(s, i, p);
    case Missing(_) =>
  }

  /** Every operation acts as on the finite map, and keeps chains ending exactly when it closes no loop. */
  lemma StepKeeps<D>(s: Store<D>, op: Op<D>)
    requires Fit(s) && Proper(op) && Ready(s, op)
    ensures Fit(Next(s, op)) && Contents(Next(s, op).t) == Effect(Contents(s.t), op)
    ensures Usable(s) ==> (Usable(Next(s, op)) <==> !Closes(s, op))
    ensures op.Rehash? ==> Usable(Next(s, op)) && Clean(Next(s, op).t) && |Next(s, op).t| >= op.newSize
  {
    match op
    case Query(_) =>
    case Rehash(newSize) => RehashedKeeps(s.t, newSize);
    case Assign(h, data) => AssignKeeps(s, h, data);
    case Discard(h) => DiscardKeeps(s, h);
  }

  /** All chains end exactly when all lookups do. */
  lemma AcyclicIsHalting<D>(t: Table<D>)
    requires Linked(t)
    ensures Acyclic(t) <==> forall h: nat :: h != 0 ==> Halts(t, h)
  {
    if Acyclic(t) {
      forall h: nat | h != 0 ensures Halts(t, h) {
        assert Ends(t, Root(t, h));
        EndsHalts(t, h);
      }
    } else {
      var i: nat :| i < |t| && !Ends(t, i);
      var h := AbsentHash(t, i);
      AbsentLoops(t, h);
    }
  }

  /** There are hashes for every root slot that no slot holds. */
  lemma AbsentHash<D>(t: Table<D>, i: nat) returns (h: nat)
    requires i < |t|
    ensures h != 0 && Root(t, h) == i && forall j :: 0 <= j < |t| ==> t[j].hash != h
  {
    var m := Above(t);
    h := |t| * m + i;
    Scaled(m, |t|);
    Remainder(m, i, |t|);
  }

  /** A positive number above all hashes. */
  lemma {:induction false} Above<D>(t: Table<D>) returns (m: nat)
    ensures m > 0 && forall j :: 0 <= j < |t| ==> t[j].hash < m
  {
    if t == [] {
      m := 1;
    } else {
      var n := |t| - 1;
      m := Above(t[..n]);
      assert forall j :: 0 <= j < n ==> t[..n][j] == t[j];
      m := if t[n].hash < m then m else t[n].hash + 1;
    }
  }

  // ---- runs ----

  /** The slots after all operations. */
  ghost function Reached<D>(s: Store<D>, ops: seq<Op<D>>): Store<D>
    decreases |ops|
  {
    if ops == [] then s else Reached(Next(s, ops[0]), ops[1..])
  }

  /** Every operation of the run comes to an end. */
  ghost predicate Halting<D>(s: Store<D>, ops: seq<Op<D>>)
    decreases |ops|
  {
    ops != [] ==> Ready(s, ops[0]) && Halting(Next(s, ops[0]), ops[1..])
  }

  /** No insertion of the run closes a loop. */
  ghost predicate Safe<D>(s: Store<D>, ops: seq<Op<D>>)
    decreases |ops|
  {
    ops != [] ==> !Closes(s, ops[0]) && Safe(Next(s, ops[0]), ops[1..])
  }

  lemma UsableIsReady<D>(s: Store<D>, op: Op<D>)
    requires Usable(s) && Proper(op)
    ensures Ready(s, op)
  {
    AcyclicIsHalting(s.t);
  }

  /** A run that closes no loop comes to an end. */
  lemma {:induction false} SafeHalts<D>(s: Store<D>, ops: seq<Op<D>>)
    requires Usable(s) && Safe(s, ops) && forall op :: op in ops ==> Proper(op)
    ensures Halting(s, ops) && Usable(Reached(s, ops))
    decreases |ops|
  {
    if ops != [] {
      UsableIsReady(s, ops[0]);
      StepKeeps(s, ops[0]);
      SafeHalts(Next(s, ops[0]), ops[1..]);
    }
  }

  /** Every lookup would come to an end. */
  ghost predicate Ending<D>(t: Table<D>) {
    Linked(t) && forall h: nat :: h != 0 ==> Halts(t, h)
  }

  /** A run closes no loop exactly when at every point of it all lookups would come to an end. */
  lemma {:induction false} SafeExactly<D>(s: Store<D>, ops: seq<Op<D>>)
    requires Usable(s) && forall op :: op in ops ==> Proper(op)
    ensures Safe(s, ops) <==> forall i: nat :: i <= |ops| ==> Ending(Reached(s, ops[..i]).t)
    decreases |ops|
  {
    AcyclicIsHalting(s.t);
    assert Reached(s, ops[..0]) == s;
    if ops != [] {
      var u := Next(s, ops[0]);
      UsableIsReady(s, ops[0]);
      StepKeeps(s, ops[0]);
      forall i: nat | i <= |ops| - 1 ensures Reached(s, ops[..i + 1]) == Reached(u, ops[1..][..i]) {
        assert ops[..i + 1][1..] == ops[1..][..i];
      }
      if Closes(s, ops[0]) {
        AcyclicIsHalting(u.t);
        assert Reached(s, ops[..0 + 1]) == Reached(u, ops[1..][..0]) == u;
      } else {
        SafeExactly(u, ops[1..]);
        assert forall i: nat :: 0 < i <= |ops| ==> Reached(s, ops[..i]) == Reached(u, ops[1..][..i - 1]);
        assert forall i: nat :: i <= |ops| - 1 ==> Reached(u, ops[1..][..i]) == Reached(s, ops[..i + 1]);
      }
    }
  }

  /** Runs without removals are safe from tables without tombstones. */
  lemma {:induction false} CleanIsSafe<D>(s: Store<D>, ops: seq<Op<D>>)
    requires Usable(s) && Clean(s.t) && forall op :: op in ops ==> Proper(op) && !op.Discard?
    ensures Safe(s, ops)
    decreases |ops|
  {
    if ops != [] {
      CleanClosesNone(s, ops[0]);
      UsableIsReady(s, ops[0]);
      StepKeeps(s, ops[0]);
      CleanStays(s, ops[0]);
      CleanIsSafe(Next(s, ops[0]), ops[1..]);
    }
  }

  lemma CleanClosesNone<D>(s: Store<D>, op: Op<D>)
    requires Usable(s) && Clean(s.t) && Proper(op)
    ensures !Closes(s, op)
  {
    if Closes(s, op) {
      LookupMeans(s.t, op.h);
      var prev := Lookup(s.t, op.h).prev;
      var slot: nat :| FirstFree(s.t, prev, slot) && slot != prev && Reaches(s.t, slot, prev);
      PutClean(s.t, prev, slot, op.h, None);
      PutAcyclicExactly(s.t, prev, slot, op.h, None);
    }
  }

  lemma CleanStays<D>(s: Store<D>, op: Op<D>)
    requires Usable(s) && Clean(s.t) && Proper(op) && !op.Discard?
    ensures Clean(Next(s, op).t)
  {
    match op
    case Query(_) =>
    case Rehash(newSize) => RehashedKeeps(s.t, newSize);
    case Assign(h, data) =>
      UsableIsReady(s, op);
      GrownMeans(s.t, h, data);
  }

  // ---- the map itself ----

  ghost function StoreOf<D>(m: HashMap<D>): Store<D>
    reads m, m.table
  {
    Store(m.table[..], m.shrinkAt)
  }

  method DoAssign<D>(m: HashMap<D>, h: nat, data: Option<D>)
    requires m.Sound() && h != 0 && Halts(m.table[..], h)
    modifies m, m.table
    ensures m.Sound() && (m.table == old(m.table) || fresh(m.table))
    ensures StoreOf(m) == Next(old(StoreOf(m)), Assign(h, data))
  {
    m.Insert(h, data);
  }

  method DoDiscard<D>(m: HashMap<D>, h: nat)
    requires m.Sound() && h != 0 && Halts(m.table[..], h)
    modifies m, m.table
    ensures m.Sound() && (m.table == old(m.table) || fresh(m.table))
    ensures StoreOf(m) == Next(old(StoreOf(m)), Discard(h))
  {
    m.Remove(h);
  }

  /** One operation that comes to an end; the slots are then those described. */
  method Perform<D>(m: HashMap<D>, op: Op<D>) returns (answer: Option<D>)
    requires m.Sound() && Proper(op) && Ready(StoreOf(m), op)
    modifies m, m.table
    ensures m.Sound() && (m.table == old(m.table) || fresh(m.table))
    ensures StoreOf(m) == Next(old(StoreOf(m)), op)
    ensures m.Map() == Effect(old(m.Map()), op) && answer == Answer(old(m.Map()), op)
    ensures op.Query? ==> answer == if op.h in m.Map() then m.Map()[op.h] else None
  {
    answer := None;
    StepKeeps(StoreOf(m), op);
    match op {
      case Assign(h, data) => DoAssign(m, h, data);
      case Query(h) => answer := m.Get(h);
      case Discard(h) => DoDiscard(m, h);
      case Rehash(newSize) => m.RehashToSize(newSize);
    }
  }

  /**
   Every run whose operations come to an end answers as the finite map does, through removals,
   tombstones, rehashes and even closed loops. A run that closes no loop is one, and chains still
   end after it.
   */
  method Execute<D>(m: HashMap<D>, ops: seq<Op<D>>) returns (answers: seq<Option<D>>)
    requires m.Sound() && Halting(StoreOf(m), ops) && forall op :: op in ops ==> Proper(op)
    modifies m, m.table
    ensures m.Sound() && StoreOf(m) == Reached(old(StoreOf(m)), ops)
    ensures m.Map() == Final(old(m.Map()), ops) && answers == Answers(old(m.Map()), ops)
    ensures old(Acyclic(m.table[..]) && Safe(StoreOf(m), ops)) ==> Acyclic(m.table[..])
    ensures m.table == old(m.table) || fresh(m.table)
    decreases |ops|
  {
    if ops == [] {
      return [];
    }
    StepKeeps(StoreOf(m), ops[0]);
    var answer := Perform(m, ops[0]);
    var rest := Execute(m, ops[1..]);
    answers := [answer] + rest;
  }
}

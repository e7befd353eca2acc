/** The growable vector of integers of a fixed width. */
module Vector {
  import opened Division

  function Power(bits: nat): (r: int)
    ensures r >= 1
  {
    if bits == 0 then 1 else 2 * Power(bits - 1)
  }

  /** The value of a signed integer of `size` bytes that is assigned `v`. */
  function Wrap(v: int, size: nat): int {
    var n := Power(8 * size);
    var low := v % n;
    if low < n / 2 then low else low - n
  }

  /** A value is stored as it is exactly when it fits the width, and congruent values are stored alike. */
  lemma WrapExactly(v: int, u: int, size: nat)
    requires size > 0
    ensures Wrap(v, size) == v <==> -Power(8 * size - 1) <= v < Power(8 * size - 1)
    ensures Wrap(v, size) == Wrap(u, size) <==> (v - u) % Power(8 * size) == 0
  {
    var n, half := Power(8 * size), Power(8 * size - 1);
    assert n == 2 * half;
    Congruent(v, u, n);
    if -half <= v < 0 { Remainder(-1, v + n, n); }
    if 0 <= v < half { Remainder(0, v, n); }
  }

  lemma Congruent(v: int, u: int, n: int)
    requires n > 0
    ensures v % n == u % n <==> (v - u) % n == 0
  {
    var (k, d) := (v / n - u / n, v % n - u % n);
    assert v - u == n * k + d;
    if d >= 0 {
      Remainder(k, d, n);
    } else {
      assert n * k + d == n * (k - 1) + (d + n);
      Remainder(k - 1, d + n, n);
    }
  }

  /** What a client does to a vector. */
  datatype Op = Push(v: int) | PushAt(i: nat, v: int) | Pop | PopAt(i: nat)

  /** The places an operation names are there. */
  predicate Legal(s: seq<int>, op: Op) {
    (op.PushAt? ==> op.i <= |s|) && (op.PopAt? ==> op.i < |s|)
  }

  function Effect(s: seq<int>, op: Op, size: nat): seq<int>
    requires Legal(s, op)
  {
    match op
    case Push(v) => s + [Wrap(v, size)]
    case PushAt(i, v) => s[..i] + [Wrap(v, size)] + s[i..]
    case Pop => if s == [] then [] else s[..|s| - 1]
    case PopAt(i) => s[..i] + s[i + 1..]
  }

  ghost predicate AllLegal(s: seq<int>, ops: seq<Op>, size: nat)
    decreases |ops|
  {
    ops != [] ==> Legal(s, ops[0]) && AllLegal(Effect(s, ops[0], size), ops[1..], size)
  }

  ghost function Final(s: seq<int>, ops: seq<Op>, size: nat): seq<int>
    requires AllLegal(s, ops, size)
    decreases |ops|
  {
    if ops == [] then s else Final(Effect(s, ops[0], size), ops[1..], size)
  }

  /** What the elements have paid for the next reallocation. */
  ghost function Credit(count: nat, alloc: nat): nat {
    Max(0, Max(4 * alloc - 8 * count, 2 * count - alloc))
  }

  function Max(a: int, b: int): int {
    if a < b then b else a
  }

  /** Doubling is paid for by two credits an insertion, halving by eight credits a removal. */
  lemma CreditPays(count: nat, alloc: nat)
    requires 4 <= alloc && count <= alloc
    ensures count < alloc ==> Credit(count + 1, alloc) <= Credit(count, alloc) + 2
    ensures alloc + Credit(alloc + 1, 2 * alloc) <= Credit(alloc, alloc) + 2
    ensures count > 0 ==> Credit(count - 1, alloc) <= Credit(count, alloc) + 8
    ensures count > 0 && 5 * (count - 1) <= 2 * alloc && (count - 1) / 2 >= 4 ==>
              alloc / 2 + Credit(count - 1, alloc / 2) <= Credit(count, alloc) + 8
  {
  }

  lemma Inserted(s: seq<int>, i: nat, x: int, r: seq<int>)
    requires i <= |s| && |r| == |s| + 1 && r[i] == x
    requires forall k :: 0 <= k < i ==> r[k] == s[k]
    requires forall k :: i <= k < |s| ==> r[k + 1] == s[k]
    ensures r == s[..i] + [x] + s[i..]
  {
    var t := s[..i] + [x] + s[i..];
    forall k | 0 <= k < |r| ensures r[k] == t[k] {
      if k > i {
        var j := k - 1;
        assert r[j + 1] == s[j];
      }
    }
  }

  lemma Deleted(s: seq<int>, i: nat, r: seq<int>)
    requires i < |s| && |r| == |s| - 1
    requires forall k :: 0 <= k < i ==> r[k] == s[k]
    requires forall k :: i <= k < |r| ==> r[k] == s[k + 1]
    ensures r == s[..i] + s[i + 1..]
  {
  }

  class Vec {
    var data: array<int>
    var count: nat
    var alloc: nat
    const size: nat        // bytes an element takes
    ghost var copied: nat  // elements copied by all reallocations

    ghost predicate Valid()
      reads this
    {
      size in {1, 2, 4, 8} && count <= alloc == data.Length && 4 <= alloc
    }

    ghost function Contents(): seq<int>
      requires Valid()
      reads this, data
    {
      data[..count]
    }

    /** Fewer than four elements are never reserved. */
    constructor (size: nat, reserved: int)
      requires size in {1, 2, 4, 8}
      ensures Valid() && fresh(data) && this.size == size && Contents() == [] && copied == 0
      ensures alloc == if reserved < 4 then 4 else reserved
    {
      var n: nat := if reserved < 4 then 4 else reserved;
      this.size, count, alloc, copied := size, 0, n, 0;
      data := new int[n](_ => 0);
    }

    /** The elements stay, in a new buffer of another size. */
    method Reallocate(newAlloc: nat)
      requires size in {1, 2, 4, 8} && data.Length == alloc && 4 <= newAlloc
      modifies this`data, this`alloc, this`copied
      ensures fresh(data) && data.Length == alloc == newAlloc
      ensures forall i :: 0 <= i < old(alloc) && i < newAlloc ==> data[i] == old(data[i])
      ensures copied == old(copied) + if newAlloc < old(alloc) then newAlloc else old(alloc)
    {
      var old_data := data;
      copied := copied + if newAlloc < alloc then newAlloc else alloc;
      data := new int[newAlloc](
        i requires 0 <= i reads this, old_data => if i < old_data.Length then old_data[i] else 0);
      alloc := newAlloc;
    }

    method CheckExpand()
      requires Valid()
      modifies this`data, this`count, this`alloc, this`copied
      ensures Valid() && (data == old(data) || fresh(data))
      ensures count == old(count) + 1 && data[..old(count)] == old(Contents())
      ensures alloc == if old(count) < old(alloc) then old(alloc) else 2 * old(alloc)
      ensures copied + Credit(count, alloc) <= old(copied + Credit(count, alloc)) + 2
    {
      CreditPays(count, alloc);
      count := count + 1;
      if count > alloc {
        Reallocate(alloc * 2);
      }
    }

    /** At most two fifths in use: the buffer is halved, unless that would be a small one. */
    method CheckShrink()
      requires Valid()
      modifies this`data, this`alloc, this`copied
      ensures Valid() && Contents() == old(Contents()) && (data == old(data) || fresh(data))
      ensures alloc == if 5 * count > 2 * old(alloc) || count / 2 < 4 then old(alloc) else old(alloc) / 2
      ensures copied == old(copied) + if alloc == old(alloc) then 0 else alloc
    {
      if 5 * count > 2 * alloc {
        return;
      }
      if count / 2 < 4 {
        return;
      }
      Reallocate(alloc / 2);
    }

    method Push(v: int)
      requires Valid()
      modifies this, data
      ensures Valid() && (data == old(data) || fresh(data))
      ensures Contents() == old(Contents()) + [Wrap(v, size)]
      ensures copied + Credit(count, alloc) <= old(copied + Credit(count, alloc)) + 8
    {
      CheckExpand();
      data[count - 1] := Wrap(v, size);
    }

    method PushAt(i: nat, v: int)
      requires Valid() && i <= count
      modifies this, data
      ensures Valid() && (data == old(data) || fresh(data))
      ensures Contents() == old(Contents())[..i] + [Wrap(v, size)] + old(Contents())[i..]
      ensures copied + Credit(count, alloc) <= old(copied + Credit(count, alloc)) + 8
    {
      ghost var s := Contents();
      CheckExpand();
      assert forall k :: 0 <= k < count - 1 ==> data[k] == data[..count - 1][k] == s[k];
      MoveUp(i, count - 1, s);
      data[i] := Wrap(v, size);
      ghost var r := Contents();
      assert forall k :: i <= k < |s| ==> r[k + 1] == s[k];
      Inserted(s, i, Wrap(v, size), r);
    }

    /** The elements from `i` on move up by one place. */
    method MoveUp(i: nat, n: nat, ghost s: seq<int>)
      requires i <= n < data.Length && |s| == n && forall k :: 0 <= k < n ==> data[k] == s[k]
      modifies data
      ensures forall k :: 0 <= k < i ==> data[k] == s[k]
      ensures forall k :: i <= k < n ==> data[k + 1] == s[k]
    {
      forall k | i <= k < n {
        data[k + 1] := data[k];
      }
    }

    method Pop()
      requires Valid()
      modifies this, data
      ensures Valid() && (data == old(data) || fresh(data))
      ensures Contents() == old(if count == 0 then [] else Contents()[..count - 1])
      ensures copied + Credit(count, alloc) <= old(copied + Credit(count, alloc)) + 8
    {
      if count == 0 {
        return;
      }
      CreditPays(count, alloc);
      ghost var s := Contents();
      count := count - 1;
      assert Contents() == s[..count];
      CheckShrink();
    }

    method PopAt(i: nat)
      requires Valid() && i < count
      modifies this, data
      ensures Valid() && (data == old(data) || fresh(data))
      ensures Contents() == old(Contents())[..i] + old(Contents())[i + 1..]
      ensures copied + Credit(count, alloc) <= old(copied + Credit(count, alloc)) + 8
    {
      CreditPays(count, alloc);
      ghost var s := Contents();
      count := count - 1;
      MoveDown(i, count, s);
      Deleted(s, i, Contents());
      CheckShrink();
    }

    /** The elements behind `i` move down by one place. */
    method MoveDown(i: nat, n: nat, ghost s: seq<int>)
      requires i <= n < data.Length && s == data[..n + 1]
      modifies data
      ensures forall k :: 0 <= k < i ==> data[k] == s[k]
      ensures forall k :: i <= k < n ==> data[k] == s[k + 1]
    {
      assert forall k :: 0 <= k <= n ==> data[k] == s[k];
      forall k | i <= k < n {
        data[k] := data[k + 1];
      }
    }

    method At(i: nat) returns (v: int)
      requires Valid() && i < count
      ensures v == Contents()[i]
    {
      v := data[i];
    }

    /** The first place of a value, compared at the width of the elements; -1 when there is none. */
    method Find(v: int) returns (r: int)
      requires Valid()
      ensures r == -1 <==> Wrap(v, size) !in Contents()
      ensures r != -1 ==> 0 <= r < count && Contents()[r] == Wrap(v, size) && Wrap(v, size) !in Contents()[..r]
    {
      for i := 0 to count
        invariant Wrap(v, size) !in data[..i]
      {
        if data[i] == Wrap(v, size) {
          assert Contents()[i] == Wrap(v, size) && Contents()[..i] == data[..i];
          return i;
        }
      }
      return -1;
    }
  }

  method Perform(vec: Vec, op: Op)
    requires vec.Valid() && Legal(vec.Contents(), op)
    modifies vec, vec.data
    ensures vec.Valid() && (vec.data == old(vec.data) || fresh(vec.data))
    ensures vec.Contents() == Effect(old(vec.Contents()), op, vec.size)
    ensures vec.copied + Credit(vec.count, vec.alloc) <= old(vec.copied + Credit(vec.count, vec.alloc)) + 8
  {
    match op {
      case Push(v) => vec.Push(v);
      case PushAt(i, v) => vec.PushAt(i, v);
      case Pop => vec.Pop();
      case PopAt(i) => vec.PopAt(i);
    }
  }

  /**
   In every run the vector is the sequence that the operations describe, and all reallocations
   together copy at most eight elements an operation, and four times the first buffer.
   */
  method Execute(vec: Vec, ops: seq<Op>)
    requires vec.Valid() && AllLegal(vec.Contents(), ops, vec.size)
    modifies vec, vec.data
    ensures vec.Valid() && vec.Contents() == Final(old(vec.Contents()), ops, vec.size)
    ensures vec.copied <= old(vec.copied) + 8 * |ops| + 4 * old(vec.alloc)
  {
    for i := 0 to |ops|
      invariant vec.Valid() && (vec.data == old(vec.data) || fresh(vec.data))
      invariant AllLegal(vec.Contents(), ops[i..], vec.size)
      invariant Final(old(vec.Contents()), ops, vec.size) == Final(vec.Contents(), ops[i..], vec.size)
      invariant vec.copied + Credit(vec.count, vec.alloc) <= old(vec.copied + Credit(vec.count, vec.alloc)) + 8 * i
    {
      assert ops[i..][0] == ops[i] && ops[i..][1..] == ops[i + 1..];
      Perform(vec, ops[i]);
    }
  }
}

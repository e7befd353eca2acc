/**
 The shape shared by the heap of BSP nodes and by the values it stands for: a binary tree
 whose inner nodes carry an `A`, whose leaves carry an `L` and the container they display.
 */
module BspTree {
  import opened Lists

  datatype Side = Left | Right

  datatype Tree<A, L, C> =
    | Leaf(p: L, c: C)
    | Inner(a: A, l: Tree<A, L, C>, r: Tree<A, L, C>)

  /**
   A tree with one subtree missing, from the hole upward: the missing subtree is the `side`
   child of a node carrying `a`, next to `sib`, and that node fills the hole of `up`.
   */
  datatype Ctx<A, L, C> =
    | Top
    | In(side: Side, a: A, sib: Tree<A, L, C>, up: Ctx<A, L, C>)

  function Join<A, L, C>(side: Side, a: A, t: Tree<A, L, C>, sib: Tree<A, L, C>): Tree<A, L, C> {
    if side.Left? then Inner(a, t, sib) else Inner(a, sib, t)
  }

  function Plug<A, L, C>(k: Ctx<A, L, C>, t: Tree<A, L, C>): Tree<A, L, C> {
    match k
    case Top => t
    case In(side, a, sib, up) => Plug(up, Join(side, a, t, sib))
  }

  /** The containers from left to right. */
  function Leaves<A, L, C>(t: Tree<A, L, C>): seq<C> {
    match t
    case Leaf(_, c) => [c]
    case Inner(_, l, r) => Leaves(l) + Leaves(r)
  }

  function Before<A, L, C>(k: Ctx<A, L, C>): seq<C> {
    match k
    case Top => []
    case In(side, _, sib, up) => Before(up) + if side.Right? then Leaves(sib) else []
  }

  function After<A, L, C>(k: Ctx<A, L, C>): seq<C> {
    match k
    case Top => []
    case In(side, _, sib, up) => (if side.Left? then Leaves(sib) else []) + After(up)
  }

  /** The leaf reached by always going toward `side`. */
  function Outermost<A, L, C>(t: Tree<A, L, C>, side: Side): C {
    match t
    case Leaf(_, c) => c
    case Inner(_, l, r) => Outermost(if side.Left? then l else r, side)
  }

  lemma {:induction false} LeavesOfPlug<A, L, C>(k: Ctx<A, L, C>, t: Tree<A, L, C>)
    ensures Leaves(Plug(k, t)) == Before(k) + Leaves(t) + After(k)
  {
    match k
    case Top =>
    case In(side, a, sib, up) =>
      LeavesOfPlug(up, Join(side, a, t, sib));
  }

  lemma {:induction false} OutermostIsEnd<A, L, C>(t: Tree<A, L, C>, side: Side)
    ensures |Leaves(t)| > 0
    ensures Outermost(t, side) == if side.Left? then Leaves(t)[0] else Leaves(t)[|Leaves(t)| - 1]
  {
    match t
    case Leaf(_, _) =>
    case Inner(_, l, r) =>
      OutermostIsEnd(l, side);
      OutermostIsEnd(r, side);
  }

  /** The surroundings of the leaf that displays `c` in `t`, itself placed in `k`. */
  ghost function LocateIn<A, L, C>(k: Ctx<A, L, C>, t: Tree<A, L, C>, c: C): Ctx<A, L, C>
    requires c in Leaves(t)
    decreases t
  {
    match t
    case Leaf(_, _) => k
    case Inner(a, l, r) =>
      if c in Leaves(l) then LocateIn(In(Left, a, r, k), l, c)
      else LocateIn(In(Right, a, l, k), r, c)
  }

  ghost function Locate<A, L, C>(t: Tree<A, L, C>, c: C): Ctx<A, L, C>
    requires c in Leaves(t)
  {
    LocateIn(Top, t, c)
  }

  ghost function LeafOf<A, L, C>(t: Tree<A, L, C>, c: C): Tree<A, L, C>
    requires c in Leaves(t)
  {
    match t
    case Leaf(_, _) => t
    case Inner(_, l, r) => if c in Leaves(l) then LeafOf(l, c) else LeafOf(r, c)
  }

  lemma {:induction false} LocateInPlugs<A, L, C>(k: Ctx<A, L, C>, t: Tree<A, L, C>, c: C)
    requires c in Leaves(t)
    ensures LeafOf(t, c).Leaf? && LeafOf(t, c).c == c
    ensures Plug(LocateIn(k, t, c), LeafOf(t, c)) == Plug(k, t)
    decreases t
  {
    match t
    case Leaf(_, _) =>
    case Inner(a, l, r) =>
      if c in Leaves(l) {
        LocateInPlugs(In(Left, a, r, k), l, c);
      } else {
        LocateInPlugs(In(Right, a, l, k), r, c);
      }
  }

  /** Every container of a tree is found, and the tree is its leaf put back where it was. */
  lemma LocatePlugs<A, L, C>(t: Tree<A, L, C>, c: C)
    requires c in Leaves(t)
    ensures LeafOf(t, c).Leaf? && LeafOf(t, c).c == c
    ensures Plug(Locate(t, c), LeafOf(t, c)) == t
  {
    LocateInPlugs(Top, t, c);
  }

  /** With no container displayed twice, a leaf has only one place in a tree. */
  lemma LocateIsUnique<A, L, C>(k: Ctx<A, L, C>, leaf: Tree<A, L, C>)
    requires leaf.Leaf? && Distinct(Leaves(Plug(k, leaf)))
    ensures leaf.c in Leaves(Plug(k, leaf))
    ensures Locate(Plug(k, leaf), leaf.c) == k && LeafOf(Plug(k, leaf), leaf.c) == leaf
  {
    LeavesOfPlug(k, leaf);
    var all, n := Leaves(Plug(k, leaf)), |Before(k)|;
    assert all[n] == leaf.c;
    assert forall i :: 0 <= i < n ==> Before(k)[i] == all[i];
    assert forall i :: 0 <= i < |After(k)| ==> After(k)[i] == all[n + 1 + i];
    LocateInPlug(k, leaf, leaf.c);
  }

  /** Looking for `c` in a plugged tree descends to the hole when `c` is only below the hole. */
  lemma {:induction false} LocateInPlug<A, L, C>(k: Ctx<A, L, C>, t: Tree<A, L, C>, c: C)
    requires c in Leaves(t) && c !in Before(k) && c !in After(k)
    ensures c in Leaves(Plug(k, t))
    ensures LocateIn(Top, Plug(k, t), c) == LocateIn(k, t, c)
    ensures LeafOf(Plug(k, t), c) == LeafOf(t, c)
  {
    match k
    case Top =>
    case In(side, a, sib, up) =>
      LocateInPlug(up, Join(side, a, t, sib), c);
  }
}

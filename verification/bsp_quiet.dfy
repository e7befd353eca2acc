/** Changes of a tree that are not followed by a layout, and when none is needed. */
module BspQuiet {
  import opened Geometry
  import opened BspTree
  import opened BspLayout
  import opened BspOps
  import opened BspRuns

  /** The sibling of a removed node has the box of the place it takes, and the node beside it keeps its own. */
  predicate Snug<C>(k: ViewCtx<C>, area: Box)
    requires k.In?
  {
    match k.up
    case Top =>
      if k.sib.Leaf? then k.sib.p.enabled && k.sib.p.allowed ==> k.sib.p.box == area
      else k.sib.a.box == area
    case In(side, a, sib, up) =>
      var grandparent := Join(side, a, k.sib, sib);
      Looked(up, a.enabled) ==> Joint(a, grandparent.l, grandparent.r)
  }

  /** After a removal without layout everything visible is in place exactly when the parts fit as they are. */
  lemma RemovedInPlace<C>(k: ViewCtx<C>, t: View<C>, area: Box)
    requires k.In? && Flags(Plug(k, t), false) && InPlace(Plug(k, t), area, true)
    ensures InPlace(Remove(k, false, true).t, area, true) <==> Snug(k, area)
  {
    FlagsOfPlug(k, t, false);
    match k.up
    case Top =>
      assert Plug(k, t) == Join(k.side, k.a, t, k.sib);
      if Enabled(k.sib) { assert Settled(k.sib, true); }
    case In(side, a, sib, up) =>
      var (was, now) := (Join(side, a, Join(k.side, k.a, t, k.sib), sib), Join(side, a, k.sib, sib));
      assert Plug(k, t) == Plug(up, was);
      PlugBox(up, was, now);
      SettledReplacing(up, was, now, true);
  }

  /** The removal of a hidden leaf needs no layout, if its sibling is shown or its parent hidden too. */
  lemma HiddenIsSnug<C>(k: ViewCtx<C>, t: View<C>, area: Box)
    requires k.In? && Flags(Plug(k, t), false) && InPlace(Plug(k, t), area, true)
    requires !Enabled(t) && (Enabled(k.sib) || (if k.up.Top? then k.sib.Leaf? else !k.a.enabled))
    ensures Snug(k, area)
  {
    FlagsOfPlug(k, t, false);
    var parent := Join(k.side, k.a, t, k.sib);
    assert Plug(k, t) == Plug(k.up, parent);
    PlugBox(k.up, parent, parent);
    SettledReplacing(k.up, parent, parent, true);
    match k.up
    case Top =>
    case In(side, a, sib, up) =>
      var was := Join(side, a, parent, sib);
      assert Plug(k, t) == Plug(up, was);
      PlugBox(up, was, was);
      SettledReplacing(up, was, was, true);
  }

  /** The factor of the n-th ancestor set. */
  function Dragged<C>(k: ViewCtx<C>, n: nat, fact: real): ViewCtx<C> {
    match k
    case Top => Top
    case In(side, a, sib, up) =>
      if n == 0 then In(side, a.(fact := fact), sib, up) else In(side, a, sib, Dragged(up, n - 1, fact))
  }

  /** The surroundings of the n-th ancestor's child. */
  function UpBy<C>(k: ViewCtx<C>, n: nat): ViewCtx<C> {
    if n == 0 || k.Top? then k else UpBy(k.up, n - 1)
  }

  /** It is the factor of that ancestor, and of no other one, and nothing else changes. */
  lemma {:induction false} DraggedExactly<C>(k: ViewCtx<C>, n: nat, fact: real, m: nat)
    ensures var (was, now) := (UpBy(k, m), UpBy(Dragged(k, n, fact), m));
            && (now.In? <==> was.In?)
            && (was.In? ==> now.side == was.side && now.sib == was.sib)
            && (was.In? ==> now.a == if m == n then was.a.(fact := fact) else was.a)
  {
    if k.In? {
      if m > 0 && n > 0 {
        DraggedExactly(k.up, n - 1, fact, m - 1);
      }
    }
  }

  /** The factor that is set is that of the parent. */
  lemma FactorIsDragged<C>(k: ViewCtx<C>, t: View<C>, fact: real)
    ensures SetFactor(k, t, fact) == Plug(Dragged(k, 0, Clamp(fact)), t)
  {
  }

  /** The n-th ancestor gives its children the boxes they have, with the new factor too. */
  predicate FitsStill<C>(k: ViewCtx<C>, t: View<C>, n: nat, fact: real)
    decreases k
  {
    match k
    case Top => true
    case In(side, a, sib, up) =>
      var parent := Join(side, a, t, sib);
      if n == 0 then Looked(up, a.enabled) ==> Joint(a.(fact := fact), parent.l, parent.r)
      else FitsStill(up, parent, n - 1, fact)
  }

  lemma {:induction false} DraggedInPlace<C>(k: ViewCtx<C>, t: View<C>, n: nat, fact: real, area: Box)
    requires InPlace(Plug(k, t), area, true)
    ensures InPlace(Plug(Dragged(k, n, fact), t), area, true) <==> FitsStill(k, t, n, fact)
    decreases k
  {
    match k
    case Top =>
    case In(side, a, sib, up) =>
      if n == 0 {
        var (was, now) := (Join(side, a, t, sib), Join(side, a.(fact := fact), t, sib));
        PlugBox(up, was, now);
        SettledReplacing(up, was, now, true);
      } else {
        DraggedInPlace(up, Join(side, a, t, sib), n - 1, fact, area);
      }
  }

  /** Nothing but one factor changes. */
  lemma {:induction false} DraggedKeeps<C>(k: ViewCtx<C>, t: View<C>, n: nat, fact: real)
    requires Fraction(fact)
    ensures Leaves(Plug(Dragged(k, n, fact), t)) == Leaves(Plug(k, t))
    ensures FactorsOk(Plug(k, t)) ==> FactorsOk(Plug(Dragged(k, n, fact), t))
    ensures Flags(Plug(Dragged(k, n, fact), t), true) <==> Flags(Plug(k, t), true)
    ensures Flags(Plug(Dragged(k, n, fact), t), false) <==> Flags(Plug(k, t), false)
    decreases k
  {
    match k
    case Top =>
    case In(side, a, sib, up) =>
      if n == 0 {
        var (was, now) := (Join(side, a, t, sib), Join(side, a.(fact := fact), t, sib));
        LeavesOfPlug(up, was);
        LeavesOfPlug(up, now);
        FlagsOfPlug(up, was, true);
        FlagsOfPlug(up, now, true);
        FlagsOfPlug(up, was, false);
        FlagsOfPlug(up, now, false);
        if FactorsOk(Plug(k, t)) { FactorsOfPlug(up, was, now); }
      } else {
        DraggedKeeps(up, Join(side, a, t, sib), n - 1, fact);
      }
  }
}

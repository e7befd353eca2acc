/** What laying a BSP tree out computes, and what the result looks like on the screen. */
module BspLayout {
  import opened Geometry
  import opened BspTree

  datatype Orient = Horizontal | Vertical

  /** An inner node: `orient` and `fact` divide its box between its children. */
  datatype Cut = Cut(enabled: bool, box: Box, orient: Orient, fact: real)

  /**
   A leaf node and the window in it: `allowed` when the container accepts tiled geometry,
   `floating` when it is floating; `win` is the last box the container was given.
   */
  datatype Pane = Pane(enabled: bool, box: Box, allowed: bool, floating: bool, win: Box)

  type View<C> = Tree<Cut, Pane, C>
  type ViewCtx<C> = Ctx<Cut, Pane, C>

  predicate Enabled<C>(t: View<C>) {
    match t
    case Leaf(p, _) => p.enabled
    case Inner(a, _, _) => a.enabled
  }

  function BoxOf<C>(t: View<C>): Box {
    match t
    case Leaf(p, _) => p.box
    case Inner(a, _, _) => a.box
  }

  predicate FactorsOk<C>(t: View<C>) {
    t.Inner? ==> Fraction(t.a.fact) && FactorsOk(t.l) && FactorsOk(t.r)
  }

  // ---- layout ----

  /** The two halves of `b` before disabled children are taken into account. */
  function Halves(b: Box, orient: Orient, fact: real): (Box, Box) {
    match orient
    case Horizontal =>
      var w := Scale(b.width, fact);
      (Box(b.x, b.y, w, b.height), Box(b.x + w, b.y, b.width - w, b.height))
    case Vertical =>
      var h := Scale(b.height, fact);
      (Box(b.x, b.y, b.width, h), Box(b.x, b.y + h, b.width, b.height - h))
  }

  /** The boxes given to the children of a node: a child next to a disabled one takes all. */
  function Shares(b: Box, orient: Orient, fact: real, left: bool, right: bool): (Box, Box) {
    var (lb, rb) := Halves(b, orient, fact);
    (if right then lb else b, if left then rb else b)
  }

  function Configure(p: Pane, b: Box, shown: bool): Pane {
    if p.allowed && !p.floating && shown then p.(box := b, win := b) else p.(box := b)
  }

  /**
   A child that is given the box `b`; only below an enabled node is the layout continued.
   `shown` says that the current tag of the output is in BSP mode.
   */
  function Place<C>(t: View<C>, b: Box, shown: bool): View<C>
    decreases t
  {
    match t
    case Leaf(p, c) =>
      Leaf(if p.enabled then Configure(p, b, shown) else p.(box := b), c)
    case Inner(a, l, r) =>
      if !a.enabled then
        Inner(a.(box := b), l, r)
      else
        var (lb, rb) := Shares(b, a.orient, a.fact, Enabled(l), Enabled(r));
        Inner(a.(box := b), Place(l, lb, shown), Place(r, rb, shown))
  }

  /** Layout below an inner node that keeps its own box. */
  function Update<C>(t: View<C>, shown: bool): View<C>
    requires t.Inner?
  {
    var (lb, rb) := Shares(t.a.box, t.a.orient, t.a.fact, Enabled(t.l), Enabled(t.r));
    Inner(t.a, Place(t.l, lb, shown), Place(t.r, rb, shown))
  }

  /** Layout of a whole tree in the usable area of its output. */
  function UpdateRoot<C>(t: View<C>, area: Box, shown: bool): View<C> {
    match t
    case Leaf(p, c) => if p.allowed then Leaf(Configure(p, area, shown), c) else t
    case Inner(a, l, r) => Update(Inner(a.(box := area), l, r), shown)
  }

  // ---- what is visible ----

  /** How many visible leaves own the pixel: enabled leaves below enabled nodes only. */
  function Owners<C>(t: View<C>, px: int, py: int): nat {
    match t
    case Leaf(p, _) => One(p.enabled && p.box.Has(px, py))
    case Inner(a, l, r) => if a.enabled then Owners(l, px, py) + Owners(r, px, py) else 0
  }

  /** How many visible inner nodes without an enabled child cover the pixel. */
  function Holes<C>(t: View<C>, px: int, py: int): nat {
    match t
    case Leaf(_, _) => 0
    case Inner(a, l, r) =>
      if !a.enabled then 0
      else if !Enabled(l) && !Enabled(r) then One(a.box.Has(px, py))
      else Holes(l, px, py) + Holes(r, px, py)
  }

  /** Every enabled inner node has an enabled child. */
  predicate NoStaleNode<C>(t: View<C>) {
    t.Inner? ==>
      && (t.a.enabled ==> Enabled(t.l) || Enabled(t.r))
      && NoStaleNode(t.l)
      && NoStaleNode(t.r)
  }

  /** The visible leaves from left to right, with node box and window box. */
  function Picture<C>(t: View<C>): seq<(C, Box, Box)> {
    match t
    case Leaf(p, c) => if p.enabled then [(c, p.box, p.win)] else []
    case Inner(a, l, r) => if a.enabled then Picture(l) + Picture(r) else []
  }

  /** Both children of a box of non-negative size have one, and share out its pixels. */
  lemma SharesPartition(b: Box, orient: Orient, fact: real, left: bool, right: bool, px: int, py: int)
    requires b.width >= 0 && b.height >= 0 && Fraction(fact)
    ensures var (lb, rb) := Shares(b, orient, fact, left, right);
            && lb.width >= 0 && lb.height >= 0 && rb.width >= 0 && rb.height >= 0
            && (left || right ==>
                  One(left && lb.Has(px, py)) + One(right && rb.Has(px, py)) == One(b.Has(px, py)))
  {
    ScaleBounded(b.width, fact);
    ScaleBounded(b.height, fact);
  }

  /**
   Conservation of pixels: after a layout, a pixel of the box is either in exactly one visible
   leaf or in exactly one visible node whose children are all disabled; other pixels in none.
   */
  lemma {:induction false} PlaceConserves<C>(t: View<C>, b: Box, shown: bool, px: int, py: int)
    requires b.width >= 0 && b.height >= 0 && FactorsOk(t)
    ensures var t' := Place(t, b, shown);
            Owners(t', px, py) + Holes(t', px, py) == One(Enabled(t) && b.Has(px, py))
  {
    match t
    case Leaf(_, _) =>
    case Inner(a, l, r) =>
      if a.enabled {
        var (lb, rb) := Shares(b, a.orient, a.fact, Enabled(l), Enabled(r));
        SharesPartition(b, a.orient, a.fact, Enabled(l), Enabled(r), px, py);
        PlaceConserves(l, lb, shown, px, py);
        PlaceConserves(r, rb, shown, px, py);
        PlaceKeepsFlag(l, lb, shown);
        PlaceKeepsFlag(r, rb, shown);
      }
  }

  lemma PlaceKeepsFlag<C>(t: View<C>, b: Box, shown: bool)
    ensures Enabled(Place(t, b, shown)) == Enabled(t) && BoxOf(Place(t, b, shown)) == b
    ensures Place(t, b, shown).Leaf? == t.Leaf?
  {
  }

  lemma {:induction false} NoStaleNodeNoHole<C>(t: View<C>, px: int, py: int)
    requires NoStaleNode(t)
    ensures Holes(t, px, py) == 0
  {
    match t
    case Leaf(_, _) =>
    case Inner(_, l, r) =>
      NoStaleNodeNoHole(l, px, py);
      NoStaleNodeNoHole(r, px, py);
  }

  function Covering<C>(picture: seq<(C, Box, Box)>, px: int, py: int): nat {
    if picture == [] then 0
    else One(picture[0].1.Has(px, py)) + Covering(picture[1..], px, py)
  }

  lemma {:induction false} CoveringConcat<C>(s: seq<(C, Box, Box)>, u: seq<(C, Box, Box)>, px: int, py: int)
    ensures Covering(s + u, px, py) == Covering(s, px, py) + Covering(u, px, py)
  {
    if s == [] {
      assert s + u == u;
    } else {
      assert (s + u)[1..] == s[1..] + u;
      CoveringConcat(s[1..], u, px, py);
    }
  }

  lemma {:induction false} OwnersAreCovering<C>(t: View<C>, px: int, py: int)
    ensures Owners(t, px, py) == Covering(Picture(t), px, py)
  {
    match t
    case Leaf(_, _) =>
    case Inner(_, l, r) =>
      OwnersAreCovering(l, px, py);
      OwnersAreCovering(r, px, py);
      CoveringConcat(Picture(l), Picture(r), px, py);
  }

  predicate OwnedAt<C>(picture: seq<(C, Box, Box)>, i: int, px: int, py: int) {
    && 0 <= i < |picture|
    && forall j :: 0 <= j < |picture| ==> (picture[j].1.Has(px, py) <==> j == i)
  }

  /** Exactly one of the boxes has the pixel. */
  ghost predicate OwnedOnce<C>(picture: seq<(C, Box, Box)>, px: int, py: int) {
    exists i :: OwnedAt(picture, i, px, py)
  }

  lemma {:induction false} CoveringNone<C>(picture: seq<(C, Box, Box)>, px: int, py: int)
    ensures Covering(picture, px, py) == 0 <==>
            forall j :: 0 <= j < |picture| ==> !picture[j].1.Has(px, py)
  {
    if picture != [] {
      var rest := picture[1..];
      assert forall j :: 1 <= j < |picture| ==> picture[j] == rest[j - 1];
      CoveringNone(rest, px, py);
    }
  }

  lemma {:induction false} CoveringOnce<C>(picture: seq<(C, Box, Box)>, px: int, py: int)
    requires Covering(picture, px, py) == 1
    ensures OwnedOnce(picture, px, py)
  {
    var rest := picture[1..];
    assert forall j :: 1 <= j < |picture| ==> picture[j] == rest[j - 1];
    if picture[0].1.Has(px, py) {
      CoveringNone(rest, px, py);
      assert OwnedAt(picture, 0, px, py);
    } else {
      CoveringOnce(rest, px, py);
      var i :| OwnedAt(rest, i, px, py);
      assert OwnedAt(picture, i + 1, px, py);
    }
  }

  lemma CoveringAtOnce<C>(picture: seq<(C, Box, Box)>, px: int, py: int)
    ensures Covering(picture, px, py) == 0 ==> !OwnedOnce(picture, px, py)
  {
    CoveringNone(picture, px, py);
    if OwnedOnce(picture, px, py) {
      var i :| OwnedAt(picture, i, px, py);
      assert picture[i].1.Has(px, py);
    }
  }

  /** A root leaf that does not accept tiled geometry keeps the box it has. */
  predicate Stubborn<C>(t: View<C>, px: int, py: int) {
    t.Leaf? && !t.p.allowed && !t.p.box.Has(px, py)
  }

  /**
   Exact tiling of the usable area by a root update, for any tree. A tree whose root is disabled
   covers nothing. Otherwise a pixel of the area is covered by exactly one visible leaf if and
   only if no visible node without an enabled child covers it and the tree is not a single leaf
   that stays elsewhere; and a pixel outside only by a single leaf that stays there.
   */
  lemma RootUpdateTiles<C>(t: View<C>, area: Box, shown: bool, px: int, py: int)
    requires area.width >= 0 && area.height >= 0 && FactorsOk(t)
    ensures var t' := UpdateRoot(t, area, shown);
            && (!Enabled(t) ==> Owners(t', px, py) == 0)
            && (!area.Has(px, py) && Owners(t', px, py) > 0 ==> t.Leaf? && !t.p.allowed && t.p.box.Has(px, py))
            && (Enabled(t) && area.Has(px, py) ==>
                  (OwnedOnce(Picture(t'), px, py) <==> Holes(t', px, py) == 0 && !Stubborn(t, px, py)))
            && (NoStaleNode(t) ==> Holes(t', px, py) == 0)
  {
    var t' := UpdateRoot(t, area, shown);
    OwnersAreCovering(t', px, py);
    CoveringAtOnce(Picture(t'), px, py);
    if Owners(t', px, py) == 1 { CoveringOnce(Picture(t'), px, py); }
    if t.Inner? && t.a.enabled {
      assert t' == Place(t, area, shown);
      PlaceConserves(t, area, shown, px, py);
    }
    if NoStaleNode(t) {
      if t.Inner? {
        UpdateErases(Inner(t.a.(box := area), t.l, t.r), shown);
        StaleErase(Inner(t.a.(box := area), t.l, t.r));
      }
      StaleErase(t');
      NoStaleNodeNoHole(t', px, py);
    }
  }

  // ---- what a layout cannot change ----

  const ORIGIN := Box(0, 0, 0, 0)

  /** The tree without its geometry: shape, containers, flags, orientations and factors. */
  function Erase<C>(t: View<C>): View<C> {
    match t
    case Leaf(p, c) => Leaf(p.(box := ORIGIN, win := ORIGIN), c)
    case Inner(a, l, r) => Inner(a.(box := ORIGIN), Erase(l), Erase(r))
  }

  lemma {:induction false} PlaceErases<C>(t: View<C>, b: Box, shown: bool)
    ensures Erase(Place(t, b, shown)) == Erase(t)
    decreases t
  {
    match t
    case Leaf(_, _) =>
    case Inner(a, l, r) =>
      var (lb, rb) := Shares(b, a.orient, a.fact, Enabled(l), Enabled(r));
      PlaceErases(l, lb, shown);
      PlaceErases(r, rb, shown);
  }

  lemma UpdateErases<C>(t: View<C>, shown: bool)
    requires t.Inner?
    ensures Erase(Update(t, shown)) == Erase(t)
  {
    var (lb, rb) := Shares(t.a.box, t.a.orient, t.a.fact, Enabled(t.l), Enabled(t.r));
    PlaceErases(t.l, lb, shown);
    PlaceErases(t.r, rb, shown);
  }

  lemma {:induction false} StaleErase<C>(t: View<C>)
    ensures NoStaleNode(Erase(t)) == NoStaleNode(t) && Enabled(Erase(t)) == Enabled(t)
  {
    match t
    case Leaf(_, _) =>
    case Inner(_, l, r) =>
      StaleErase(l);
      StaleErase(r);
  }

  // ---- agreement with a full layout ----

  /** Below a node with the right box, everything visible is where a full layout puts it. */
  predicate Settled<C>(t: View<C>, shown: bool)
    decreases t
  {
    match t
    case Leaf(p, _) => p.allowed && !p.floating && shown ==> p.win == p.box
    case Inner(a, l, r) =>
      var (lb, rb) := Shares(a.box, a.orient, a.fact, Enabled(l), Enabled(r));
      && (Enabled(l) ==> BoxOf(l) == lb && Settled(l, shown))
      && (Enabled(r) ==> BoxOf(r) == rb && Settled(r, shown))
  }

  lemma {:induction false} PlaceSettles<C>(t: View<C>, b: Box, shown: bool)
    requires Enabled(t)
    ensures Settled(Place(t, b, shown), shown)
    decreases t
  {
    match t
    case Leaf(_, _) =>
    case Inner(a, l, r) =>
      var (lb, rb) := Shares(b, a.orient, a.fact, Enabled(l), Enabled(r));
      PlaceKeepsFlag(l, lb, shown);
      PlaceKeepsFlag(r, rb, shown);
      if Enabled(l) { PlaceSettles(l, lb, shown); }
      if Enabled(r) { PlaceSettles(r, rb, shown); }
  }

  lemma UpdateSettles<C>(t: View<C>, shown: bool)
    requires t.Inner?
    ensures Settled(Update(t, shown), shown)
    ensures Update(t, shown).Inner? && Update(t, shown).a == t.a
  {
    var (lb, rb) := Shares(t.a.box, t.a.orient, t.a.fact, Enabled(t.l), Enabled(t.r));
    PlaceKeepsFlag(t.l, lb, shown);
    PlaceKeepsFlag(t.r, rb, shown);
    if Enabled(t.l) { PlaceSettles(t.l, lb, shown); }
    if Enabled(t.r) { PlaceSettles(t.r, rb, shown); }
  }

  /** On a settled tree a further layout with the same box changes nothing on the screen. */
  lemma {:induction false} SettledIsFixed<C>(t: View<C>, shown: bool)
    requires Settled(t, shown)
    ensures Picture(Place(t, BoxOf(t), shown)) == Picture(t)
    decreases t
  {
    match t
    case Leaf(_, _) =>
    case Inner(a, l, r) =>
      if Enabled(l) { SettledIsFixed(l, shown); }
      if Enabled(r) { SettledIsFixed(r, shown); }
  }

  /**
   What is settled is determined by the shape and the box alone: two settled trees that differ
   only in geometry, and agree on the box at the top, show the same leaves in the same boxes.
   */
  lemma {:induction false} SettledIsUnique<C>(t: View<C>, u: View<C>, shown: bool)
    requires Erase(t) == Erase(u) && BoxOf(t) == BoxOf(u)
    requires Settled(t, shown) && Settled(u, shown)
    ensures |Picture(t)| == |Picture(u)|
    ensures forall i :: 0 <= i < |Picture(t)| ==>
              Picture(t)[i].0 == Picture(u)[i].0 && Picture(t)[i].1 == Picture(u)[i].1
    decreases t
  {
    EraseKeeps(t);
    EraseKeeps(u);
    match t
    case Leaf(_, _) =>
    case Inner(a, l, r) =>
      EraseKeeps(l); EraseKeeps(r); EraseKeeps(u.l); EraseKeeps(u.r);
      if Enabled(l) { SettledIsUnique(l, u.l, shown); }
      if Enabled(r) { SettledIsUnique(r, u.r, shown); }
      PictureNeedsFlag(l); PictureNeedsFlag(r); PictureNeedsFlag(u.l); PictureNeedsFlag(u.r);
  }

  lemma EraseKeeps<C>(t: View<C>)
    ensures Enabled(Erase(t)) == Enabled(t) && Erase(t).Leaf? == t.Leaf?
  {
  }

  lemma PictureNeedsFlag<C>(t: View<C>)
    ensures !Enabled(t) ==> Picture(t) == []
  {
  }
}

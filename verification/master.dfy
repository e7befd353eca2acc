/** The master/stack layout: a column of masters, and the other windows in columns beside it. */
module Master {
  import opened Geometry

  function Sum(ws: seq<real>): (r: real) {
    if ws == [] then 0.0 else Sum(ws[..|ws| - 1]) + ws[|ws| - 1]
  }

  function Total(ns: seq<nat>): nat {
    if ns == [] then 0 else Total(ns[..|ns| - 1]) + ns[|ns| - 1]
  }

  predicate Positive(ws: seq<real>) {
    forall i :: 0 <= i < |ws| ==> ws[i] > 0.0
  }

  /**
   The boxes of a column stand on each other from top to bottom of the area; all but the last
   have the height that is due to their weight, and none is upside down.
   */
  ghost predicate IsColumn(bs: seq<Box>, ws: seq<real>, x: int, width: int, area: Box) {
    && |bs| == |ws| > 0
    && (forall i :: 0 <= i < |bs| ==> bs[i].x == x && bs[i].width == width && bs[i].height >= 0)
    && bs[0].y == area.y
    && (forall i :: 0 <= i < |bs| - 1 ==> bs[i].y + bs[i].height == bs[i + 1].y)
    && bs[|bs| - 1].y + bs[|bs| - 1].height == area.y + area.height
    && (forall i {:trigger Fair(bs, ws, i, area.height)} :: 0 <= i < |bs| - 1 ==> Fair(bs, ws, i, area.height))
  }

  /** A window has the height that is due to its weight. */
  ghost predicate Fair(bs: seq<Box>, ws: seq<real>, i: int, height: int) {
    0 <= i < |bs| <= |ws| && Sum(ws) > 0.0 && bs[i].height == Due(height, ws[i], Sum(ws))
  }

  /** Where `n` columns from `x` on end. */
  function Right(x: int, n: nat, width: int): int {
    if n == 0 then x else Right(x, n - 1, width) + width
  }

  lemma {:induction false} RightIs(x: int, n: nat, width: int)
    ensures Right(x, n, width) == x + n * width
    decreases n
  {
    if n > 0 {
      RightIs(x, n - 1, width);
      assert n * width == (n - 1) * width + width;
    }
  }

  /** Neighbouring columns, from `x` on. */
  ghost predicate AreColumns(cols: seq<seq<Box>>, parts: seq<seq<real>>, x: int, width: int, area: Box) {
    |cols| == |parts| && forall c :: 0 <= c < |cols| ==> IsColumn(cols[c], parts[c], Right(x, c, width), width, area)
  }

  function Flat<T>(ss: seq<seq<T>>): seq<T> {
    if ss == [] then [] else Flat(ss[..|ss| - 1]) + ss[|ss| - 1]
  }

  lemma {:induction false} SumPositive(ws: seq<real>)
    requires Positive(ws)
    ensures Sum(ws) >= 0.0 && (ws != [] ==> Sum(ws) > 0.0)
  {
    if ws != [] { SumPositive(ws[..|ws| - 1]); }
  }

  lemma {:induction false} SumPrefix(ws: seq<real>, i: nat)
    requires Positive(ws) && i <= |ws|
    ensures Sum(ws[..i]) <= Sum(ws)
    decreases |ws|
  {
    if i < |ws| {
      var init := ws[..|ws| - 1];
      assert init[..i] == ws[..i];
      SumPrefix(init, i);
    } else {
      assert ws[..i] == ws;
    }
  }

  /** The height that is due to a weight. */
  function Due(height: int, w: real, total: real): int
    requires total != 0.0
  {
    Trunc(height as real * w / total)
  }

  /** So many heights of `total` are `part`, but for less than one. */
  predicate Near(due: int, total: real, part: real) {
    0 <= due && due as real * total <= part < (due + 1) as real * total
  }

  /** The height due is in proportion to the weight, but for less than a pixel. */
  lemma DueMeans(height: nat, w: real, total: real, due: int, part: real)
    requires w >= 0.0 && total > 0.0 && due == Due(height, w, total) && part == height as real * w
    ensures Near(due, total, part)
  {
    Times(0.0, w, height as real);
    var q := height as real * w / total;
    Divided(part, total, q);
    Bracket(part, q, total);
  }

  lemma Divided(part: real, total: real, q: real)
    requires total > 0.0 && q == part / total
    ensures q * total == part
  {
  }

  lemma Bracket(part: real, q: real, total: real)
    requires part >= 0.0 && total > 0.0 && q * total == part
    ensures Near(Trunc(q), total, part)
  {
    if q < 0.0 {
      Times(q, 0.0, total);
      assert false;
    }
    TruncMeans(q);
    var due := Trunc(q);
    Times(due as real, q, total);
    Times(q, (due + 1) as real, total);
  }

  lemma {:induction false} SumAdds(a: seq<real>, b: seq<real>)
    ensures Sum(a + b) == Sum(a) + Sum(b)
    decreases |b|
  {
    if b == [] {
      assert a + b == a;
    } else {
      SumAdds(a, b[..|b| - 1]);
      assert (a + b)[..|a + b| - 1] == a + b[..|b| - 1];
    }
  }

  /** Windows of the same weight have the same height, all but the last one of a column. */
  lemma EvenColumn(bs: seq<Box>, ws: seq<real>, x: int, width: int, area: Box, w: real)
    requires IsColumn(bs, ws, x, width, area) && area.height >= 0 && w > 0.0
    requires forall i :: 0 <= i < |ws| ==> ws[i] == w
    ensures forall i :: 0 <= i < |bs| - 1 ==> bs[i].height == area.height / |bs|
  {
    SumEqual(ws, w);
    forall i | 0 <= i < |bs| - 1 ensures bs[i].height == area.height / |bs| {
      EvenWindow(bs, ws, area.height, i, w);
    }
  }

  lemma EvenWindow(bs: seq<Box>, ws: seq<real>, height: nat, i: nat, w: real)
    requires Fair(bs, ws, i, height) && |bs| == |ws| && ws[i] == w > 0.0 && Sum(ws) == |ws| as real * w
    ensures bs[i].height == height / |bs|
  {
    DueEven(height, |bs|, w, Sum(ws));
  }

  lemma {:induction false} SumEqual(ws: seq<real>, w: real)
    requires forall i :: 0 <= i < |ws| ==> ws[i] == w
    ensures Sum(ws) == |ws| as real * w
  {
    if ws != [] { SumEqual(ws[..|ws| - 1], w); }
  }

  lemma DueEven(height: nat, n: nat, w: real, total: real)
    requires n > 0 && w > 0.0 && total == n as real * w && total > 0.0
    ensures Due(height, w, total) == height / n
  {
    var part := height as real * w;
    EvenShare(height, n, w, total, part, part / total);
  }

  lemma EvenShare(height: nat, n: nat, w: real, total: real, part: real, q: real)
    requires n > 0 && w > 0.0 && total == n as real * w && total > 0.0
    requires part == height as real * w && q == part / total
    ensures Trunc(q) == height / n
  {
    Divided(part, total, q);
    Regroup(q, n as real, w);
    Cancel(q * n as real, height as real, w);
    Shares(height, n, q);
  }

  lemma Regroup(a: real, b: real, c: real)
    ensures a * (b * c) == (a * b) * c
  {
  }

  lemma Cancel(a: real, b: real, c: real)
    requires c > 0.0 && a * c == b * c
    ensures a == b
  {
    Times(a, b, c);
    Times(b, a, c);
  }

  lemma Shares(height: nat, n: nat, q: real)
    requires n > 0 && q * n as real == height as real
    ensures Trunc(q) == height / n
  {
    var d := height / n;
    QuotientBetween(height, n);
    Product(d, n);
    Product(d + 1, n);
    if q < d as real {
      Times(q, d as real, n as real);
      assert false;
    }
    if q >= (d + 1) as real {
      Times((d + 1) as real, q, n as real);
      assert false;
    }
    TruncMeans(q);
  }

  lemma QuotientBetween(height: nat, n: nat)
    requires n > 0
    ensures (height / n) * n <= height < (height / n + 1) * n
  {
  }

  lemma Product(a: int, b: int)
    ensures (a * b) as real == a as real * b as real
  {
  }

  /** What is used so far is not more than what is due to the weights so far. */
  predicate Within(used: int, height: int, before: real, total: real) {
    used as real * total <= height as real * before
  }

  lemma Times(a: real, b: real, c: real)
    ensures c >= 0.0 && a <= b ==> a * c <= b * c
    ensures c > 0.0 && a < b ==> a * c < b * c
  {
  }

  lemma DueFits(height: nat, used: nat, w: real, before: real, total: real)
    requires w > 0.0 && 0.0 <= before && before + w <= total
    requires Within(used, height, before, total)
    ensures var due := Due(height, w, total); due >= 0 && Within(used + due, height, before + w, total)
  {
    var part := height as real * w;
    var q := part / total;
    assert q * total == part;
    Times(q, 0.0, total);
    Times(0.0, w, height as real);
    Times(q.Floor as real, q, total);
    Spread(used as real, q.Floor as real, total);
    Spread(before, w, height as real);
  }

  lemma Spread(a: real, b: real, c: real)
    ensures (a + b) * c == a * c + b * c && c * (a + b) == c * a + c * b
  {
  }

  lemma UsedFits(height: nat, used: nat, before: real, total: real)
    requires 0.0 <= before <= total && total > 0.0 && Within(used, height, before, total)
    ensures used <= height
  {
    Times(before, total, height as real);
    Times(height as real, used as real, total);
  }

  method SumOf(ws: seq<real>) returns (total: real)
    ensures total == Sum(ws)
  {
    total := 0.0;
    for i := 0 to |ws|
      invariant total == Sum(ws[..i])
    {
      assert ws[..i + 1][..i] == ws[..i];
      total := total + ws[i];
    }
    assert ws[..|ws|] == ws;
  }

  /** The first `n` weights keep within what is due to them, and so does the next one. */
  lemma NextFits(ws: seq<real>, n: nat, used: nat, height: nat)
    requires Positive(ws) && n < |ws| && Within(used, height, Sum(ws[..n]), Sum(ws))
    ensures Sum(ws) > 0.0 && used <= height
    ensures var due := Due(height, ws[n], Sum(ws));
            due >= 0 && Within(used + due, height, Sum(ws[..n + 1]), Sum(ws))
  {
    assert ws[..n + 1][..n] == ws[..n];
    SumPositive(ws);
    SumPositive(ws[..n]);
    SumPrefix(ws, n + 1);
    UsedFits(height, used, Sum(ws[..n]), Sum(ws));
    DueFits(height, used, ws[n], Sum(ws[..n]), Sum(ws));
  }

  /** The boxes of the first windows of a column, down to `nextY`. */
  ghost predicate Rising(bs: seq<Box>, ws: seq<real>, x: int, width: int, area: Box, nextY: int) {
    && |bs| <= |ws|
    && (forall i :: 0 <= i < |bs| ==> bs[i].x == x && bs[i].width == width && bs[i].height >= 0)
    && (if bs == [] then nextY == area.y else bs[0].y == area.y && bs[|bs| - 1].y + bs[|bs| - 1].height == nextY)
    && (forall i :: 0 <= i < |bs| - 1 ==> bs[i].y + bs[i].height == bs[i + 1].y)
    && (forall i {:trigger Fair(bs, ws, i, area.height)} :: 0 <= i < |bs| ==> Fair(bs, ws, i, area.height))
  }

  lemma Higher(bs: seq<Box>, ws: seq<real>, x: int, width: int, area: Box, nextY: int)
    requires Rising(bs, ws, x, width, area, nextY) && |bs| < |ws|
    requires Sum(ws) > 0.0 && Due(area.height, ws[|bs|], Sum(ws)) >= 0
    ensures var height := Due(area.height, ws[|bs|], Sum(ws));
            Rising(bs + [Box(x, nextY, width, height)], ws, x, width, area, nextY + height)
  {
    var height := Due(area.height, ws[|bs|], Sum(ws));
    var more := bs + [Box(x, nextY, width, height)];
    assert forall i :: 0 <= i < |bs| ==> more[i] == bs[i];
    forall i | 0 <= i < |bs| ensures Fair(more, ws, i, area.height) { assert Fair(bs, ws, i, area.height); }
  }

  lemma Full(bs: seq<Box>, ws: seq<real>, x: int, width: int, area: Box, nextY: int)
    requires Rising(bs, ws, x, width, area, nextY) && |bs| == |ws| - 1 && nextY - area.y <= area.height
    ensures IsColumn(bs + [Box(x, nextY, width, area.height - nextY + area.y)], ws, x, width, area)
  {
    var more := bs + [Box(x, nextY, width, area.height - nextY + area.y)];
    assert forall i :: 0 <= i < |bs| ==> more[i] == bs[i];
    forall i | 0 <= i < |bs| ensures Fair(more, ws, i, area.height) { assert Fair(bs, ws, i, area.height); }
  }

  /** Fills one column with windows; the last one gets the rest of the height. */
  method FillColumn(ws: seq<real>, x: int, width: int, area: Box) returns (bs: seq<Box>)
    requires ws != [] && Positive(ws) && area.height >= 0
    ensures IsColumn(bs, ws, x, width, area)
  {
    var total := SumOf(ws);
    bs := [];
    var nextY := area.y;
    NextFits(ws, 0, 0, area.height);
    for i := 0 to |ws| - 1
      invariant |bs| == i && nextY >= area.y && Within(nextY - area.y, area.height, Sum(ws[..i]), total)
      invariant Rising(bs, ws, x, width, area, nextY)
    {
      NextFits(ws, i, nextY - area.y, area.height);
      Higher(bs, ws, x, width, area, nextY);
      var height := Due(area.height, ws[i], total);
      bs := bs + [Box(x, nextY, width, height)];
      nextY := nextY + height;
    }
    NextFits(ws, |ws| - 1, nextY - area.y, area.height);
    Full(bs, ws, x, width, area, nextY);
    bs := bs + [Box(x, nextY, width, area.height - nextY + area.y)];
  }

  /** The columns have `count` windows in all, differ by one at most, and do not shrink to the right. */
  predicate Balanced(parts: seq<seq<real>>, count: nat) {
    && |Flat(parts)| == count
    && (forall i, j :: 0 <= i < j < |parts| ==> |parts[i]| <= |parts[j]| <= |parts[i]| + 1)
  }

  lemma EvenSplit(sizes: seq<nat>, count: nat, k: nat)
    requires |sizes| > 0 && k == |sizes| - count % |sizes|
    requires forall i :: 0 <= i < |sizes| ==> sizes[i] == if i < k then count / |sizes| else count / |sizes| + 1
    ensures Total(sizes) == count
  {
    TotalSplit(sizes, count / |sizes|, k);
    assert count == |sizes| * (count / |sizes|) + count % |sizes|;
  }

  lemma {:induction false} TotalSplit(sizes: seq<nat>, low: nat, k: nat)
    requires k <= |sizes|
    requires forall i :: 0 <= i < |sizes| ==> sizes[i] == if i < k then low else low + 1
    ensures Total(sizes) == |sizes| * low + (|sizes| - k)
    decreases |sizes|
  {
    if sizes != [] {
      var n := |sizes| - 1;
      TotalSplit(sizes[..n], low, if k <= n then k else n);
      assert (n + 1) * low == n * low + low;
    }
  }

  /**
   How many windows each column takes. The loop runs over the wanted number of columns, which are
   more than there are slots exactly when `overrun`: writes to other slots are not modelled.
   */
  method Capacities(secLen: nat, columnCount: nat) returns (sizes: seq<nat>, overrun: bool)
    requires 1 <= columnCount && 1 <= secLen
    ensures |sizes| == (if columnCount >= secLen then secLen else columnCount) && Total(sizes) == secLen
    ensures forall i :: 0 <= i < |sizes| ==> sizes[i] >= 1
    ensures forall i, j :: 0 <= i < j < |sizes| ==> sizes[i] <= sizes[j] <= sizes[i] + 1
    ensures overrun <==> columnCount > secLen
  {
    var colCount := if columnCount >= secLen then secLen else columnCount;
    var caps := new nat[colCount](_ => 0);
    var least, remainder := secLen / colCount, secLen % colCount;
    AtLeastOne(secLen, colCount);
    overrun := false;
    var i: int := columnCount - 1;
    ghost var k := colCount - remainder;
    while i >= 0
      invariant -1 <= i < columnCount && (overrun <==> columnCount > colCount && i < columnCount - 1)
      invariant remainder == if i >= colCount then colCount - k else if i + 1 > k then i + 1 - k else 0
      invariant forall j :: i < j < colCount ==> caps[j] == if j < k then least else least + 1
    {
      if i < colCount {
        caps[i] := least;
      } else {
        overrun := true;
      }
      if remainder >= 1 {
        if i < colCount {
          caps[i] := caps[i] + 1;
        }
        remainder := remainder - 1;
      }
      i := i - 1;
    }
    sizes := caps[..];
    EvenSplit(sizes, secLen, k);
  }

  lemma AtLeastOne(count: nat, n: nat)
    requires 1 <= n <= count
    ensures count / n >= 1
  {
  }

  /** The arguments of a layout, as setters and resizing keep them. */
  datatype Settings = Settings(masterCount: nat, columnCount: nat, mwfact: real) {
    predicate Valid() {
      masterCount >= 1 && columnCount >= 1 && 0.1 <= mwfact <= 0.9
    }
  }

  /** How many masters and columns there are, and how wide they are. */
  datatype Plan = Plan(masters: nat, masterWidth: int, columns: nat, colWidth: int) {
    /** The masters stand at the left of the area. */
    function MasterStrip(area: Box): Box {
      Box(area.x, area.y, masterWidth, area.height)
    }

    /** The columns stand together from the width of the masters on. */
    function ColumnStrip(area: Box): Box {
      Box(masterWidth, area.y, Right(masterWidth, columns, colWidth) - masterWidth, area.height)
    }
  }

  function PlanOf(windows: nat, area: Box, s: Settings): Plan {
    if s.masterCount >= windows then Plan(windows, area.width, 0, 0)
    else
      var masterWidth := Scale(area.width, s.mwfact);
      var columns := if s.columnCount >= windows - s.masterCount then windows - s.masterCount else s.columnCount;
      Plan(s.masterCount, masterWidth, columns, if columns == 0 then 0 else (area.width - masterWidth) / columns)
  }

  /** The plan fits the area, and leaves fewer pixels of its width unused than there are columns. */
  lemma PlanFits(windows: nat, area: Box, s: Settings)
    requires s.Valid() && area.width >= 0 && windows > 0
    ensures var p := PlanOf(windows, area, s);
            && 1 <= p.masters <= windows && (p.columns > 0 <==> p.masters < windows) && p.columns <= windows - p.masters
            && 0 <= p.masterWidth && 0 <= p.colWidth
            && var unused := area.width - p.masterWidth - p.ColumnStrip(area).width;
            && p.ColumnStrip(area).width >= 0
            && (if p.columns == 0 then unused == 0 else 0 <= unused < p.columns)
  {
    var p := PlanOf(windows, area, s);
    ScaleBounded(area.width, s.mwfact);
    RightIs(p.masterWidth, p.columns, p.colWidth);
    if p.columns > 0 { Quotient(area.width - p.masterWidth, p.columns); }
  }

  /** How many masters and columns there are, and the share of the width that each has, but for less than a pixel. */
  lemma PlanMeans(windows: nat, area: Box, s: Settings)
    requires s.Valid() && area.width >= 0 && windows > 0
    ensures var p := PlanOf(windows, area, s);
            if windows <= s.masterCount then p.masters == windows && p.columns == 0 && p.masterWidth == area.width
            else
              var rest := windows - s.masterCount;
              && p.masters == s.masterCount && p.columns == (if s.columnCount < rest then s.columnCount else rest)
              && p.masterWidth as real <= area.width as real * s.mwfact < (p.masterWidth + 1) as real
              && 0 <= area.width - p.masterWidth - p.columns * p.colWidth < p.columns
  {
    if windows > s.masterCount {
      var p := PlanOf(windows, area, s);
      Times(0.0, s.mwfact, area.width as real);
      TruncMeans(area.width as real * s.mwfact);
      ScaleBounded(area.width, s.mwfact);
      Quotient(area.width - p.masterWidth, p.columns);
    }
  }

  /** One box for each window, in the order of the windows; `overrun` as for the capacities. */
  method ArrangeTile(ws: seq<real>, area: Box, s: Settings)
    returns (bs: seq<Box>, overrun: bool, ghost parts: seq<seq<real>>)
    requires ws != [] && Positive(ws) && s.Valid() && area.width >= 0 && area.height >= 0
    ensures |bs| == |ws| && Tiled(bs, area, PlanOf(|ws|, area, s))
    ensures overrun <==> s.masterCount < |ws| && s.columnCount > |ws| - s.masterCount
    ensures Placed(bs, ws, area, PlanOf(|ws|, area, s), parts)
  {
    PlanFits(|ws|, area, s);
    var masterCount := s.masterCount;
    var masterWidth := if masterCount >= |ws| then area.width else Scale(area.width, s.mwfact);
    masterCount := if masterCount >= |ws| then |ws| else masterCount;
    ghost var p := PlanOf(|ws|, area, s);
    bs := FillColumn(ws[..masterCount], area.x, masterWidth, area);
    parts, overrun := [], false;
    if masterCount >= |ws| {
      MastersOnly(bs, ws, area, p);
      return;
    }
    var secLen := |ws| - masterCount;
    var colCount := if s.columnCount >= secLen then secLen else s.columnCount;
    var colWidth := (area.width - masterWidth) / colCount;
    var columns;
    ghost var cols;
    columns, overrun, cols, parts := FillColumns(ws[masterCount..], masterWidth, colWidth, area, s.columnCount);
    bs := Beside(bs, columns, masterCount);
    AllPlaced(bs, ws, area, p, cols, parts);
  }

  lemma MastersOnly(bs: seq<Box>, ws: seq<real>, area: Box, p: Plan)
    requires IsColumn(bs, ws[..|ws|], area.x, p.masterWidth, area)
    requires p.masters == |ws| && p.columns == 0 && p.colWidth >= 0
    ensures Placed(bs, ws, area, p, []) && Tiled(bs, area, p)
  {
    assert bs[..|ws|] == bs && bs[|ws|..] == [] && ws[|ws|..] == [];
    AllPlaced(bs, ws, area, p, [], []);
  }

  /** The windows are where the plan puts them: masters, then columns as even as can be. */
  ghost predicate Placed(bs: seq<Box>, ws: seq<real>, area: Box, p: Plan, parts: seq<seq<real>>) {
    && |parts| == p.columns && p.masters <= |ws| && Balanced(parts, |ws| - p.masters)
    && exists cols :: Arranged(bs, ws, area, p.masters, p.masterWidth, p.colWidth, cols, parts)
  }

  lemma Together(bs: seq<Box>, ws: seq<real>, area: Box, m: nat, masterWidth: int, colWidth: int,
                 cols: seq<seq<Box>>, parts: seq<seq<real>>)
    requires m <= |ws| && m <= |bs| && IsColumn(bs[..m], ws[..m], area.x, masterWidth, area)
    requires bs[m..] == Flat(cols) && ws[m..] == Flat(parts) && AreColumns(cols, parts, masterWidth, colWidth, area)
    ensures Arranged(bs, ws, area, m, masterWidth, colWidth, cols, parts)
  {
    SameLength(cols, parts, masterWidth, colWidth, area);
  }

  lemma {:induction false} SameLength(cols: seq<seq<Box>>, parts: seq<seq<real>>, x: int, width: int, area: Box)
    requires AreColumns(cols, parts, x, width, area)
    ensures |Flat(cols)| == |Flat(parts)|
    decreases |cols|
  {
    if cols != [] {
      var n := |cols| - 1;
      assert IsColumn(cols[n], parts[n], Right(x, n, width), width, area);
      SameLength(cols[..n], parts[..n], x, width, area);
    }
  }

  method Beside(masters: seq<Box>, columns: seq<Box>, n: nat) returns (bs: seq<Box>)
    requires |masters| == n
    ensures |bs| == n + |columns| && bs[..n] == masters && bs[n..] == columns
  {
    bs := masters + columns;
  }

  /** The windows that are not masters, from `x` on. */
  method FillColumns(ws: seq<real>, x: int, colWidth: int, area: Box, columnCount: nat)
    returns (bs: seq<Box>, overrun: bool, ghost cols: seq<seq<Box>>, ghost parts: seq<seq<real>>)
    requires Positive(ws) && area.height >= 0 && 1 <= columnCount && ws != []
    ensures bs == Flat(cols) && ws == Flat(parts) && AreColumns(cols, parts, x, colWidth, area)
    ensures |parts| == (if columnCount >= |ws| then |ws| else columnCount) && Balanced(parts, |ws|)
    ensures overrun <==> columnCount > |ws|
  {
    var sizes, start;
    sizes, overrun := Capacities(|ws|, columnCount);
    bs, cols, parts, start := FillSizes(ws, x, colWidth, area, sizes);
    Finished(bs, cols, parts, ws, start, sizes, x, colWidth, area);
  }

  method FillSizes(ws: seq<real>, x: int, colWidth: int, area: Box, sizes: seq<nat>)
    returns (bs: seq<Box>, ghost cols: seq<seq<Box>>, ghost parts: seq<seq<real>>, start: nat)
    requires Positive(ws) && area.height >= 0 && Total(sizes) == |ws|
    requires forall i :: 0 <= i < |sizes| ==> sizes[i] >= 1
    ensures |parts| == |sizes| && Progress(bs, cols, parts, ws, start, sizes, x, colWidth, area)
  {
    var nextX := x;
    bs, cols, parts, start := [], [], [], 0;
    for col := 0 to |sizes|
      invariant nextX == Right(x, col, colWidth) && |parts| == col
      invariant Progress(bs, cols, parts, ws, start, sizes, x, colWidth, area)
    {
      NextSlice(ws, sizes, start, col);
      bs, cols, parts, start := FillNext(bs, cols, parts, ws, start, sizes, col, x, colWidth, area, nextX);
      nextX := nextX + colWidth;
    }
  }

  /** One column more. */
  method FillNext(bs: seq<Box>, ghost cols: seq<seq<Box>>, ghost parts: seq<seq<real>>, ws: seq<real>, start: nat,
                  sizes: seq<nat>, col: nat, x: int, colWidth: int, area: Box, at: int)
    returns (bs': seq<Box>, ghost cols': seq<seq<Box>>, ghost parts': seq<seq<real>>, end: nat)
    requires Progress(bs, cols, parts, ws, start, sizes, x, colWidth, area)
    requires |parts| == col < |sizes| && area.height >= 0
    requires at == Right(x, col, colWidth) && sizes[col] >= 1
    requires start + sizes[col] <= |ws| && start + sizes[col] == Total(sizes[..col + 1])
    requires Positive(ws[start..start + sizes[col]])
    ensures |parts'| == |parts| + 1 && Progress(bs', cols', parts', ws, end, sizes, x, colWidth, area)
  {
    end := start + sizes[col];
    var part := ws[start..end];
    var column := FillColumn(part, at, colWidth, area);
    NextColumn(bs, cols, parts, ws, start, sizes, x, colWidth, area, column, part, at);
    bs', cols', parts' := bs + column, cols + [column], parts + [part];
  }

  /** The first columns hold the first windows. */
  ghost predicate Progress(bs: seq<Box>, cols: seq<seq<Box>>, parts: seq<seq<real>>, ws: seq<real>, start: int,
                           sizes: seq<nat>, x: int, width: int, area: Box) {
    && Sized(parts, sizes) && 0 <= start <= |ws| && start == Total(sizes[..|parts|])
    && bs == Flat(cols) && ws[..start] == Flat(parts) && AreColumns(cols, parts, x, width, area)
  }

  lemma NextSlice(ws: seq<real>, sizes: seq<nat>, start: nat, col: nat)
    requires Positive(ws) && col < |sizes| && start == Total(sizes[..col]) && Total(sizes) == |ws|
    ensures start + sizes[col] <= |ws| && Positive(ws[start..start + sizes[col]])
    ensures start + sizes[col] == Total(sizes[..col + 1])
  {
    TotalPrefix(sizes, col);
  }

  lemma NextColumn(bs: seq<Box>, cols: seq<seq<Box>>, parts: seq<seq<real>>, ws: seq<real>, start: nat,
                   sizes: seq<nat>, x: int, width: int, area: Box, column: seq<Box>, part: seq<real>, at: int)
    requires Progress(bs, cols, parts, ws, start, sizes, x, width, area) && |parts| < |sizes|
    requires |part| == sizes[|parts|] && start + |part| <= |ws| && part == ws[start..start + |part|]
    requires start + |part| == Total(sizes[..|parts| + 1])
    requires IsColumn(column, part, at, width, area) && at == Right(x, |parts|, width)
    ensures Progress(bs + column, cols + [column], parts + [part], ws, start + |part|, sizes, x, width, area)
  {
    FlatMore(cols, column);
    FlatMore(parts, part);
    ColumnsMore(cols, parts, x, width, area, column, part);
    SizedMore(parts, sizes, part);
    assert ws[..start + |part|] == ws[..start] + part;
  }

  lemma Finished(bs: seq<Box>, cols: seq<seq<Box>>, parts: seq<seq<real>>, ws: seq<real>, start: nat,
                 sizes: seq<nat>, x: int, width: int, area: Box)
    requires Progress(bs, cols, parts, ws, start, sizes, x, width, area) && |parts| == |sizes| && Total(sizes) == |ws|
    requires forall i, j :: 0 <= i < j < |sizes| ==> sizes[i] <= sizes[j] <= sizes[i] + 1
    ensures ws == Flat(parts) && Balanced(parts, |ws|)
  {
    assert sizes[..|sizes|] == sizes && ws[..|ws|] == ws;
    SizedBalanced(parts, sizes);
  }

  predicate Sized(parts: seq<seq<real>>, sizes: seq<nat>) {
    |parts| <= |sizes| && forall c :: 0 <= c < |parts| ==> |parts[c]| == sizes[c]
  }

  lemma SizedMore(parts: seq<seq<real>>, sizes: seq<nat>, part: seq<real>)
    requires Sized(parts, sizes) && |parts| < |sizes| && |part| == sizes[|parts|]
    ensures Sized(parts + [part], sizes)
  {
  }

  lemma SizedBalanced(parts: seq<seq<real>>, sizes: seq<nat>)
    requires Sized(parts, sizes)
    requires forall i, j :: 0 <= i < j < |sizes| ==> sizes[i] <= sizes[j] <= sizes[i] + 1
    ensures Balanced(parts, |Flat(parts)|)
  {
  }

  lemma ColumnsMore(cols: seq<seq<Box>>, parts: seq<seq<real>>, x: int, width: int, area: Box,
                    col: seq<Box>, part: seq<real>)
    requires AreColumns(cols, parts, x, width, area) && IsColumn(col, part, Right(x, |cols|, width), width, area)
    ensures AreColumns(cols + [col], parts + [part], x, width, area)
  {
    var (cs, ps) := (cols + [col], parts + [part]);
    forall c | 0 <= c < |cs| ensures IsColumn(cs[c], ps[c], Right(x, c, width), width, area) {
      if c < |cols| { assert cs[c] == cols[c] && ps[c] == parts[c]; }
    }
  }

  lemma FlatMore<T>(ss: seq<seq<T>>, s: seq<T>)
    ensures Flat(ss + [s]) == Flat(ss) + s
  {
    assert (ss + [s])[..|ss|] == ss;
  }

  lemma {:induction false} TotalPrefix(ns: seq<nat>, i: nat)
    requires i < |ns|
    ensures Total(ns[..i]) + ns[i] == Total(ns[..i + 1]) <= Total(ns)
    decreases |ns|
  {
    assert ns[..i + 1][..i] == ns[..i];
    var n := |ns| - 1;
    if i < n {
      TotalPrefix(ns[..n], i);
      assert ns[..n][..i + 1] == ns[..i + 1];
    } else {
      assert ns[..i + 1] == ns;
    }
  }

  /** The first `m` windows in one column at the left of the area, and the others in columns. */
  ghost predicate Arranged(bs: seq<Box>, ws: seq<real>, area: Box, m: nat, masterWidth: int, colWidth: int,
                           cols: seq<seq<Box>>, parts: seq<seq<real>>) {
    && m <= |ws| == |bs| && IsColumn(bs[..m], ws[..m], area.x, masterWidth, area)
    && bs[m..] == Flat(cols) && ws[m..] == Flat(parts)
    && AreColumns(cols, parts, masterWidth, colWidth, area)
  }

  // ---- what this looks like ----

  /** How many of the boxes a pixel lies in. */
  function Cover(bs: seq<Box>, px: int, py: int): nat {
    if bs == [] then 0 else Cover(bs[..|bs| - 1], px, py) + One(bs[|bs| - 1].Has(px, py))
  }

  lemma {:induction false} CoverConcat(a: seq<Box>, b: seq<Box>, px: int, py: int)
    ensures Cover(a + b, px, py) == Cover(a, px, py) + Cover(b, px, py)
    decreases |b|
  {
    if b == [] {
      assert a + b == a;
    } else {
      CoverConcat(a, b[..|b| - 1], px, py);
      assert (a + b)[..|a + b| - 1] == a + b[..|b| - 1];
    }
  }

  /** Boxes standing on each other cover the strip up to the top of the next one exactly once. */
  lemma {:induction false} StackCovers(bs: seq<Box>, x: int, width: int, y: int, px: int, py: int)
    requires bs != [] && bs[0].y == y
    requires forall i :: 0 <= i < |bs| ==> bs[i].x == x && bs[i].width == width && bs[i].height >= 0
    requires forall i :: 0 <= i < |bs| - 1 ==> bs[i].y + bs[i].height == bs[i + 1].y
    ensures var last := bs[|bs| - 1];
            y <= last.y && Cover(bs, px, py) == One(Box(x, y, width, last.y + last.height - y).Has(px, py))
    decreases |bs|
  {
    var n := |bs| - 1;
    if n > 0 {
      StackCovers(bs[..n], x, width, y, px, py);
      assert bs[n - 1].y + bs[n - 1].height == bs[n].y;
    } else {
      assert bs[..n] == [] && Cover([], px, py) == 0;
    }
  }

  lemma ColumnCovers(bs: seq<Box>, ws: seq<real>, x: int, width: int, area: Box, px: int, py: int)
    requires IsColumn(bs, ws, x, width, area)
    ensures Cover(bs, px, py) == One(Box(x, area.y, width, area.height).Has(px, py))
  {
    StackCovers(bs, x, width, area.y, px, py);
  }

  lemma {:induction false} ColumnsCover(cols: seq<seq<Box>>, parts: seq<seq<real>>, x: int, width: nat, area: Box,
                                        px: int, py: int)
    requires AreColumns(cols, parts, x, width, area)
    ensures Right(x, |cols|, width) >= x
    ensures Cover(Flat(cols), px, py) == One(Box(x, area.y, Right(x, |cols|, width) - x, area.height).Has(px, py))
    decreases |cols|
  {
    if cols != [] {
      var n := |cols| - 1;
      ColumnsCover(cols[..n], parts[..n], x, width, area, px, py);
      ColumnCovers(cols[n], parts[n], Right(x, n, width), width, area, px, py);
      CoverConcat(Flat(cols[..n]), cols[n], px, py);
    }
  }

  lemma ArrangedCovers(bs: seq<Box>, ws: seq<real>, area: Box, m: nat, masterWidth: int, colWidth: nat,
                       cols: seq<seq<Box>>, parts: seq<seq<real>>, px: int, py: int)
    requires Arranged(bs, ws, area, m, masterWidth, colWidth, cols, parts)
    ensures Cover(bs, px, py)
         == One(Box(area.x, area.y, masterWidth, area.height).Has(px, py))
            + One(Box(masterWidth, area.y, Right(masterWidth, |cols|, colWidth) - masterWidth, area.height).Has(px, py))
  {
    assert bs == bs[..m] + bs[m..];
    CoverConcat(bs[..m], Flat(cols), px, py);
    ColumnCovers(bs[..m], ws[..m], area.x, masterWidth, area, px, py);
    ColumnsCover(cols, parts, masterWidth, colWidth, area, px, py);
  }

  /** Each pixel of the two strips is in exactly one window of the strip, and no other pixel in any. */
  ghost predicate Tiled(bs: seq<Box>, area: Box, p: Plan) {
    forall px, py :: Cover(bs, px, py) == One(p.MasterStrip(area).Has(px, py)) + One(p.ColumnStrip(area).Has(px, py))
  }

  lemma AllPlaced(bs: seq<Box>, ws: seq<real>, area: Box, p: Plan, cols: seq<seq<Box>>, parts: seq<seq<real>>)
    requires p.masters <= |ws| && p.masters <= |bs| && p.colWidth >= 0
    requires IsColumn(bs[..p.masters], ws[..p.masters], area.x, p.masterWidth, area)
    requires bs[p.masters..] == Flat(cols) && ws[p.masters..] == Flat(parts)
    requires AreColumns(cols, parts, p.masterWidth, p.colWidth, area)
    requires |parts| == p.columns && Balanced(parts, |ws| - p.masters)
    ensures Placed(bs, ws, area, p, parts) && |bs| == |ws| && Tiled(bs, area, p)
  {
    Together(bs, ws, area, p.masters, p.masterWidth, p.colWidth, cols, parts);
    AllTiled(bs, ws, area, p, cols, parts);
  }

  lemma AllTiled(bs: seq<Box>, ws: seq<real>, area: Box, p: Plan, cols: seq<seq<Box>>, parts: seq<seq<real>>)
    requires Arranged(bs, ws, area, p.masters, p.masterWidth, p.colWidth, cols, parts)
    requires |cols| == p.columns && p.colWidth >= 0
    ensures Tiled(bs, area, p)
  {
    forall px, py
      ensures Cover(bs, px, py) == One(p.MasterStrip(area).Has(px, py)) + One(p.ColumnStrip(area).Has(px, py))
    {
      ArrangedCovers(bs, ws, area, p.masters, p.masterWidth, p.colWidth, cols, parts, px, py);
    }
  }

  lemma Quotient(a: nat, n: nat)
    requires n > 0
    ensures a / n >= 0 && n * (a / n) >= 0 && 0 <= a - n * (a / n) < n
  {
  }

  /**
   The strips meet exactly when the area starts at 0; otherwise no column is in its place. They
   overlap exactly when both have an extent, and the area starts to the right of 0 and before the
   columns end.
   */
  lemma StripsMeet(windows: nat, area: Box, s: Settings)
    requires s.Valid() && s.masterCount < windows && area.width >= 0
    ensures var p := PlanOf(windows, area, s);
            var (a, b) := (p.MasterStrip(area), p.ColumnStrip(area));
            && (a.x + a.width == b.x <==> area.x == 0)
            && ((exists px, py :: a.Has(px, py) && b.Has(px, py)) <==>
                  area.height > 0 && a.width > 0 && b.width > 0 && 0 < area.x < b.x + b.width)
  {
    PlanFits(windows, area, s);
    var p := PlanOf(windows, area, s);
    StripsOverlap(p.MasterStrip(area), p.ColumnStrip(area));
  }

  lemma StripsOverlap(a: Box, b: Box)
    requires a.y == b.y && a.height == b.height && b.x == a.width >= 0 && b.width >= 0
    ensures (exists px, py :: a.Has(px, py) && b.Has(px, py)) <==>
              a.height > 0 && a.width > 0 && b.width > 0 && 0 < a.x < b.x + b.width
  {
    if a.height > 0 && a.width > 0 && b.width > 0 && 0 < a.x < b.x + b.width {
      var px := if a.x > b.x then a.x else b.x;
      assert a.Has(px, a.y) && b.Has(px, a.y);
    }
  }

  /**
   In an area that starts at 0 no pixel is in two windows, and all are in one but fewer columns of
   pixels at the right than there are columns of windows.
   */
  lemma TilesArea(bs: seq<Box>, windows: nat, area: Box, s: Settings, px: int, py: int)
    requires s.Valid() && area.width >= 0 && windows > 0 && area.x == 0
    requires Tiled(bs, area, PlanOf(windows, area, s))
    ensures var p := PlanOf(windows, area, s);
            var used := p.masterWidth + p.ColumnStrip(area).width;
            && Cover(bs, px, py) == One(area.(width := used).Has(px, py))
            && (if p.columns == 0 then used == area.width else area.width - p.columns < used <= area.width)
  {
    PlanFits(windows, area, s);
  }
}

/** Verse/SimpleCurveDrawer.cs: the arithmetic behind drawing curves: the transform
    between curve and screen coordinates, the measure labels, the points-thinning
    frequency, the view rectangle of a set of curves, the placement of curve marks and the
    legend layout. Floats are `real`; the GUI calls themselves are left out. */
module CurveDrawer {
  import opened Common

  /** A Unity Rect: position and size. */
  datatype Rect = Rect(x: real, y: real, width: real, height: real)
  {
    function XMax(): real { x + width }
    function YMax(): real { y + height }
  }

  /** A view rectangle by its edges, as DrawCurves builds it through xMin/xMax/yMin/yMax. */
  datatype Bounds = Bounds(xMin: real, xMax: real, yMin: real, yMax: real)
  {
    function Width(): real { xMax - xMin }
    function Height(): real { yMax - yMin }
  }

  const MeasureWidth: real := 60.0
  const MeasureHeight: real := 30.0
  const LegendCellWidth: real := 140.0
  const LegendCellHeight: real := 20.0
  const LegendSwatchAdvance: real := 20.0

  /** CurveToScreenCoordsInsideScreenRect: the view's left and right edges go to the rect's,
      its bottom edge to the rect's bottom (y grows downwards on screen) and its top to 0. */
  function CurveToScreenCoordsInsideScreenRect(rect: Rect, view: Rect, p: Vec2): (r: Vec2)
    requires view.width != 0.0 && view.height != 0.0
    ensures p.x == view.x ==> r.x == 0.0
    ensures p.x == view.x + view.width ==> r.x == rect.width
    ensures p.y == view.y ==> r.y == rect.height
    ensures p.y == view.y + view.height ==> r.y == 0.0
  {
    Vec2((p.x - view.x) * (rect.width / view.width),
         rect.height - (p.y - view.y) * (rect.height / view.height))
  }

  /** ScreenToCurveCoords: the rect's edges go back to the view's edges. */
  function ScreenToCurveCoords(rect: Rect, view: Rect, s: Vec2): (r: Vec2)
    requires view.width != 0.0 && view.height != 0.0
    requires rect.width != 0.0 && rect.height != 0.0
    ensures s.x == 0.0 ==> r.x == view.x
    ensures s.x == rect.width ==> r.x == view.x + view.width
    ensures s.y == rect.height ==> r.y == view.y
    ensures s.y == 0.0 ==> r.y == view.y + view.height
  {
    Vec2(s.x / (rect.width / view.width) + view.x,
         (rect.height - s.y) / (rect.height / view.height) + view.y)
  }

  lemma DivThenMul(a: real, k: real)
    requires k != 0.0
    ensures (a / k) * k == a
  {
  }

  lemma MulThenDiv(a: real, k: real)
    requires k != 0.0
    ensures (a * k) / k == a
  {
  }

  lemma RatioNonZero(a: real, b: real)
    requires a != 0.0 && b != 0.0
    ensures a / b != 0.0
  {
  }

  /** Curve to screen, then back to the curve, returns the point. */
  lemma CurveScreenCurve(rect: Rect, view: Rect, p: Vec2)
    requires view.width != 0.0 && view.height != 0.0
    requires rect.width != 0.0 && rect.height != 0.0
    ensures ScreenToCurveCoords(rect, view, CurveToScreenCoordsInsideScreenRect(rect, view, p)) == p
  {
    var kx := rect.width / view.width;
    var ky := rect.height / view.height;
    RatioNonZero(rect.width, view.width);
    RatioNonZero(rect.height, view.height);
    var s := CurveToScreenCoordsInsideScreenRect(rect, view, p);
    assert s.x == (p.x - view.x) * kx;
    assert rect.height - s.y == (p.y - view.y) * ky;
    MulThenDiv(p.x - view.x, kx);
    MulThenDiv(p.y - view.y, ky);
  }

  /** Screen to curve, then back to the screen, returns the point. */
  lemma ScreenCurveScreen(rect: Rect, view: Rect, p: Vec2)
    requires view.width != 0.0 && view.height != 0.0
    requires rect.width != 0.0 && rect.height != 0.0
    ensures CurveToScreenCoordsInsideScreenRect(rect, view, ScreenToCurveCoords(rect, view, p)) == p
  {
    var kx := rect.width / view.width;
    var ky := rect.height / view.height;
    RatioNonZero(rect.width, view.width);
    RatioNonZero(rect.height, view.height);
    var c := ScreenToCurveCoords(rect, view, p);
    assert c.x - view.x == p.x / kx;
    assert c.y - view.y == (rect.height - p.y) / ky;
    DivThenMul(p.x, kx);
    DivThenMul(rect.height - p.y, ky);
  }

  /** The two transforms are inverse to each other, in both orders, for non-degenerate
      rectangles; the view's origin lands on the screen's bottom-left corner (y is flipped). */
  lemma CoordinatesRoundTrip(rect: Rect, view: Rect, p: Vec2)
    requires view.width != 0.0 && view.height != 0.0
    requires rect.width != 0.0 && rect.height != 0.0
    ensures ScreenToCurveCoords(rect, view, CurveToScreenCoordsInsideScreenRect(rect, view, p)) == p
    ensures CurveToScreenCoordsInsideScreenRect(rect, view, ScreenToCurveCoords(rect, view, p)) == p
    ensures CurveToScreenCoordsInsideScreenRect(rect, view, Vec2(view.x, view.y)) == Vec2(0.0, rect.height)
  {
    CurveScreenCurve(rect, view, p);
    ScreenCurveScreen(rect, view, p);
  }

  /** RemovePointsOptimizationFreq: keep every point up to 1000 points, then every 5th,
      4th, 3rd or 2nd point above 1000, 1200, 1400 and 1900. */
  method RemovePointsOptimizationFreq(count: int) returns (result: int)
    ensures count <= 1000 ==> result == count + 1
    ensures 1000 < count <= 1200 ==> result == 5
    ensures 1200 < count <= 1400 ==> result == 4
    ensures 1400 < count <= 1900 ==> result == 3
    ensures 1900 < count ==> result == 2
  {
    result := count + 1;
    if count > 1000 {
      result := 5;
    }
    if count > 1200 {
      result := 4;
    }
    if count > 1400 {
      result := 3;
    }
    if count > 1900 {
      result := 2;
    }
  }

  function Floor(x: real): int
  {
    x.Floor
  }

  /** GenMath.AnyIntegerInRange is not part of this model; it is taken as "some integer
      lies in [min, max]". */
  predicate AnyIntegerInRange(min: real, max: real)
  {
    CeilToInt(min) <= Floor(max)
  }

  datatype Measures = Measures(start: real, inc: real, count: int)

  function CalculateMeasureStartAndInc(min: real, max: real, wantedCount: int, integersOnly: bool): (m: Measures)
    requires wantedCount > 0
    ensures integersOnly && AnyIntegerInRange(min, max) ==>
      m.start == CeilToInt(min) as real && m.inc >= 1.0 && m.inc == m.inc.Floor as real && 1 <= m.count <= wantedCount
      && m.start + m.inc * ((m.count - 1) as real) <= Floor(max) as real
      && m.start + m.inc * (m.count as real) > Floor(max) as real
    ensures !(integersOnly && AnyIntegerInRange(min, max)) ==>
      m.start == min && m.count == wantedCount && m.start + m.inc * (m.count as real) == max
  {
    if integersOnly && AnyIntegerInRange(min, max) then IntegerMeasuresOf(CeilToInt(min), Floor(max), wantedCount)
    else EvenMeasures(min, max, wantedCount)
  }

  /** The integer labels from `lo` to `hi`: a whole step chosen so that at most
      `wantedCount` labels cover the range, the last one at most `hi`. */
  function IntegerMeasuresOf(lo: int, hi: int, wantedCount: int): (m: Measures)
    requires wantedCount > 0 && lo <= hi
    ensures m.start == lo as real && m.inc >= 1.0 && m.inc == m.inc.Floor as real && 1 <= m.count <= wantedCount
    ensures m.start + m.inc * ((m.count - 1) as real) <= hi as real
    ensures m.start + m.inc * (m.count as real) > hi as real
  {
    var inc := CeilToInt(((hi - lo + 1) as real) / (wantedCount as real));
    IntegerMeasures(hi - lo, inc, wantedCount);
    Measures(lo as real, inc as real, (hi - lo) / inc + 1)
  }

  /** `wantedCount` equal steps from `min` to `max`. */
  function EvenMeasures(min: real, max: real, wantedCount: int): (m: Measures)
    requires wantedCount > 0
    ensures m.start == min && m.count == wantedCount && m.start + m.inc * (m.count as real) == max
  {
    DivThenMul(max - min, wantedCount as real);
    Measures(min, (max - min) / (wantedCount as real), wantedCount)
  }

  /** The integer branch: `n + 1` integers stepped by `inc` fit in `count` labels, the last
      at most `n` past the first, at most `w` of them. */
  lemma IntegerMeasures(n: int, inc: int, w: int)
    requires n >= 0 && w > 0
    requires inc as real >= ((n + 1) as real) / (w as real)
    ensures inc >= 1
    ensures inc * (n / inc) <= n < inc * (n / inc + 1)
    ensures 1 <= n / inc + 1 <= w
    ensures (inc as real) * ((n / inc) as real) <= n as real && (inc as real) * ((n / inc + 1) as real) > n as real
  {
    assert ((n + 1) as real) / (w as real) > 0.0;
    assert inc >= 1;
    assert (inc as real) * (w as real) >= (n + 1) as real by {
      assert ((n + 1) as real) / (w as real) * (w as real) == (n + 1) as real;
    }
    assert inc * w >= n + 1;
    var q := n / inc;
    assert n == inc * q + n % inc;
    assert inc * q <= n;
    IntProductAsReal(inc, q);
    IntProductAsReal(inc, q + 1);
  }

  lemma IntProductAsReal(a: int, b: int)
    ensures (a as real) * (b as real) == (a * b) as real
  {
  }

  /** Euclidean division is determined by its quotient and remainder. */
  lemma DivModUnique(n: int, d: int, q: int, r: int)
    requires d > 0 && n == d * q + r && 0 <= r < d
    ensures n / d == q && n % d == r
  {
    var t := q - n / d;
    assert n == d * (n / d) + n % d;
    assert d * t == n % d - r;
  }

  /** The view rectangle of the non-null curves (a curve is `None` when it has no
      SimpleCurve); `None` when there is none. */
  function UnionOf(views: seq<Option<Bounds>>): (r: Option<Bounds>)
    ensures r.None? <==> forall i :: 0 <= i < |views| ==> views[i].None?
    ensures r.Some? ==> forall i :: 0 <= i < |views| && views[i].Some? ==>
      r.value.xMin <= views[i].value.xMin && r.value.xMax >= views[i].value.xMax
      && r.value.yMin <= views[i].value.yMin && r.value.yMax >= views[i].value.yMax
  {
    if |views| == 0 then None
    else
      var pre := UnionOf(views[..|views| - 1]);
      var last := views[|views| - 1];
      if last.None? then pre
      else if pre.None? then last
      else Some(Bounds(MinR(pre.value.xMin, last.value.xMin), MaxR(pre.value.xMax, last.value.xMax),
                       MinR(pre.value.yMin, last.value.yMin), MaxR(pre.value.yMax, last.value.yMax)))
  }

  /** Each edge of the union is the edge of some curve's view: the union is the smallest
      rectangle holding them all. */
  lemma {:induction false} UnionAttained(views: seq<Option<Bounds>>)
    requires UnionOf(views).Some?
    ensures var u := UnionOf(views).value;
      (exists i :: 0 <= i < |views| && views[i].Some? && views[i].value.xMin == u.xMin)
      && (exists i :: 0 <= i < |views| && views[i].Some? && views[i].value.xMax == u.xMax)
      && (exists i :: 0 <= i < |views| && views[i].Some? && views[i].value.yMin == u.yMin)
      && (exists i :: 0 <= i < |views| && views[i].Some? && views[i].value.yMax == u.yMax)
  {
    var pre := views[..|views| - 1];
    var last := |views| - 1;
    if UnionOf(pre).Some? {
      UnionAttained(pre);
      forall i | 0 <= i < |pre| ensures pre[i] == views[i] {
      }
    }
  }

  function MinR(a: real, b: real): real { if a <= b then a else b }
  function MaxR(a: real, b: real): real { if a >= b then a else b }

  /** The SimpleCurveDrawerStyle options that shape the view. */
  datatype Style = Style(useFixedScale: bool, fixedScale: Vec2, onlyPositiveValues: bool,
                         useFixedSection: bool, fixedSectionMin: real, fixedSectionMax: real)

  /** The overrides, in the source's order: fixed scale, then positive values only, then
      fixed section. */
  function ApplyStyle(v: Bounds, style: Style): (r: Bounds)
    ensures style.useFixedSection ==> r.xMin == style.fixedSectionMin && r.xMax == style.fixedSectionMax
    ensures style.useFixedScale ==> r.yMax == style.fixedScale.y
    ensures style.useFixedScale && !style.onlyPositiveValues ==> r.yMin == style.fixedScale.x
    ensures style.onlyPositiveValues ==> r.yMin >= 0.0 && (!style.useFixedSection ==> r.xMin >= 0.0)
    ensures !style.useFixedScale && !style.onlyPositiveValues ==> r.yMin == v.yMin && r.yMax == v.yMax
    ensures !style.useFixedSection && !style.onlyPositiveValues ==> r.xMin == v.xMin && r.xMax == v.xMax
    ensures !style.useFixedSection ==> r.xMax == v.xMax
    ensures !style.useFixedScale ==> r.yMax == v.yMax
    ensures style.onlyPositiveValues && !style.useFixedSection ==> r.xMin == MaxR(v.xMin, 0.0)
    ensures style.onlyPositiveValues ==> r.yMin == MaxR(if style.useFixedScale then style.fixedScale.x else v.yMin, 0.0)
  {
    var a := if style.useFixedScale then v.(yMin := style.fixedScale.x, yMax := style.fixedScale.y) else v;
    var b := if style.onlyPositiveValues
             then a.(xMin := if a.xMin < 0.0 then 0.0 else a.xMin, yMin := if a.yMin < 0.0 then 0.0 else a.yMin)
             else a;
    if style.useFixedSection then b.(xMin := style.fixedSectionMin, xMax := style.fixedSectionMax) else b
  }

  /** DrawCurves' first loop: the union of the non-null curves' views. */
  method UnionOfViews(views: seq<Option<Bounds>>) returns (r: Option<Bounds>)
    ensures r == UnionOf(views)
  {
    var first := true;
    var view := Bounds(0.0, 0.0, 0.0, 0.0);
    for i := 0 to |views|
      invariant first <==> UnionOf(views[..i]).None?
      invariant !first ==> view == UnionOf(views[..i]).value
    {
      assert views[..i + 1][..i] == views[..i];
      if views[i].Some? {
        if first {
          first := false;
          view := views[i].value;
        } else {
          view := Bounds(MinR(view.xMin, views[i].value.xMin), MaxR(view.xMax, views[i].value.xMax),
                         MinR(view.yMin, views[i].value.yMin), MaxR(view.yMax, views[i].value.yMax));
        }
      }
    }
    assert views[..|views|] == views;
    r := if first then None else Some(view);
  }

  /** The view DrawCurves draws in: the loop over the curves, then the style overrides.
      `None` when nothing is drawn (not a repaint, no curves, or a flat view). A list
      whose curves are all null keeps the all-zero default rectangle, which is flat. */
  method DrawCurvesView(isRepaint: bool, views: seq<Option<Bounds>>, style: Style) returns (r: Option<Bounds>)
    ensures !isRepaint || |views| == 0 ==> r.None?
    ensures isRepaint && |views| > 0 ==>
      var u := if UnionOf(views).Some? then UnionOf(views).value else Bounds(0.0, 0.0, 0.0, 0.0);
      var v := ApplyStyle(u, style);
      r == if v.Width() == 0.0 || v.Height() == 0.0 then None else Some(v)
  {
    if !isRepaint || |views| == 0 {
      return None;
    }
    var u := UnionOfViews(views);
    var view := if u.Some? then u.value else Bounds(0.0, 0.0, 0.0, 0.0);
    if style.useFixedScale {
      view := view.(yMin := style.fixedScale.x, yMax := style.fixedScale.y);
    }
    if style.onlyPositiveValues {
      if view.xMin < 0.0 {
        view := view.(xMin := 0.0);
      }
      if view.yMin < 0.0 {
        view := view.(yMin := 0.0);
      }
    }
    if style.useFixedSection {
      view := view.(xMin := style.fixedSectionMin, xMax := style.fixedSectionMax);
    }
    if view.Width() == 0.0 || view.Height() == 0.0 {
      return None;
    }
    r := Some(view);
  }

  /** A CurveMark drawn at a screen point. */
  datatype DrawnMark = DrawnMark(index: nat, at: Vec2)

  predicate InViewX(markX: real, view: Rect)
  {
    view.x <= markX <= view.x + view.width
  }

  function MarkPoint(rect: Rect, view: Rect, markX: real, i: nat): Vec2
    requires view.width != 0.0
  {
    Vec2(rect.x + (markX - view.x) / view.width * rect.width,
         if i % 2 != 0 then rect.YMax() - 5.0 else rect.y + 5.0)
  }

  /** The marks DrawCurveMarks draws, as written: the loop steps `i` twice per round. */
  function MarksAsWritten(rect: Rect, view: Rect, marks: seq<real>, i: nat): seq<DrawnMark>
    requires view.width != 0.0
    decreases |marks| - i
  {
    if i >= |marks| then []
    else (if InViewX(marks[i], view) then [DrawnMark(i, MarkPoint(rect, view, marks[i], i))] else [])
         + MarksAsWritten(rect, view, marks, i + 2)
  }

  /** DrawCurveMarks as written: only even-indexed marks are ever drawn, all in the top row. */
  method DrawCurveMarks(rect: Rect, view: Rect, marks: seq<real>) returns (drawn: seq<DrawnMark>)
    requires view.width != 0.0
    ensures drawn == MarksAsWritten(rect, view, marks, 0)
  {
    drawn := [];
    var i := 0;
    while i < |marks|
      invariant i % 2 == 0
      invariant drawn + MarksAsWritten(rect, view, marks, i) == MarksAsWritten(rect, view, marks, 0)
      decreases |marks| - i
    {
      if InViewX(marks[i], view) {
        drawn := drawn + [DrawnMark(i, MarkPoint(rect, view, marks[i], i))];
      }
      i := i + 1;
      i := i + 1;
    }
  }

  /** What the loop draws: the even-indexed marks inside the view's x-range, in order, each
      in the top row. */
  lemma MarksAsWrittenFacts(rect: Rect, view: Rect, marks: seq<real>, i: nat)
    requires view.width != 0.0 && i % 2 == 0
    ensures forall d :: d in MarksAsWritten(rect, view, marks, i) ==>
      i <= d.index < |marks| && d.index % 2 == 0 && InViewX(marks[d.index], view)
      && d.at == MarkPoint(rect, view, marks[d.index], d.index) && d.at.y == rect.y + 5.0
    ensures forall k :: i <= k < |marks| && k % 2 == 0 && InViewX(marks[k], view) ==>
      exists d :: d in MarksAsWritten(rect, view, marks, i) && d.index == k
  {
    MarksAsWrittenSound(rect, view, marks, i);
    MarksAsWrittenComplete(rect, view, marks, i);
  }

  lemma {:induction false} MarksAsWrittenSound(rect: Rect, view: Rect, marks: seq<real>, i: nat)
    requires view.width != 0.0 && i % 2 == 0
    ensures forall d :: d in MarksAsWritten(rect, view, marks, i) ==>
      i <= d.index < |marks| && d.index % 2 == 0 && InViewX(marks[d.index], view)
      && d.at == MarkPoint(rect, view, marks[d.index], d.index) && d.at.y == rect.y + 5.0
    decreases |marks| - i
  {
    if i < |marks| {
      MarksAsWrittenSound(rect, view, marks, i + 2);
      var rest := MarksAsWritten(rect, view, marks, i + 2);
      var head := if InViewX(marks[i], view) then [DrawnMark(i, MarkPoint(rect, view, marks[i], i))] else [];
      assert MarksAsWritten(rect, view, marks, i) == head + rest;
    }
  }

  lemma {:induction false} MarksAsWrittenComplete(rect: Rect, view: Rect, marks: seq<real>, i: nat)
    requires view.width != 0.0 && i % 2 == 0
    ensures forall k :: i <= k < |marks| && k % 2 == 0 && InViewX(marks[k], view) ==>
      exists d :: d in MarksAsWritten(rect, view, marks, i) && d.index == k
    decreases |marks| - i
  {
    if i < |marks| {
      MarksAsWrittenComplete(rect, view, marks, i + 2);
      var rest := MarksAsWritten(rect, view, marks, i + 2);
      var head := if InViewX(marks[i], view) then [DrawnMark(i, MarkPoint(rect, view, marks[i], i))] else [];
      assert MarksAsWritten(rect, view, marks, i) == head + rest;
      forall k | i <= k < |marks| && k % 2 == 0 && InViewX(marks[k], view)
        ensures exists d :: d in MarksAsWritten(rect, view, marks, i) && d.index == k
      {
        if k == i {
          assert head[0] in MarksAsWritten(rect, view, marks, i);
        } else {
          var d :| d in rest && d.index == k;
          assert d in MarksAsWritten(rect, view, marks, i);
        }
      }
    }
  }

  /** Two marks inside the view: the second one is never drawn as written. */
  lemma OddMarkSkipped()
    ensures var rect := Rect(0.0, 0.0, 100.0, 15.0);
      var view := Rect(0.0, 0.0, 10.0, 10.0);
      MarksAsWritten(rect, view, [1.0, 2.0], 0) == [DrawnMark(0, Vec2(10.0, 5.0))]
  {
    var rect := Rect(0.0, 0.0, 100.0, 15.0);
    var view := Rect(0.0, 0.0, 10.0, 10.0);
    assert MarksAsWritten(rect, view, [1.0, 2.0], 2) == [];
  }

  /** The evidently intended marks: every in-range mark, alternating between the top and the
      bottom row. */
  function MarksIntended(rect: Rect, view: Rect, marks: seq<real>, i: nat): seq<DrawnMark>
    requires view.width != 0.0
    decreases |marks| - i
  {
    if i >= |marks| then []
    else (if InViewX(marks[i], view) then [DrawnMark(i, MarkPoint(rect, view, marks[i], i))] else [])
         + MarksIntended(rect, view, marks, i + 1)
  }

  lemma {:induction false} MarksIntendedFacts(rect: Rect, view: Rect, marks: seq<real>, i: nat)
    requires view.width != 0.0
    ensures forall d :: d in MarksIntended(rect, view, marks, i) ==>
      i <= d.index < |marks| && InViewX(marks[d.index], view)
      && d.at.y == (if d.index % 2 != 0 then rect.YMax() - 5.0 else rect.y + 5.0)
    ensures forall k :: i <= k < |marks| && InViewX(marks[k], view) ==>
      exists d :: d in MarksIntended(rect, view, marks, i) && d.index == k
    decreases |marks| - i
  {
    if i < |marks| {
      MarksIntendedFacts(rect, view, marks, i + 1);
      var rest := MarksIntended(rect, view, marks, i + 1);
      var head := if InViewX(marks[i], view) then [DrawnMark(i, MarkPoint(rect, view, marks[i], i))] else [];
      assert MarksIntended(rect, view, marks, i) == head + rest;
      forall k | i <= k < |marks| && InViewX(marks[k], view)
        ensures exists d :: d in MarksIntended(rect, view, marks, i) && d.index == k
      {
        if k == i {
          assert head[0] in MarksIntended(rect, view, marks, i);
        } else {
          var d :| d in rest && d.index == k;
          assert d in MarksIntended(rect, view, marks, i);
        }
      }
    }
  }

  /** DrawCurveMarks with one step per round. */
  method DrawCurveMarksIntended(rect: Rect, view: Rect, marks: seq<real>) returns (drawn: seq<DrawnMark>)
    requires view.width != 0.0
    ensures drawn == MarksIntended(rect, view, marks, 0)
  {
    drawn := [];
    var i := 0;
    while i < |marks|
      invariant i <= |marks|
      invariant drawn + MarksIntended(rect, view, marks, i) == MarksIntended(rect, view, marks, 0)
    {
      if InViewX(marks[i], view) {
        drawn := drawn + [DrawnMark(i, MarkPoint(rect, view, marks[i], i))];
      }
      i := i + 1;
    }
  }

  /** C#'s (int) cast of a float: truncation toward zero. */
  function TruncToInt(x: real): int
  {
    if x >= 0.0 then x.Floor else -((-x).Floor)
  }

  /** Legend cell k: its swatch's top-left corner. */
  function LegendCell(k: nat, perRow: int): Vec2
  {
    if perRow >= 1 then Vec2(160.0 * ((k % perRow) as real), LegendCellHeight * ((k / perRow) as real))
    else Vec2(160.0 * (k as real), 0.0)
  }

  /** DrawCurvesLegend's layout: entry k's swatch sits at (x, y + 2) and its label at
      (x + 20, y); columns are 160 px apart and a new 20 px row starts after
      floor(width / 140) entries (never, when fewer than one fits). */
  method DrawCurvesLegend(rectWidth: real, entries: nat) returns (cells: seq<Vec2>)
    ensures |cells| == entries
    ensures forall k :: 0 <= k < entries ==> cells[k] == LegendCell(k, TruncToInt(rectWidth / LegendCellWidth))
  {
    var x := 0.0;
    var y := 0.0;
    var perRow := TruncToInt(rectWidth / LegendCellWidth);
    var inRow := 0;
    cells := [];
    for k := 0 to entries
      invariant |cells| == k
      invariant forall j :: 0 <= j < k ==> cells[j] == LegendCell(j, perRow)
      invariant Vec2(x, y) == LegendCell(k, perRow)
      invariant perRow >= 1 ==> inRow == k % perRow
      invariant perRow < 1 ==> inRow == k
    {
      cells := cells + [Vec2(x, y)];
      x := x + LegendSwatchAdvance;
      inRow := inRow + 1;
      if inRow == perRow {
        inRow := 0;
        x := 0.0;
        y := y + LegendCellHeight;
        LegendWrap(k, perRow);
      } else {
        x := x + LegendCellWidth;
        if perRow >= 1 {
          LegendSameRow(k, perRow);
        }
      }
    }
  }

  lemma LegendWrap(k: nat, perRow: int)
    requires perRow >= 1 && k % perRow + 1 == perRow
    ensures (k + 1) % perRow == 0 && (k + 1) / perRow == k / perRow + 1
  {
    assert k == perRow * (k / perRow) + k % perRow;
    assert k + 1 == perRow * (k / perRow + 1) + 0;
    DivModUnique(k + 1, perRow, k / perRow + 1, 0);
  }

  lemma LegendSameRow(k: nat, perRow: int)
    requires perRow >= 1 && k % perRow + 1 != perRow
    ensures (k + 1) % perRow == k % perRow + 1 && (k + 1) / perRow == k / perRow
  {
    assert k == perRow * (k / perRow) + k % perRow;
    assert k + 1 == perRow * (k / perRow) + (k % perRow + 1);
    DivModUnique(k + 1, perRow, k / perRow, k % perRow + 1);
  }
}

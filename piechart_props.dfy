/** What the layout of `pieChart` guarantees: the spans partition a full turn,
    consecutive wedges share their boundary, the large-arc flag and the label
    anchor follow strict comparisons, the tags pair each wedge with exactly
    its own label, and the output has a fixed shape. */
module PieChartProps {
  import opened Decimal
  import opened PieChart

  // ---------------------------------------------------------------------
  // Shorthands for the values the wedge loop sees for wedge k.

  function Spans(cd: Chart): seq<real>
    requires Sum(cd.data) != 0.0
  {
    Angles(cd.data, Sum(cd.data))
  }

  function Start(cd: Chart, k: nat): real
    requires Sum(cd.data) != 0.0 && k <= |cd.data|
  {
    StartAngle(Spans(cd), TiltAngle(cd.tilt), k)
  }

  function Half(cd: Chart, k: nat): real
    requires Sum(cd.data) != 0.0 && k < |cd.data|
  {
    HalfAngle(Start(cd, k), Spans(cd)[k])
  }

  // ---------------------------------------------------------------------
  // Sums and spans.

  lemma {:induction false} SpanAt(data: seq<real>, total: real, k: nat)
    requires total != 0.0 && k < |data|
    ensures Angles(data, total)[k] == data[k] / total * PI * 2.0
    decreases |data|
  {
    var n := |data|;
    if k < n - 1 {
      SpanAt(data[..n - 1], total, k);
      assert data[..n - 1][k] == data[k];
    }
  }

  /** Scaling every value scales the sum. */
  lemma {:induction false} SumOfSpans(data: seq<real>, total: real)
    requires total != 0.0
    ensures Sum(Angles(data, total)) == Sum(data) / total * PI * 2.0
    decreases |data|
  {
    if data != [] {
      var n := |data|;
      var a := Angles(data, total);
      SumOfSpans(data[..n - 1], total);
      assert a[..n - 1] == Angles(data[..n - 1], total);
      var x, y := Sum(data[..n - 1]), data[n - 1];
      assert x / total * PI * 2.0 + y / total * PI * 2.0 == (x + y) / total * PI * 2.0;
    }
  }

  /** With the true total, the spans add up to a full turn. */
  lemma SpansMakeFullTurn(data: seq<real>)
    requires Sum(data) != 0.0
    ensures Sum(Angles(data, Sum(data))) == 2.0 * PI
  {
    SumOfSpans(data, Sum(data));
    assert Sum(data) / Sum(data) == 1.0;
  }

  /** The first wedge starts at the tilt, 0.2 or 0, and the last one ends a
      full turn later. */
  lemma WedgesSpanFullTurn(cd: Chart)
    requires Sum(cd.data) != 0.0
    ensures Start(cd, 0) == (if cd.tilt then 0.2 else 0.0)
    ensures Start(cd, |cd.data|) == TiltAngle(cd.tilt) + 2.0 * PI
  {
    var a := Spans(cd);
    assert a[..0] == [];
    assert a[..|a|] == a;
    SpansMakeFullTurn(cd.data);
  }

  /** Each wedge starts where the previous one ended. */
  lemma WedgesContiguous(angles: seq<real>, tilt: real, i: nat)
    requires i < |angles|
    ensures StartAngle(angles, tilt, i + 1) == StartAngle(angles, tilt, i) + angles[i]
  {
    PrefixSumStep(angles, i);
  }

  lemma {:induction false} PrefixSumMonotone(s: seq<real>, m: nat, n: nat)
    requires NonNegative(s) && m <= n <= |s|
    ensures Sum(s[..m]) <= Sum(s[..n])
    decreases n
  {
    if m < n {
      PrefixSumMonotone(s, m, n - 1);
      PrefixSumStep(s, n - 1);
    }
  }

  /** With non-negative spans, an earlier wedge ends no later than a later one
      starts: wedges do not overlap. */
  lemma WedgesDoNotOverlap(angles: seq<real>, tilt: real, j: nat, k: nat)
    requires NonNegative(angles) && j < k <= |angles|
    ensures StartAngle(angles, tilt, j) + angles[j] <= StartAngle(angles, tilt, k)
  {
    PrefixSumStep(angles, j);
    PrefixSumMonotone(angles, j + 1, k);
  }

  lemma {:induction false} ElementAtMostSum(s: seq<real>, k: nat)
    requires NonNegative(s) && k < |s|
    ensures 0.0 <= Sum(s[..k]) && s[k] <= Sum(s)
    decreases |s|
  {
    var n := |s|;
    assert s[..n] == s;
    PrefixSumMonotone(s, 0, k);
    PrefixSumMonotone(s, k + 1, n);
    PrefixSumStep(s, k);
    assert s[..0] == [];
  }

  lemma {:induction false} TwoElementsAtMostSum(s: seq<real>, j: nat, k: nat)
    requires NonNegative(s) && j < k < |s|
    ensures s[j] + s[k] <= Sum(s)
  {
    var n := |s|;
    assert s[..n] == s;
    PrefixSumStep(s, j);
    PrefixSumMonotone(s, j + 1, k);
    PrefixSumStep(s, k);
    PrefixSumMonotone(s, k + 1, n);
    PrefixSumMonotone(s, 0, j);
    assert s[..0] == [];
  }

  /** For well-formed data every span lies between 0 and a full turn. */
  lemma SpanBounds(cd: Chart, k: nat)
    requires WellFormed(cd) && k < |cd.data|
    ensures 0.0 <= Spans(cd)[k] <= 2.0 * PI
  {
    var t := Sum(cd.data);
    SpanAt(cd.data, t, k);
    ElementAtMostSum(cd.data, k);
    RatioBounds(cd.data[k], t);
  }

  lemma RatioBounds(x: real, t: real)
    requires 0.0 <= x <= t && 0.0 < t
    ensures 0.0 <= x / t <= 1.0
  {
  }

  lemma SpansNonNegative(cd: Chart)
    requires WellFormed(cd)
    ensures NonNegative(Spans(cd))
  {
    forall k | 0 <= k < |cd.data| ensures 0.0 <= Spans(cd)[k] {
      SpanBounds(cd, k);
    }
  }

  /** For well-formed data the middle of a wedge lies inside it. */
  lemma HalfAngleInsideWedge(cd: Chart, k: nat)
    requires WellFormed(cd) && k < |cd.data|
    ensures Start(cd, k) <= Half(cd, k) <= Start(cd, k) + Spans(cd)[k]
    ensures Half(cd, k) + Half(cd, k) == Start(cd, k) + (Start(cd, k) + Spans(cd)[k])
  {
    SpanBounds(cd, k);
  }

  /** For well-formed data the middles of the wedges do not decrease. */
  lemma HalfAnglesMonotone(cd: Chart, j: nat, k: nat)
    requires WellFormed(cd) && j <= k < |cd.data|
    ensures Half(cd, j) <= Half(cd, k)
  {
    if j < k {
      SpansNonNegative(cd);
      WedgesDoNotOverlap(Spans(cd), TiltAngle(cd.tilt), j, k);
      HalfAngleInsideWedge(cd, j);
      HalfAngleInsideWedge(cd, k);
    }
  }

  // ---------------------------------------------------------------------
  // Where each wedge's primitives sit in the output.

  /** What each slot of a wedge's group holds. */
  lemma WedgePrimsParts(cd: Chart, f: Frame, sin: real -> real, cos: real -> real,
                        index: nat, i: nat, start: real, span: real)
    requires Shaped(cd) && i < |cd.data|
    ensures var w := WedgePrims(cd, f, sin, cos, index, i, start, span);
            && w[0] == WedgeShape(cd, f, sin, cos, index, i, start, start + span)
            && w[1] == LabelText(cd, f, sin, cos, index, i, HalfAngle(start, span))
            && (cd.doughnut ==> w[2] == HoleShape(f))
            && w[|w| - 1] == LeaderLine(f, HalfAngle(start, span), sin, cos)
  {
  }

  lemma SlotBelow(k: nat, m: nat, j: nat, w: nat)
    requires k < m && j < w
    ensures k * w + j < m * w
  {
    MulStep(k, w);
    assert (k + 1) * w <= m * w;
  }

  lemma MulStep(m: nat, w: nat)
    ensures m * w + w == (m + 1) * w
  {
  }

  lemma {:induction false} LayoutUpToLength(cd: Chart, angles: seq<real>, tilt: real, f: Frame,
                                            sin: real -> real, cos: real -> real, index: nat, n: nat)
    requires Shaped(cd) && |angles| == |cd.data| && n <= |cd.data|
    ensures |LayoutUpTo(cd, angles, tilt, f, sin, cos, index, n)| == n * Width(cd)
  {
    if n > 0 {
      var w := Width(cd);
      var prev := LayoutUpTo(cd, angles, tilt, f, sin, cos, index, n - 1);
      LayoutUpToLength(cd, angles, tilt, f, sin, cos, index, n - 1);
      MulStep(n - 1, w);
    }
  }

  lemma {:induction false} LayoutUpToAt(cd: Chart, angles: seq<real>, tilt: real, f: Frame,
                                        sin: real -> real, cos: real -> real, index: nat,
                                        n: nat, k: nat, j: nat)
    requires Shaped(cd) && |angles| == |cd.data| && n <= |cd.data| && k < n && j < Width(cd)
    ensures k * Width(cd) + j < |LayoutUpTo(cd, angles, tilt, f, sin, cos, index, n)|
    ensures LayoutUpTo(cd, angles, tilt, f, sin, cos, index, n)[k * Width(cd) + j]
            == WedgePrims(cd, f, sin, cos, index, k, StartAngle(angles, tilt, k), angles[k])[j]
  {
    var w := Width(cd);
    var prev := LayoutUpTo(cd, angles, tilt, f, sin, cos, index, n - 1);
    var last := WedgePrims(cd, f, sin, cos, index, n - 1, StartAngle(angles, tilt, n - 1), angles[n - 1]);
    assert LayoutUpTo(cd, angles, tilt, f, sin, cos, index, n) == prev + last;
    LayoutUpToLength(cd, angles, tilt, f, sin, cos, index, n - 1);
    if k < n - 1 {
      LayoutUpToAt(cd, angles, tilt, f, sin, cos, index, n - 1, k, j);
      SlotBelow(k, n - 1, j, w);
    } else {
      assert k * w == |prev|;
    }
  }

  /** The chart holds three primitives per wedge, four for a doughnut. */
  lemma LayoutSize(cd: Chart, f: Frame, sin: real -> real, cos: real -> real, index: nat)
    requires Shaped(cd) && Sum(cd.data) != 0.0
    ensures |Layout(cd, f, sin, cos, index)| == |cd.data| * (if cd.doughnut then 4 else 3)
  {
    LayoutUpToLength(cd, Spans(cd), TiltAngle(cd.tilt), f, sin, cos, index, |cd.data|);
  }

  /** The primitives wedge k contributes, at the angles the loop gives it. */
  function Group(cd: Chart, f: Frame, sin: real -> real, cos: real -> real, index: nat, k: nat): seq<Prim>
    requires Shaped(cd) && Sum(cd.data) != 0.0 && k < |cd.data|
  {
    WedgePrims(cd, f, sin, cos, index, k, Start(cd, k), Spans(cd)[k])
  }

  /** Slot `k * w + j` of the chart holds element `j` of wedge k's group, so
      the chart is the wedges' groups one after another. */
  lemma LayoutAt(cd: Chart, f: Frame, sin: real -> real, cos: real -> real, index: nat, k: nat, j: nat)
    requires Shaped(cd) && Sum(cd.data) != 0.0 && k < |cd.data| && j < Width(cd)
    ensures k * Width(cd) + j < |Layout(cd, f, sin, cos, index)|
    ensures Layout(cd, f, sin, cos, index)[k * Width(cd) + j] == Group(cd, f, sin, cos, index, k)[j]
  {
    LayoutUpToAt(cd, Spans(cd), TiltAngle(cd.tilt), f, sin, cos, index, |cd.data|, k, j);
  }

  // ---------------------------------------------------------------------
  // The wedge path.

  /** The wedge's path runs from the centre to the rim at its start angle and
      along the arc to the rim at its end angle, in its colour, tagged. */
  lemma WedgePath(cd: Chart, f: Frame, sin: real -> real, cos: real -> real, index: nat, k: nat)
    requires Shaped(cd) && Sum(cd.data) != 0.0 && k < |cd.data|
    ensures var p := Group(cd, f, sin, cos, index, k)[0];
            && p.Wedge?
            && p.d.centre == Point(f.cx, f.cy)
            && p.d.from == OnCircle(f, f.r, Start(cd, k), sin, cos)
            && p.d.to == OnCircle(f, f.r, Start(cd, k) + Spans(cd)[k], sin, cos)
            && p.d.rx == f.r && p.d.ry == f.r && p.d.rotation == 0.0 && p.d.sweep == 1
            && p.fill == cd.colours[k]
            && p.labelTag == Tag(index, k)
  {
    WedgePrimsParts(cd, f, sin, cos, index, k, Start(cd, k), Spans(cd)[k]);
  }

  lemma HalfTurnShare(x: real, t: real)
    requires 0.0 < t
    ensures x / t * PI * 2.0 > PI <==> x + x > t
  {
    assert x / t * PI * 2.0 > PI <==> x / t > 0.5;
    assert x / t > 0.5 <==> x > t * 0.5;
  }

  /** The large-arc flag is 1 exactly when the span exceeds half a turn
      (strictly), which is exactly when the wedge holds more than half the
      total; otherwise it is 0. */
  lemma LargeArcFlag(cd: Chart, f: Frame, sin: real -> real, cos: real -> real, index: nat, k: nat)
    requires Shaped(cd) && Sum(cd.data) > 0.0 && k < |cd.data|
    ensures var p := Group(cd, f, sin, cos, index, k)[0];
            && p.Wedge?
            && (p.d.largeArc == 0 || p.d.largeArc == 1)
            && (p.d.largeArc == 1 <==> Spans(cd)[k] > PI)
            && (p.d.largeArc == 1 <==> cd.data[k] + cd.data[k] > Sum(cd.data))
  {
    WedgePrimsParts(cd, f, sin, cos, index, k, Start(cd, k), Spans(cd)[k]);
    SpanAt(cd.data, Sum(cd.data), k);
    HalfTurnShare(cd.data[k], Sum(cd.data));
  }

  /** In well-formed data at most one wedge holds more than half the total, so
      at most one wedge is drawn with the large-arc flag. */
  lemma AtMostOneLargeArc(cd: Chart, f: Frame, sin: real -> real, cos: real -> real, index: nat, j: nat, k: nat)
    requires WellFormed(cd) && j < k < |cd.data|
    ensures Group(cd, f, sin, cos, index, j)[0].d.largeArc == 0
         || Group(cd, f, sin, cos, index, k)[0].d.largeArc == 0
  {
    LargeArcFlag(cd, f, sin, cos, index, j);
    LargeArcFlag(cd, f, sin, cos, index, k);
    TwoElementsAtMostSum(cd.data, j, k);
  }

  /** A zero value gives a wedge whose two rim points coincide and whose
      large-arc flag is 0. */
  lemma ZeroWedge(cd: Chart, f: Frame, sin: real -> real, cos: real -> real, index: nat, k: nat)
    requires Shaped(cd) && Sum(cd.data) > 0.0 && k < |cd.data| && cd.data[k] == 0.0
    ensures var p := Group(cd, f, sin, cos, index, k)[0];
            p.d.from == p.d.to && p.d.largeArc == 0
  {
    LargeArcFlag(cd, f, sin, cos, index, k);
    WedgePath(cd, f, sin, cos, index, k);
    SpanAt(cd.data, Sum(cd.data), k);
  }

  /** Each wedge after the first starts at the rim point where its predecessor
      ended. */
  lemma SharedBoundary(cd: Chart, f: Frame, sin: real -> real, cos: real -> real, index: nat, k: nat)
    requires Shaped(cd) && Sum(cd.data) != 0.0 && k + 1 < |cd.data|
    ensures Group(cd, f, sin, cos, index, k)[0].d.to == Group(cd, f, sin, cos, index, k + 1)[0].d.from
  {
    WedgePath(cd, f, sin, cos, index, k);
    WedgePath(cd, f, sin, cos, index, k + 1);
    WedgesContiguous(Spans(cd), TiltAngle(cd.tilt), k);
  }

  /** Without tilt, and given sin 0 = 0 and cos 0 = 1, the first wedge leaves
      the centre straight up, towards 12 o'clock. */
  lemma FirstWedgeAtTwelve(cd: Chart, f: Frame, sin: real -> real, cos: real -> real, index: nat)
    requires Shaped(cd) && Sum(cd.data) != 0.0 && !cd.tilt
    requires sin(0.0) == 0.0 && cos(0.0) == 1.0
    ensures 0 < |cd.data|
    ensures Group(cd, f, sin, cos, index, 0)[0].d.from == Point(f.cx, f.cy - f.r)
  {
    WedgePath(cd, f, sin, cos, index, 0);
    WedgesSpanFullTurn(cd);
  }

  /** The last wedge ends on the rim a full turn after the first one started. */
  lemma LastWedgeEnd(cd: Chart, f: Frame, sin: real -> real, cos: real -> real, index: nat)
    requires Shaped(cd) && Sum(cd.data) != 0.0
    ensures 0 < |cd.data|
    ensures Group(cd, f, sin, cos, index, |cd.data| - 1)[0].d.to
            == OnCircle(f, f.r, TiltAngle(cd.tilt) + 2.0 * PI, sin, cos)
  {
    var n := |cd.data|;
    WedgePath(cd, f, sin, cos, index, n - 1);
    WedgesContiguous(Spans(cd), TiltAngle(cd.tilt), n - 1);
    WedgesSpanFullTurn(cd);
  }

  // ---------------------------------------------------------------------
  // Labels, leader lines and the doughnut hole.

  lemma DegreesPastHalfTurn(theta: real)
    ensures Degrees(theta) > 180.0 <==> theta > PI
  {
  }

  /** The label sits 30 beyond the rim along the middle of the wedge, at 20
      vertically when it is anchored at its end; it is anchored at its end
      exactly when the middle lies past half a turn. */
  lemma LabelPlacement(cd: Chart, f: Frame, sin: real -> real, cos: real -> real, index: nat, k: nat)
    requires Shaped(cd) && Sum(cd.data) != 0.0 && k < |cd.data|
    ensures var h := Half(cd, k);
            Group(cd, f, sin, cos, index, k)[1]
            == Label(Point(f.cx + (f.r + 30.0) * sin(h),
                           f.cy - (if h > PI then f.r + 20.0 else f.r + 30.0) * cos(h)),
                     if h > PI then End else Default,
                     Tag(index, k), cd.labels[k])
  {
    var h := HalfAngle(Start(cd, k), Spans(cd)[k]);
    assert h == Half(cd, k);
    WedgePrimsParts(cd, f, sin, cos, index, k, Start(cd, k), Spans(cd)[k]);
    assert Group(cd, f, sin, cos, index, k)[1] == LabelText(cd, f, sin, cos, index, k, h);
    LabelTextAt(cd, f, sin, cos, index, k, h);
    assert LabelText(cd, f, sin, cos, index, k, h)
            == Label(Point(f.cx + (f.r + 30.0) * sin(h),
                           f.cy - (if h > PI then f.r + 20.0 else f.r + 30.0) * cos(h)),
                     if h > PI then End else Default,
                     Tag(index, k), cd.labels[k]);
  }

  /** The label of wedge i for a given middle angle, with the comparison in
      degrees restated in radians. */
  lemma LabelTextAt(cd: Chart, f: Frame, sin: real -> real, cos: real -> real, index: nat, i: nat, half: real)
    requires Shaped(cd) && i < |cd.data|
    ensures LabelText(cd, f, sin, cos, index, i, half)
            == Label(Point(f.cx + (f.r + 30.0) * sin(half),
                           f.cy - (if half > PI then f.r + 20.0 else f.r + 30.0) * cos(half)),
                     if half > PI then End else Default,
                     Tag(index, i), cd.labels[i])
  {
    DegreesPastHalfTurn(half);
  }

  /** For well-formed data, once a label is anchored at its end every later
      label is too. */
  lemma EndAnchorsFormSuffix(cd: Chart, f: Frame, sin: real -> real, cos: real -> real, index: nat, j: nat, k: nat)
    requires WellFormed(cd) && j <= k < |cd.data|
    ensures Group(cd, f, sin, cos, index, j)[1].anchor == End ==> Group(cd, f, sin, cos, index, k)[1].anchor == End
  {
    LabelPlacement(cd, f, sin, cos, index, j);
    LabelPlacement(cd, f, sin, cos, index, k);
    HalfAnglesMonotone(cd, j, k);
  }

  /** The leader line runs along the middle of the wedge from the rim to 20
      beyond it. */
  lemma LeaderLinePlacement(cd: Chart, f: Frame, sin: real -> real, cos: real -> real, index: nat, k: nat)
    requires Shaped(cd) && Sum(cd.data) != 0.0 && k < |cd.data|
    ensures Group(cd, f, sin, cos, index, k)[Width(cd) - 1]
            == Line(OnCircle(f, f.r, Half(cd, k), sin, cos), OnCircle(f, f.r + 20.0, Half(cd, k), sin, cos))
  {
    WedgePrimsParts(cd, f, sin, cos, index, k, Start(cd, k), Spans(cd)[k]);
  }

  /** A doughnut chart draws the same hole of radius 30 at the centre once per
      wedge. */
  lemma HolePerWedge(cd: Chart, f: Frame, sin: real -> real, cos: real -> real, index: nat, k: nat)
    requires Shaped(cd) && Sum(cd.data) != 0.0 && k < |cd.data| && cd.doughnut
    ensures Group(cd, f, sin, cos, index, k)[2] == Hole(Point(f.cx, f.cy), 30.0)
  {
    WedgePrimsParts(cd, f, sin, cos, index, k, Start(cd, k), Spans(cd)[k]);
  }

  // ---------------------------------------------------------------------
  // Tags.

  lemma {:induction false} SplitAtSeparator(a: string, b: string, a': string, b': string, sep: char)
    requires forall k :: 0 <= k < |a| ==> a[k] != sep
    requires forall k :: 0 <= k < |a'| ==> a'[k] != sep
    requires a + [sep] + b == a' + [sep] + b'
    ensures a == a' && b == b'
  {
    var s := a + [sep] + b;
    if |a| < |a'| {
      SeparatorAt(a, b, sep);
      assert false;
    } else if |a'| < |a| {
      SeparatorAt(a', b', sep);
      assert false;
    }
    assert a == s[..|a|] == a';
    assert b == s[|a| + 1..] == b';
  }

  lemma SeparatorAt(a: string, b: string, sep: char)
    ensures (a + [sep] + b)[|a|] == sep
  {
  }

  /** Distinct (chart, wedge) pairs get distinct tags. */
  lemma TagInjective(index: nat, i: nat, index': nat, i': nat)
    requires Tag(index, i) == Tag(index', i')
    ensures index == index' && i == i'
  {
    var p := "label_";
    var a, b := NatToString(index), NatToString(i);
    var a', b' := NatToString(index'), NatToString(i');
    assert Tag(index, i) == p + (a + ['_'] + b);
    assert Tag(index', i') == p + (a' + ['_'] + b');
    assert a + ['_'] + b == Tag(index, i)[|p|..];
    assert a' + ['_'] + b' == Tag(index', i')[|p|..];
    SplitAtSeparator(a, b, a', b', '_');
    NatToStringInjective(index, index');
    NatToStringInjective(i, i');
  }

  /** Position p of a chart with n groups of w primitives lies in group m at
      offset j. */
  lemma SlotOf(p: nat, w: nat, n: nat) returns (m: nat, j: nat)
    requires (w == 3 || w == 4) && p < n * w
    ensures m < n && j < w && p == m * w + j
  {
    if w == 3 {
      m, j := p / 3, p % 3;
    } else {
      m, j := p / 4, p % 4;
    }
  }

  /** Looking up the label whose id equals wedge k's `label` attribute finds
      wedge k's own label, at slot `k * w + 1`, and nothing else in the chart. */
  lemma HoverFindsOwnLabel(cd: Chart, f: Frame, sin: real -> real, cos: real -> real, index: nat, k: nat)
    requires Shaped(cd) && Sum(cd.data) != 0.0 && k < |cd.data|
    ensures k * Width(cd) + 1 < |Layout(cd, f, sin, cos, index)|
    ensures Layout(cd, f, sin, cos, index)[k * Width(cd)].Wedge?
    ensures Layout(cd, f, sin, cos, index)[k * Width(cd) + 1].Label?
    ensures Layout(cd, f, sin, cos, index)[k * Width(cd) + 1].id
            == Layout(cd, f, sin, cos, index)[k * Width(cd)].labelTag
    ensures forall p :: 0 <= p < |Layout(cd, f, sin, cos, index)|
              && Layout(cd, f, sin, cos, index)[p].Label?
              && Layout(cd, f, sin, cos, index)[p].id == Layout(cd, f, sin, cos, index)[k * Width(cd)].labelTag
              ==> p == k * Width(cd) + 1
  {
    LayoutAt(cd, f, sin, cos, index, k, 0);
    LayoutAt(cd, f, sin, cos, index, k, 1);
    forall p | 0 <= p < |Layout(cd, f, sin, cos, index)|
               && Layout(cd, f, sin, cos, index)[p].Label?
               && Layout(cd, f, sin, cos, index)[p].id == Layout(cd, f, sin, cos, index)[k * Width(cd)].labelTag
      ensures p == k * Width(cd) + 1
    {
      OnlyOwnLabel(cd, f, sin, cos, index, k, p);
    }
  }

  lemma OnlyOwnLabel(cd: Chart, f: Frame, sin: real -> real, cos: real -> real, index: nat, k: nat, p: nat)
    requires Shaped(cd) && Sum(cd.data) != 0.0 && k < |cd.data|
    requires p < |Layout(cd, f, sin, cos, index)|
    requires Layout(cd, f, sin, cos, index)[p].Label?
    requires k * Width(cd) < |Layout(cd, f, sin, cos, index)|
    requires Layout(cd, f, sin, cos, index)[k * Width(cd)].Wedge?
    requires Layout(cd, f, sin, cos, index)[p].id == Layout(cd, f, sin, cos, index)[k * Width(cd)].labelTag
    ensures p == k * Width(cd) + 1
  {
    var w := Width(cd);
    LayoutSize(cd, f, sin, cos, index);
    var m, j := SlotOf(p, w, |cd.data|);
    var own, other := Group(cd, f, sin, cos, index, k), Group(cd, f, sin, cos, index, m);
    LayoutAt(cd, f, sin, cos, index, m, j);
    assert Layout(cd, f, sin, cos, index)[p] == other[j];
    LayoutAt(cd, f, sin, cos, index, k, 0);
    assert own[0].labelTag == Tag(index, k);
    LabelSlot(other, cd, f, sin, cos, index, m, j);
    TagInjective(index, m, index, k);
  }

  /** Within a wedge's group only slot 1 holds a label, and it carries the
      wedge's tag. */
  lemma LabelSlot(g: seq<Prim>, cd: Chart, f: Frame, sin: real -> real, cos: real -> real, index: nat, m: nat, j: nat)
    requires Shaped(cd) && Sum(cd.data) != 0.0 && m < |cd.data|
    requires g == Group(cd, f, sin, cos, index, m)
    requires j < |g| && g[j].Label?
    ensures j == 1 && g[j].id == Tag(index, m)
  {
  }

  // ---------------------------------------------------------------------
  // Worked examples.

  /** Four equal values without tilt: four quarter turns starting at 0, π/2,
      π and 3π/2. */
  lemma QuartersExample()
    ensures Sum([1.0, 1.0, 1.0, 1.0]) == 4.0
    ensures var cd := Chart([1.0, 1.0, 1.0, 1.0], ["a", "b", "c", "d"], ["A", "B", "C", "D"], false, false);
            && Spans(cd) == [PI / 2.0, PI / 2.0, PI / 2.0, PI / 2.0]
            && Start(cd, 0) == 0.0 && Start(cd, 1) == PI / 2.0
            && Start(cd, 2) == PI && Start(cd, 3) == 3.0 * PI / 2.0
  {
    var cd := Chart([1.0, 1.0, 1.0, 1.0], ["a", "b", "c", "d"], ["A", "B", "C", "D"], false, false);
    var d := cd.data;
    assert d[..0] == [];
    PrefixSumStep(d, 0);
    PrefixSumStep(d, 1);
    PrefixSumStep(d, 2);
    PrefixSumStep(d, 3);
    assert d[..4] == d;
    var a := Spans(cd);
    forall k | 0 <= k < 4 ensures a[k] == PI / 2.0 {
      SpanAt(d, 4.0, k);
    }
    assert a == [PI / 2.0, PI / 2.0, PI / 2.0, PI / 2.0];
    assert a[..0] == [];
    PrefixSumStep(a, 0);
    PrefixSumStep(a, 1);
    PrefixSumStep(a, 2);
  }

  /** Values 3 and 1 with tilt: the first wedge starts at 0.2 and spans three
      quarters of a turn with the large-arc flag, the second does not. */
  lemma ThreeToOneExample(f: Frame, sin: real -> real, cos: real -> real, index: nat)
    ensures Sum([3.0, 1.0]) == 4.0
    ensures var cd := Chart([3.0, 1.0], ["red", "blue"], ["big", "small"], true, false);
            && Start(cd, 0) == 0.2
            && Spans(cd) == [3.0 * PI / 2.0, PI / 2.0]
    ensures var cd := Chart([3.0, 1.0], ["red", "blue"], ["big", "small"], true, false);
            && Group(cd, f, sin, cos, index, 0)[0].d.largeArc == 1
            && Group(cd, f, sin, cos, index, 1)[0].d.largeArc == 0
  {
    var cd := Chart([3.0, 1.0], ["red", "blue"], ["big", "small"], true, false);
    assert [3.0, 1.0][..1] == [3.0];
    assert [3.0][..0] == [];
    assert Sum([3.0]) == 3.0;
    SpanAt(cd.data, 4.0, 0);
    SpanAt(cd.data, 4.0, 1);
    WedgesSpanFullTurn(cd);
    LargeArcFlag(cd, f, sin, cos, index, 0);
    LargeArcFlag(cd, f, sin, cos, index, 1);
  }
}

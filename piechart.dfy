/** The layout computation of `pieChart` (piechart.js:32-182): from a chart
    description and the container's size it produces the ordered list of SVG
    primitives (wedge path, label text, optional doughnut hole, leader line per
    wedge). Angles are radians measured clockwise from 12 o'clock. `sin` and
    `cos` are parameters, so nothing here depends on what they compute. */
module PieChart {
  import opened Decimal

  /** `Math.PI` as JavaScript prints it. */
  const PI: real := 3.141592653589793
  /** Start angle of the first wedge when the chart is tilted. */
  const TILT: real := 0.2
  /** Distance beyond the rim at which a label is placed. */
  const LABEL_GAP: real := 30.0
  /** Vertical distance beyond the rim for labels anchored at their end. */
  const LABEL_GAP_END: real := 20.0
  /** Length of the leader line drawn outward from the rim. */
  const LEADER_LENGTH: real := 20.0
  /** Radius of the doughnut hole. */
  const HOLE_RADIUS: real := 30.0

  /** The parsed `chart` attribute. `tilt` and `doughnut` record whether
      `cd.tilt` and `cd.doughnut` are truthy. */
  datatype Chart = Chart(
    data: seq<real>,
    colours: seq<string>,
    labels: seq<string>,
    tilt: bool,
    doughnut: bool)

  /** Centre and radius of the pie inside its container. */
  datatype Frame = Frame(cx: real, cy: real, r: real)

  datatype Point = Point(x: real, y: real)

  /** The numbers of the path `M cx,cy L x1,y1 A r,r rotation large sweep x2,y2 Z`. */
  datatype ArcPath = ArcPath(
    centre: Point,
    from: Point,
    rx: real,
    ry: real,
    rotation: real,
    largeArc: int,
    sweep: int,
    to: Point)

  /** `End` when the label carries `text-anchor="end"`, `Default` when it has no
      `text-anchor` attribute. */
  datatype Anchor = Default | End

  datatype Prim =
    | Wedge(d: ArcPath, fill: string, labelTag: string)
    | Label(at: Point, anchor: Anchor, id: string, text: string)
    | Hole(centre: Point, radius: real)
    | Line(from: Point, to: Point)

  /** Sum of a sequence, accumulated from the left as the `total` loop does. */
  function Sum(s: seq<real>): real
  {
    if s == [] then 0.0 else Sum(s[..|s| - 1]) + s[|s| - 1]
  }

  /** What the code needs so that every `colors[i]` and `labels[i]` exists. */
  predicate Shaped(cd: Chart) {
    |cd.colours| == |cd.data| && |cd.labels| == |cd.data|
  }

  predicate NonNegative(s: seq<real>) {
    forall k :: 0 <= k < |s| ==> 0.0 <= s[k]
  }

  /** The assumptions the chart format makes and the code never checks. */
  predicate WellFormed(cd: Chart) {
    Shaped(cd) && NonNegative(cd.data) && Sum(cd.data) > 0.0
  }

  /** The pie sits centred in the container, with a radius of a quarter of its
      width, so it covers the middle half of the width. */
  function FrameOf(width: real, height: real): (f: Frame)
    ensures f.cx - f.r == f.r && f.cx + f.r + f.r == width
    ensures f.cy + f.cy == height
  {
    Frame(width / 2.0, height / 2.0, width / 4.0)
  }

  function TiltAngle(tilt: bool): real {
    if tilt then TILT else 0.0
  }

  /** Angular span of each wedge, in the order the `angles` loop fills them. */
  function Angles(data: seq<real>, total: real): (a: seq<real>)
    requires total != 0.0
    ensures |a| == |data|
  {
    if data == [] then []
    else Angles(data[..|data| - 1], total) + [data[|data| - 1] / total * PI * 2.0]
  }

  /** Start angle of wedge `i`: the tilt plus the spans of the wedges before it. */
  function StartAngle(angles: seq<real>, tilt: real, i: nat): real
    requires i <= |angles|
  {
    tilt + Sum(angles[..i])
  }

  function HalfAngle(start: real, span: real): real {
    start + span / 2.0
  }

  /** The SVG large-arc flag. */
  function LargeArc(start: real, end: real): int {
    if end - start > PI then 1 else 0
  }

  function Degrees(theta: real): real {
    theta * (180.0 / PI)
  }

  /** The point at angle `theta` on the circle of the given radius around the
      frame's centre: angle 0 is 12 o'clock, angles grow clockwise. */
  function OnCircle(f: Frame, radius: real, theta: real, sin: real -> real, cos: real -> real): Point {
    Point(f.cx + radius * sin(theta), f.cy - radius * cos(theta))
  }

  /** The anchor flips to the label's end exactly when the middle of the wedge
      lies past half a turn. */
  function LabelAnchor(half: real): (a: Anchor)
    ensures a == End <==> half > PI
  {
    if Degrees(half) > 180.0 then End else Default
  }

  /** Label position (both branches of the code give the same x). */
  function LabelAt(f: Frame, half: real, sin: real -> real, cos: real -> real): Point {
    var ly := if Degrees(half) > 180.0 then f.cy - (f.r + LABEL_GAP_END) * cos(half)
              else f.cy - (f.r + LABEL_GAP) * cos(half);
    Point(f.cx + (f.r + LABEL_GAP) * sin(half), ly)
  }

  /** The string that pairs wedge `i` of chart `index` with its label. */
  function Tag(index: nat, i: nat): string {
    "label_" + NatToString(index) + "_" + NatToString(i)
  }

  /** Number of primitives emitted per wedge. */
  function Width(cd: Chart): nat {
    if cd.doughnut then 4 else 3
  }

  /** The wedge: a path from the centre to the rim at `start`, along the arc
      to the rim at `end` and back, filled with the wedge's colour. */
  function WedgeShape(cd: Chart, f: Frame, sin: real -> real, cos: real -> real,
                      index: nat, i: nat, start: real, end: real): Prim
    requires Shaped(cd) && i < |cd.data|
  {
    var path := ArcPath(Point(f.cx, f.cy), OnCircle(f, f.r, start, sin, cos), f.r, f.r, 0.0,
                        LargeArc(start, end), 1, OnCircle(f, f.r, end, sin, cos));
    Wedge(path, cd.colours[i], Tag(index, i))
  }

  function LabelText(cd: Chart, f: Frame, sin: real -> real, cos: real -> real,
                     index: nat, i: nat, half: real): Prim
    requires Shaped(cd) && i < |cd.data|
  {
    Label(LabelAt(f, half, sin, cos), LabelAnchor(half), Tag(index, i), cd.labels[i])
  }

  function HoleShape(f: Frame): Prim {
    Hole(Point(f.cx, f.cy), HOLE_RADIUS)
  }

  /** Leader line from the rim outward along the middle of the wedge. */
  function LeaderLine(f: Frame, half: real, sin: real -> real, cos: real -> real): Prim {
    Line(OnCircle(f, f.r, half, sin, cos), OnCircle(f, f.r + LEADER_LENGTH, half, sin, cos))
  }

  /** The primitives one pass of the wedge loop appends, in order: the wedge,
      its label, the hole when the chart is a doughnut, the leader line. */
  function WedgePrims(cd: Chart, f: Frame, sin: real -> real, cos: real -> real,
                      index: nat, i: nat, start: real, span: real): (w: seq<Prim>)
    requires Shaped(cd) && i < |cd.data|
    ensures |w| == Width(cd)
    ensures w[0].Wedge? && w[1].Label? && w[|w| - 1].Line?
    ensures w[2].Hole? <==> cd.doughnut
    ensures w[0].labelTag == w[1].id == Tag(index, i)
  {
    var half := HalfAngle(start, span);
    [WedgeShape(cd, f, sin, cos, index, i, start, start + span)]
    + [LabelText(cd, f, sin, cos, index, i, half)]
    + (if cd.doughnut then [HoleShape(f)] else [])
    + [LeaderLine(f, half, sin, cos)]
  }

  /** The primitives of the first `n` wedges. */
  function LayoutUpTo(cd: Chart, angles: seq<real>, tilt: real, f: Frame,
                      sin: real -> real, cos: real -> real, index: nat, n: nat): (l: seq<Prim>)
    requires Shaped(cd) && |angles| == |cd.data| && n <= |cd.data|
  {
    if n == 0 then []
    else
      LayoutUpTo(cd, angles, tilt, f, sin, cos, index, n - 1)
      + WedgePrims(cd, f, sin, cos, index, n - 1, StartAngle(angles, tilt, n - 1), angles[n - 1])
  }

  /** The whole chart. */
  function Layout(cd: Chart, f: Frame, sin: real -> real, cos: real -> real, index: nat): seq<Prim>
    requires Shaped(cd) && Sum(cd.data) != 0.0
  {
    LayoutUpTo(cd, Angles(cd.data, Sum(cd.data)), TiltAngle(cd.tilt), f, sin, cos, index, |cd.data|)
  }

  lemma PrefixSumStep(s: seq<real>, i: nat)
    requires i < |s|
    ensures Sum(s[..i + 1]) == Sum(s[..i]) + s[i]
  {
    assert s[..i + 1][..i] == s[..i];
  }

  /** `pieChart(el, cd, index)` for a container of the given size. */
  method PieChart(cd: Chart, width: real, height: real, index: nat,
                  sin: real -> real, cos: real -> real) returns (chart: seq<Prim>)
    requires Shaped(cd) && Sum(cd.data) != 0.0
    ensures chart == Layout(cd, FrameOf(width, height), sin, cos, index)
  {
    var data := cd.data;
    var tilt := if cd.tilt then TILT else 0.0;
    var frame := FrameOf(width, height);

    var total := 0.0;
    var i := 0;
    while i < |data|
      invariant 0 <= i <= |data|
      invariant total == Sum(data[..i])
    {
      PrefixSumStep(data, i);
      total := total + data[i];
      i := i + 1;
    }
    assert data[..|data|] == data;

    var angles: seq<real> := [];
    i := 0;
    while i < |data|
      invariant 0 <= i <= |data|
      invariant angles == Angles(data[..i], total)
    {
      assert data[..i + 1][..i] == data[..i];
      angles := angles + [data[i] / total * PI * 2.0];
      i := i + 1;
    }
    assert data[..|data|] == data;

    chart := DrawWedges(cd, frame, angles, tilt, index, sin, cos);
  }

  /** The wedge loop of `pieChart`: the running start angle begins at the
      tilt and moves on by each wedge's span. */
  method DrawWedges(cd: Chart, frame: Frame, angles: seq<real>, tilt: real, index: nat,
                    sin: real -> real, cos: real -> real) returns (chart: seq<Prim>)
    requires Shaped(cd) && |angles| == |cd.data|
    ensures chart == LayoutUpTo(cd, angles, tilt, frame, sin, cos, index, |cd.data|)
  {
    var data := cd.data;
    var doughnut := cd.doughnut;
    chart := [];
    var startangle := tilt;
    var i := 0;
    while i < |data|
      invariant 0 <= i <= |data|
      invariant doughnut == cd.doughnut
      invariant startangle == StartAngle(angles, tilt, i)
      invariant chart == LayoutUpTo(cd, angles, tilt, frame, sin, cos, index, i)
    {
      var endangle;
      chart, doughnut, endangle := DrawWedge(chart, cd, doughnut, frame, index, i, startangle, angles[i], sin, cos);
      PrefixSumStep(angles, i);
      startangle := endangle;
      i := i + 1;
    }
  }

  /** One pass of the wedge loop of `pieChart`: computes the wedge's angles
      and points and appends its primitives to the chart. */
  method DrawWedge(chart: seq<Prim>, cd: Chart, doughnut: bool, frame: Frame, index: nat, i: nat,
                   startangle: real, span: real, sin: real -> real, cos: real -> real)
    returns (chart': seq<Prim>, doughnut': bool, endangle: real)
    requires Shaped(cd) && i < |cd.data| && doughnut == cd.doughnut
    ensures chart' == chart + WedgePrims(cd, frame, sin, cos, index, i, startangle, span)
    ensures doughnut' == doughnut
    ensures endangle == startangle + span
  {
    var colors := cd.colours;
    var labels := cd.labels;
    doughnut' := doughnut;
    endangle := startangle + span;
    var halfangle := startangle + (span / 2.0);
    var p1 := OnCircle(frame, frame.r, startangle, sin, cos);
    var p2 := OnCircle(frame, frame.r, endangle, sin, cos);
    var degrees := halfangle * (180.0 / PI);
    var labelAt := LabelAt(frame, halfangle, sin, cos);
    var big := 0;
    if endangle - startangle > PI {
      big := 1;
    }
    var tag := Tag(index, i);
    var centre := Point(frame.cx, frame.cy);
    var wedge := Wedge(ArcPath(centre, p1, frame.r, frame.r, 0.0, big, 1, p2), colors[i], tag);
    assert wedge == WedgeShape(cd, frame, sin, cos, index, i, startangle, endangle);
    chart' := chart + [wedge];
    var anchor := if degrees > 180.0 then End else Default;
    var text := Label(labelAt, anchor, tag, labels[i]);
    assert text == LabelText(cd, frame, sin, cos, index, i, halfangle);
    chart' := chart' + [text];
    if doughnut' {
      chart' := chart' + [Hole(centre, HOLE_RADIUS)];
      doughnut' := true;  // now the circle element, which is never `false`
    }
    chart' := chart' + [Line(OnCircle(frame, frame.r, halfangle, sin, cos),
                             OnCircle(frame, frame.r + LEADER_LENGTH, halfangle, sin, cos))];
  }
}

# Pie chart layout

This project models the layout computation of `pieChart` in `piechart.js`.
Given a chart description (values, colours, labels, tilt and doughnut flags), a
chart index and the container's width and height, it produces the ordered list
of SVG primitives the function appends to its `<svg>` element. Each wedge
contributes a wedge path, its label text, a centre hole when the chart is a
doughnut, and a leader line. The model then proves what that list looks like.

Files:

- `decimal.dfy`, module `Decimal`: the decimal rendering of a non-negative
  integer. In the source, JavaScript's `+` does this when it builds
  `"label_" + index + "_" + i`. The module proves that the rendering can be
  parsed back, so it is injective.
- `piechart.dfy`, module `PieChart`: the data model and the functional
  specification (`Angles`, `StartAngle`, `WedgePrims`, `LayoutUpTo`,
  `Layout`). It also holds the imperative code proved against
  that specification:
  - `PieChart` holds the setup, the `total` loop and the `angles` loop.
  - `DrawWedges` is the wedge loop with its running `startangle`.
  - `DrawWedge` is one pass of that loop's body.
- `piechart_props.dfy`, module `PieChartProps`: what the layout guarantees.
  - The spans make a full turn.
  - Each wedge starts where the previous one ended.
  - The large-arc flag and the label anchor follow strict comparisons.
  - Label and leader-line geometry are fixed.
  - Tags are collision-free.
  - The output has a fixed shape of three or four primitives per wedge.

Modelling decisions:

- Numbers are Dafny `real`s. `Math.PI` is the constant `3.141592653589793`.
- `Math.sin` and `Math.cos` are function parameters `sin` and `cos` that the
  model never looks into. Every geometric statement says which angle and which
  radius feed each coordinate. Where a statement needs a trigonometric value
  (sin 0 = 0, cos 0 = 1), that value is a hypothesis of the lemma.
- The container size is an input. The frame is `cx = width/2`,
  `cy = height/2`, `r = width/4`.
- `pieChart` validates nothing. What it silently assumes is therefore stated
  as preconditions:
  - `Shaped`: data, colours and labels have equal lengths, so every
    `colors[i]` and `labels[i]` exists.
  - `Sum(data) != 0`, for the division by `total`.
  - For the ordering lemmas, non-negative values and a positive total
    (`WellFormed`).
- The `doughnut` flag records whether `cd.doughnut` is truthy. Inside the loop
  the source reassigns `doughnut` to the circle element (piechart.js:157). That
  element is never `false`, so the method keeps the flag true from then on.
- The source draws the doughnut hole once per wedge, inside the loop. One hole
  per chart is probably what was meant, but the model follows the code: a
  doughnut chart carries N identical holes (`PieChartProps.HolePerWedge`).
- The leader line is emitted for every wedge, after the hole, as the code
  does.

## Model

| member | source | states |
|---|---|---|
| PieChart.PieChart | piechart.js:32-182 | The returned primitives are exactly `Layout` of the chart at the frame derived from the container size: `total` is the sum of the data, the spans are filled in order, then the wedge loop runs |
| PieChart.DrawWedges | piechart.js:63-179 | Starting from `startangle = tilt` and moving it on by each span, the loop appends the groups of wedges 0..N-1 in order (`LayoutUpTo` of all N), keeping `doughnut` equal to the chart's flag |
| PieChart.DrawWedge | piechart.js:65-178 | One pass appends exactly the wedge's group (`WedgePrims`: path, label, the hole iff `doughnut`, then the leader line) to the chart so far. It returns `endangle = startangle + span`, and the doughnut flag keeps its truth value across the reassignment at line 157 |
| PieChart.FrameOf | piechart.js:39-41 | The pie is centred horizontally and vertically, and its diameter covers the middle half of the width |
| PieChart.Angles | piechart.js:58-59 | One span per value |
| PieChart.LabelAnchor | piechart.js:78 | The label is anchored at its end exactly when the middle angle is past π: `degrees > 180` read in radians |
| PieChart.WedgePrims | piechart.js:115-177 | A wedge's group has 4 primitives for a doughnut, else 3. They are a path first, a label second, a hole third exactly for a doughnut, and a line last. The path's `label` attribute equals the label's `id`, and both are `label_<index>_<i>` |
| PieChart.PrefixSumStep | piechart.js:55 | Adding element i to the sum of the first i values gives the sum of the first i+1: the `total` and `startangle` accumulation step |
| Decimal.NatToString | piechart.js:115 | The decimal rendering of a number is a non-empty string of digits |
| Decimal.NoLeadingZero | piechart.js:115 | Only 0 renders with a leading `0`, as JavaScript's rendering of integers does |
| Decimal.DigitsRoundTrip | piechart.js:115 | Parsing the decimal rendering of n gives back n |
| Decimal.NatToStringInjective | piechart.js:152 | Distinct numbers render to distinct strings |
| PieChartProps.SpanAt | piechart.js:59 | Span k is `data[k] / total * π * 2` |
| PieChartProps.SumOfSpans | piechart.js:54-59 | The spans sum to `Sum(data) / total * 2π` for any non-zero total |
| PieChartProps.SpansMakeFullTurn | piechart.js:54-59 | With the true total, the spans sum to exactly 2π |
| PieChartProps.WedgesSpanFullTurn | piechart.js:36 | The first wedge starts at 0.2 when tilted and at 0 otherwise, and the start after the last wedge is `tilt + 2π` |
| PieChartProps.WedgesContiguous | piechart.js:67 | Wedge i+1 starts at wedge i's end angle, start plus span (`startangle = endangle`, line 178) |
| PieChartProps.WedgesDoNotOverlap | piechart.js:64-67 | With non-negative spans, every earlier wedge ends no later than any later wedge starts |
| PieChartProps.SpanBounds | piechart.js:59 | For non-negative data with a positive total, each span lies in [0, 2π] |
| PieChartProps.SpansNonNegative | piechart.js:59 | For non-negative data with a positive total, all spans are non-negative |
| PieChartProps.HalfAngleInsideWedge | piechart.js:68 | For non-negative data, the middle angle lies between the start and end angles and is their midpoint |
| PieChartProps.HalfAnglesMonotone | piechart.js:68 | For non-negative data, the middle angles do not decrease from wedge to wedge |
| PieChartProps.LayoutUpToLength | piechart.js:65-179 | After n passes the chart holds n groups of 3 or 4 primitives |
| PieChartProps.LayoutUpToAt | piechart.js:65-179 | After n passes, slot `k*w + j` holds element j of wedge k's group, for every k < n |
| PieChartProps.LayoutSize | piechart.js:65-179 | The chart has 3N primitives, or 4N for a doughnut |
| PieChartProps.LayoutAt | piechart.js:65-179 | Slot `k*w + j` of the chart holds element j of wedge k's group, so wedge order is preserved |
| PieChartProps.WedgePath | piechart.js:73-76 | The path runs from the centre to the rim at the start angle, then along an arc of radius r (rotation 0, sweep 1) to the rim at the end angle. It is filled with the wedge's colour and tagged `label_<index>_<k>` |
| PieChartProps.LargeArcFlag | piechart.js:94-95 | The large-arc flag is 0 or 1. It is 1 exactly when the span is strictly greater than π, so a span of exactly π gives 0. Equivalently, it is 1 exactly when the value is more than half the total |
| PieChartProps.AtMostOneLargeArc | piechart.js:94-95 | For non-negative data, no two wedges both carry the large-arc flag |
| PieChartProps.ZeroWedge | piechart.js:73-76 | A zero value gives coincident boundary points and a large-arc flag of 0 |
| PieChartProps.SharedBoundary | piechart.js:73-76 | Each wedge's end point on the rim is the next wedge's start point |
| PieChartProps.FirstWedgeAtTwelve | piechart.js:73-74 | Untilted, with sin 0 = 0 and cos 0 = 1, the first boundary point is straight above the centre, at (cx, cy - r) |
| PieChartProps.LastWedgeEnd | piechart.js:75-76 | The last wedge ends on the rim at angle `tilt + 2π` |
| PieChartProps.DegreesPastHalfTurn | piechart.js:78 | `theta * (180 / π) > 180` exactly when `theta > π` |
| PieChartProps.LabelPlacement | piechart.js:82-83 | The label of wedge k has x at radius r+30 along the middle angle in both branches. Its y uses radius r+20 if the middle angle is past π and r+30 otherwise. It is anchored at its end in exactly the first case, and carries id `label_<index>_<k>` and the wedge's label text |
| PieChartProps.LabelTextAt | piechart.js:145-148 | The label built for a middle angle has that position and anchor, stated in radians |
| PieChartProps.EndAnchorsFormSuffix | piechart.js:145-146 | For non-negative data, once a label is end-anchored, every later label is end-anchored too |
| PieChartProps.LeaderLinePlacement | piechart.js:85-89 | The leader line runs along the middle angle from radius r to radius r+20 |
| PieChartProps.HolePerWedge | piechart.js:156-165 | For a doughnut chart every wedge's group contains a hole of radius 30 at the centre |
| PieChartProps.TagInjective | piechart.js:115 | `label_<index>_<i>` determines both index and i, so distinct pairs give distinct tags |
| PieChartProps.HoverFindsOwnLabel | piechart.js:116-117 | Looking up the id equal to wedge k's `label` attribute succeeds: slot `k*w + 1` is a label with that id. It finds nothing else: every label in the chart with that id is at slot `k*w + 1` |
| PieChartProps.OnlyOwnLabel | piechart.js:152 | A label at any slot p whose id equals wedge k's `label` attribute is at slot `k*w + 1` |
| PieChartProps.LabelSlot | piechart.js:143-155 | Within a group only slot 1 is a label, and its id is the wedge's tag |
| PieChartProps.QuartersExample | piechart.js:54-59 | Four equal values without tilt give four spans of π/2, starting at 0, π/2, π and 3π/2 |
| PieChartProps.ThreeToOneExample | piechart.js:94-95 | Values 3 and 1 with tilt give start 0.2 and spans 3π/2 and π/2. The first wedge has the large-arc flag and the second does not |

## Left out

- Page plumbing is not modelled (piechart.js:1-31): the document-ready scan for chart placeholders, the quote replacement and `JSON.parse` of the `chart` attribute, and the title `<h1>`. The chart arrives as a parsed `Chart` value.
- Reading the container's size with jQuery (piechart.js:37-38) is not modelled. Width and height are parameters.
- SVG element creation, the namespace, `setAttribute`, `appendChild` on the DOM, and the `width`, `height` and `viewBox` attributes are left out. Primitives are datatype values appended to a sequence.
- The path's `d` string and JavaScript's number-to-string conversion of coordinates are left out. The path is kept as a record of its numbers (`ArcPath`). Tags do use a decimal rendering, because their uniqueness depends on it. It covers plain integers only, not JavaScript's exponent form for numbers of 1e21 and above.
- Styling attributes are left out: stroke colour and width, `class="wedge"`, font family and size, hole fill and stroke, and the line `style`. They are constants that no geometry depends on.
- The mouseover and mouseout handlers are left out (piechart.js:116-125). Browser event wiring is outside the model. `HoverFindsOwnLabel` states the lookup they rely on.
- All `console.log` calls are left out. They are I/O with no effect on the chart.
- Left out as dead code: the commented-out legend squares (piechart.js:132-140), the unused `offset` (piechart.js:81), and the `lx`/`ly` read from the chart (piechart.js:44-45), which are overwritten at piechart.js:82-83.
- The `angle` helper (piechart.js:184-190) is left out. Nothing calls it, and it depends on floating-point `sqrt`/`atan2`.
- IEEE-754 rounding is not modelled: arithmetic is exact over the reals. Nor is real trigonometry: `sin` and `cos` are uninterpreted, so nothing states that the points lie on a circle, and `LastWedgeEnd` gives the last end angle as `tilt + 2π` rather than identifying it with the first start point.
- `startangle` is an implicit global in the source (piechart.js:64). It is modelled as a local of the wedge loop, because the global binding is observable only outside the core.
- The per-wedge properties are stated on wedge k's group (`Group`), for example the flag, label, line, hole and boundary-point lemmas. Their composition with the chart is not restated lemma by lemma. `LayoutAt` places the group at slots `k*w .. k*w + w - 1` of the chart, and `LayoutSize` shows those slots cover the chart.

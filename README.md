# Annotation overlay of the year-in-review charts, in Dafny

The page draws two time-series charts (traffic and edits) with the Dygraphs
engine and decorates them with date-anchored annotation markers. The logic
of its own lives in `scripts/main.js`, and this project models it:

- **Annotation builder** (`createAnnotations`). Raw `{x, text, tickHeight?}`
  records become descriptors. Each has a 1-based index, the class string
  `tooltip-hidden annotation-<i>`, a 24×24 size, tick width 2, and tick
  height defaulting to 20.
- **Tooltip overlay** (`appendTooltips`). It runs on every draw. It finds
  the marker of descriptor i by the selector `.annotation-(i+1)`. If that
  marker has no tooltip yet, it appends a fresh one and removes the marker's
  `title`. Then it classifies the fresh tooltip's horizontal overflow.
- **Hover handlers**. Mouse-over clears `tooltip-hidden` and sets z-index
  100; mouse-out undoes both.
- **X-axis month row** (`appendXAxisLabels`). Each call appends twelve
  labels, each with a `.short-month` text (the first character) and a
  `.long-month` text (the abbreviated month name, such as "Jan").
- **Legend formatter**. It gives an empty legend when no point is hovered,
  and a date line plus a `<units>: <count>` line otherwise.

The DOM is replaced by values. A chart container (`Container.ChartContainer`)
holds a map from annotation index k to the marker that `.annotation-k`
finds, plus the sequence of x-axis labels. Each marker records its classes,
its inline z-index, whether it still has a `title`, and its `.tooltip`
children. The imperative code becomes methods of that class, and each method
is proved equal to a specification function. The properties are proved as
lemmas about those functions: idempotence, frame, at most one tooltip,
exclusive overflow classes, what the last hover event decides, and label
counts.

Measurements and locale output are parameters:
- `rectOf(i)` is the rectangle the i-th fresh tooltip measures.
- `innerWidth` is the viewport width.
- `monthName(i)` is the short localized name of month i.
- The legend's date and count arrive as already formatted strings.

Three behaviours of the code are worth stating plainly:
- **Overflow on redraw.** The overflow class is computed only for the
  tooltip that the current pass has just created (scripts/main.js:151-167).
  That node is attached only on the pass that appends it. On a later pass
  the class goes on a detached node, so an attached tooltip keeps the class
  from its first pass. `Overlay.AppendTooltipsIdempotent` states this.
- **Axis labels.** `appendXAxisLabels` has no duplication guard. The only
  gate is `isInitial` at its call sites (scripts/main.js:187-190, 222-225).
  `AxisLabels.RepeatedCalls` and `AxisLabels.OnlyInitialDrawsAddLabels`
  state what follows.
- **Legend.** `!data.x` is read without checking `data` itself
  (scripts/main.js:45). The model takes a data record whose `x` may be
  absent, and treats `x == 0` as falsy, as `!data.x` does.

## Model

| member | source | states |
|---|---|---|
| `Text.DecimalRoundTrip` | scripts/main.js:125 | the decimal text of an index reads back as that index, so distinct indices give distinct `annotation-<i>` names |
| `AnnotationBuilder.CreateAnnotations` | scripts/main.js:116-130 | one descriptor per input, in input order. Each keeps `x` and `text` and gets the given series. Descriptor i has index i+1, size 24×24 and tick width 2. Its class list is exactly {`tooltip-hidden`, `annotation-(i+1)`}. Tick height is 20 when absent or 0, else the given value |
| `AnnotationBuilder.SelectorMatchesOnlyItsDescriptor` | scripts/main.js:122-125 | the selector class `annotation-k` is among descriptor i's classes exactly when k = i+1, so indices 1..N are distinct correlation keys |
| `TrafficAnnotations.ChaseTheSkiesDescriptor` | scripts/main.js:176-182 | the third traffic annotation, which has no tick height, becomes marker 3 with tick height 20 and size 24 |
| `Overflow.Classify` | scripts/main.js:163-167 | overflow-right exactly when right > innerWidth. Overflow-left exactly when right ≤ innerWidth and left < 0. Normal exactly when the tooltip lies within [0, innerWidth] |
| `Overflow.AddOverflowClass` | scripts/main.js:160-167 | classifying adds at most one class and removes none. Starting from no overflow class it never yields both. Right > innerWidth adds `tooltip-overflow-right`. Otherwise left < 0 adds `tooltip-overflow-left`. A tooltip inside the viewport is unchanged |
| `Overlay.AppendPrefixEffect` | scripts/main.js:150-157 | after the first n iterations, the markers are the same set. Marker k ≤ n without a tooltip has gained the k-th fresh tooltip; every other marker is unchanged |
| `Overlay.AppendTooltipsEffect` | scripts/main.js:132-157 | a pass keeps the set of markers. It leaves alone markers outside 1..N and markers that already hold a tooltip. A marker without one gains exactly one tooltip, carrying the descriptor's date and text, and loses its title; its classes and z-index stay. The new tooltip's classes are exactly `tooltip` plus the overflow class, if any, of its measurement |
| `Overlay.AppendTooltipsIdempotent` | scripts/main.js:148-170 | a second pass, with any new measurements, leaves the container exactly as the first pass left it |
| `Overlay.AppendTooltipsKeepsOneTooltip` | scripts/main.js:154-157 | if every marker holds at most one tooltip before a pass, it still does after. Every rendered marker 1..N then holds exactly one |
| `Overlay.AppendTooltipsOverflowExclusive` | scripts/main.js:159-167 | no pass leaves a tooltip carrying both overflow classes |
| `Hover.MouseOver` | scripts/main.js:53-56 | the marker loses `tooltip-hidden` and gets z-index "100". Its other classes, title and tooltips stay |
| `Hover.MouseOut` | scripts/main.js:57-60 | the marker regains `tooltip-hidden` and loses its z-index. Its other classes, title and tooltips stay |
| `Hover.OverThenOutRestores` | scripts/main.js:53-60 | over followed by out returns a hidden, unraised marker to exactly its earlier state |
| `Hover.LastEventDecides` | scripts/main.js:53-60 | after any non-empty interleaving, a final out leaves the marker hidden with no z-index. A final over leaves it shown with z-index "100" |
| `Hover.ReplayKeepsEverythingElse` | scripts/main.js:53-60 | any sequence of hover events changes only `tooltip-hidden` and the z-index |
| `AxisLabels.FirstChar` | scripts/main.js:97 | the short label is a prefix of the month name: one character long, or empty for an empty name |
| `AxisLabels.MonthLabels` | scripts/main.js:87-102 | one call yields exactly 12 labels. Label i carries month i's name, and its short form is that name's first character, or empty for an empty name |
| `AxisLabels.RepeatedCalls` | scripts/main.js:84-103 | k calls yield 12·k labels, and label j names month j mod 12 |
| `AxisLabels.OnlyInitialDrawsAddLabels` | scripts/main.js:186-190 | over any sequence of draw callbacks, the row holds 12 labels per initial draw. Redraws add none |
| `Legend.LegendFormatter` | scripts/main.js:44-52 | the legend is empty exactly when `data.x` is falsy (absent or 0). Otherwise it is the date line followed directly by the `<units>: <count>` line, with nothing between them |
| `Container.ChartContainer.AppendTooltips` | scripts/main.js:148-170 | the loop's effect on the markers equals a whole `AppendAll` pass. The label row is untouched |
| `Container.ChartContainer.AnnotationMouseOver` | scripts/main.js:53-56 | only the hovered marker changes, and it changes as `MouseOver` says |
| `Container.ChartContainer.AnnotationMouseOut` | scripts/main.js:57-60 | only the left marker changes, and it changes as `MouseOut` says |
| `Container.ChartContainer.AppendXAxisLabels` | scripts/main.js:84-103 | the row grows by exactly the twelve `MonthLabels`, in calendar order. The markers are untouched |
| `Container.ChartContainer.DrawCallback` | scripts/main.js:186-192 | labels are appended only when `isInitial` holds; the tooltip pass runs on every draw |

## Left out

- Dygraphs itself is not modelled: the chart object, its configuration
  objects (scripts/main.js:14-31, 62-82, 183-244) and `setAnnotations`.
  Which markers it renders, and when, enters only as the initial marker map.
- CSV loading (`./data/traffic.csv`, `./data/edits.csv`) is done by the
  engine, so it is not modelled.
- `touchInteractionModel` (scripts/main.js:32-43) is not modelled. It only
  re-dispatches the first touch point as a synthetic `mousemove`, which is
  event plumbing with no logic of its own.
- `createValueFormatter` (scripts/main.js:105-114) is not modelled. It rests
  on floating-point `Math.round` and locale digit grouping.
- Locale formatting (`toLocaleString`, `new Date`) is not modelled. Tooltips
  keep the raw date string, the legend takes its date and count texts as
  given, and month names come from the `monthName` parameter.
- `getBoundingClientRect`, `window.innerWidth` and `querySelector` are not
  modelled. Measurements are integer parameters, and selector lookup is the
  marker map keyed by index.
- `AnnotationBuilder.CreateAnnotations`: a tick height is an integer, so a
  `NaN` tick height (also falsy under `||`) is not modelled. Raw records
  carry only `x`, `text` and `tickHeight`, so other spread properties are
  not modelled either.
- Node identity is not modelled. The appended tooltip and the node whose
  classes change afterwards are one object in the browser. The model writes
  the classed tooltip back into the marker on the pass that appended it.
- A marker's children other than its `.tooltip` nodes are not modelled,
  including the tooltip's inner title and text nodes.
- `Container.ChartContainer.AppendXAxisLabels`: the container is assumed to
  have its `.graph-x-labels` row. When the row is missing, the code calls
  `appendChild` on `null` (scripts/main.js:85, 101). The resulting
  TypeError is not modelled. On an initial draw that error would also skip
  that draw's `appendTooltips` (scripts/main.js:189-192).
- `AxisLabels.FirstChar`: a Dafny `char` is a Unicode scalar value, while
  `substring(0, 1)` returns the first UTF-16 code unit. The two differ for a
  month name that starts with a character outside the Basic Multilingual
  Plane. That is not modelled.

# pytimeline layout engine, modelled in Dafny

pytimeline turns a timeline description into an SVG drawing on a canvas
of fixed width. The description holds a width, a start and an end, and
optionally a tick format, a tick count, eras and callouts. This project
models the engine in `pytimeline/structures.py`, the `Timeline` class, and
proves properties of it. The model covers:

- **Coordinate mapping** (`coordinates.dfy`). The window is the span padded
  by a tenth on each side. A timestamp maps to `int(fraction * width + 0.5)`,
  computed exactly with integers.
- **Axis labels and ticks** (`axis.dfy`). This covers what
  `_add_axis_label` adds for one date, the dates `_create_main_axis` labels,
  and the running maximum label height.
- **Callout order** (`callout_order.dfy`). Callouts are grouped by
  timestamp, the timestamps sorted, and each group popped. The order the
  pops produce is proved equal to an independent reference order.
- **Callout levels** (`callout_levels.dfy`). This is the greedy backward
  scan over earlier placements with its `-inf` sentinel, the stacking
  levels, the drawn elements and `min_y`.
- **Eras and the arrowhead cache** (`eras.dfy`). `_get_markers` creates a
  marker pair once per colour. Every era draws a band, two dashed lines, an
  arrow and its name.
- **The `Timeline` object** (`timeline.dfy`). It is a class whose fields are
  the marker cache, the running label height, the drawing's definitions and
  elements, the axis group and the height. Its methods update those fields
  as `build` and its helpers do.

The drawing is a sequence of abstract element records: line, arrow, rect,
text, path, circle, marker definition and group. Points are kept in half
pixels, so the 1.5-pixel text nudge is exact.

Timestamps are whole seconds. Text width and date formatting are injected
functions. The window `date0`, `date1` and `total_seconds` is a value.
The model keeps these behaviours of the code:

- Callouts that share a timestamp are not deduplicated. Every one is popped
  and drawn, the latest-declared first (lines 227-236).
- Every axis label is formatted with `DATE_FORMAT`. `tick_format` is read
  (line 44) and never used.
- The canvas height is fixed before the era-boundary labels are added
  (lines 73-77), so those labels do not count towards it.
- The level a callout gets is one more than the highest level in the run
  of most recent placements that reach past its left edge. It is not
  necessarily the smallest free level. `LevelClearsCollisions` shows that
  it clears every earlier placement that reaches past the edge.
- The collision test is strict: `left < prev_x[i]` (line 247).
- Eras are drawn whether or not they fall in the window. Ticks and
  callouts outside the window are skipped.
- A zero span raises a division by zero at the first axis label, after the
  axis line was added. `CreateMainAxis` and `Build` then return `false`
  with only that line added. A negative span is not rejected, and its
  window is mirrored.

## Model

| member | source | states |
|---|---|---|
| Coordinates.Padding | pytimeline/structures.py:56 | the padding is a tenth of the span, rounded toward zero, and has the span's sign |
| Coordinates.MakeWindow | pytimeline/structures.py:56-59 | `total_seconds` is `date1 - date0`; the window contains the span; it is empty exactly when the span is, and has the span's sign |
| Coordinates.InWindow | pytimeline/structures.py:184-186 | the skip test: the fraction `(dt - date0) / total_seconds` lies in [0, 1] (also lines 237-239) |
| Coordinates.PixelX | pytimeline/structures.py:189 | `int(fraction * width + 0.5)` computed exactly, as at lines 107-108 and 240 too; its meaning is proved by the `PixelX…` lemmas below |
| Coordinates.PixelXRoundsHalfUp | pytimeline/structures.py:184-189 | for an in-window date the pixel is the fraction of the width rounded half up: `x - 1/2 <= fraction * width < x + 1/2` |
| Coordinates.PixelXAtWindowStart | pytimeline/structures.py:184-189 | `date0` maps to pixel 0 |
| Coordinates.PixelXAtWindowEnd | pytimeline/structures.py:184-189 | `date1` maps to pixel `width` |
| Coordinates.PixelXMonotone | pytimeline/structures.py:184-189 | later dates never map to smaller pixels on a forward window, and never to larger ones on a mirrored window |
| Coordinates.PixelXOnCanvas | pytimeline/structures.py:184-189 | an in-window date lands on the canvas, `0 <= x <= width` |
| Coordinates.InWindowIffBetween | pytimeline/structures.py:184-186 | on a forward window the skip test lets through exactly the dates between `date0` and `date1` |
| Axis.LabelElements | pytimeline/structures.py:188-208 | the elements of one in-window label at pixel `x`: a black tick line from `(x, -5)` to `(x, 5)` when asked, then the rotated, end-anchored label at `(x, -10)` |
| Axis.LabelHeight | pytimeline/structures.py:209 | the room a label needs: its measured width plus `2 * dy` |
| Axis.AxisLabels | pytimeline/structures.py:182-208 | the elements that successive `_add_axis_label` calls for a list of dates append, call after call |
| Axis.MaxLabelHeight | pytimeline/structures.py:209-210 | `max_label_height` after successive `_add_axis_label` calls for a list of dates, from a starting value |
| Axis.LabelSnoc | pytimeline/structures.py:182-210 | proof step: unfolds `AxisLabels` and `MaxLabelHeight` at one more date, so that one `_add_axis_label` call adds `LabelAt` and `HeightAt` of that date |
| Axis.LabelStep | pytimeline/structures.py:182-210 | proof step: the same unfolding, stated over the axis group and the running maximum that the label loops carry |
| Axis.LabelAt | pytimeline/structures.py:182-208 | what one `_add_axis_label` call draws: nothing outside the window, else a tick line when asked and one rotated label, so zero, two or one elements |
| Axis.HeightAt | pytimeline/structures.py:184-186 | `max_label_height` after one call: unchanged outside the window, else the larger of the old value and the label's height, so never smaller and always one of the two (lines 209-210) |
| Axis.MaxLabelHeightAppend | pytimeline/structures.py:209-210 | proof step: the maximum over two runs of label calls is the second run folded onto the first's result |
| Axis.AxisLabelsCount | pytimeline/structures.py:185-208 | each in-window date gets exactly one rotated label, plus one tick line when ticks are asked for; an out-of-window date gets nothing |
| Axis.MaxLabelHeightIsMax | pytimeline/structures.py:209-210 | `max_label_height` never decreases, is at least every in-window label's height, and equals either its old value or one of those heights |
| Axis.FirstTwoLabels | pytimeline/structures.py:160-161 | proof step: unfolds the labels and the maximum of `[start]` and `[start, end]`, the first two calls |
| Axis.TickPrefixNext | pytimeline/structures.py:167-169 | proof step: unfolds the labelled dates by one tick, so iteration `j` of the tick loop adds tick `j` |
| Axis.InteriorTick | pytimeline/structures.py:166-168 | tick `j` lies `j * seconds / num_ticks` seconds after the start, the fraction of a second dropped |
| Axis.TickDates | pytimeline/structures.py:160-169 | the dates the main axis labels: start, end, then the ticks for `j` in `range(1, num_ticks)` when `num_ticks` is given |
| Axis.TickDatesShape | pytimeline/structures.py:160-169 | the labelled dates are start, end, then exactly `max(0, num_ticks - 1)` interior ticks, the `j`-th at `start + j * span / num_ticks` |
| Axis.InteriorTickBetween | pytimeline/structures.py:166-168 | every interior tick lies between start and end |
| Axis.BetweenInWindow | pytimeline/structures.py:56-59 | the padding puts every date between start and end inside the window |
| Axis.MainAxisLabelCount | pytimeline/structures.py:155-169 | with a non-zero span the main axis gets exactly `2 + max(0, num_ticks - 1)` labels and as many tick lines |
| CalloutOrder.ResolveAll | pytimeline/structures.py:222-225 | each callout keeps its name and date, and its colour defaults to black |
| CalloutOrder.Resolve | pytimeline/structures.py:223-225 | one callout entry read: its name, its date and its colour, black when the third entry is absent |
| CalloutOrder.Times | pytimeline/structures.py:226 | one timestamp per callout, in declaration order |
| CalloutOrder.SortInts | pytimeline/structures.py:230 | the sorted timestamps are in ascending order and are a permutation of the declared ones |
| CalloutOrder.GroupByTime | pytimeline/structures.py:222-229 | the grouping loop collects every declared timestamp in order, and under each timestamp that occurs the callouts declared there, in declaration order |
| CalloutOrder.PendingGroupsStart | pytimeline/structures.py:227-229 | proof step: the grouped dictionary meets the pop loop's invariant before the first pop |
| CalloutOrder.PopAvailable | pytimeline/structures.py:235-236 | a pop never finds an empty list: the next sorted timestamp still has a callout left |
| CalloutOrder.PopStep | pytimeline/structures.py:236 | the popped callout has the timestamp it was popped for and moves from the pending lists to the popped ones |
| CalloutOrder.PopNext | pytimeline/structures.py:235-236 | iteration `n` pops a callout at `sorted_dates[n]` and keeps the bookkeeping |
| CalloutOrder.PopsComplete | pytimeline/structures.py:235-236 | after the last pop every callout was popped exactly once, and each timestamp's callouts came out latest-declared first |
| CalloutOrder.ProcessOrderIsProcessOrder | pytimeline/structures.py:230-236 | the reference order (declarations reversed, then stably sorted by time) is sorted, has every callout, and puts same-time callouts latest first |
| CalloutOrder.ProcessOrderUnique | pytimeline/structures.py:230-236 | any order with those properties is the reference order |
| CalloutOrder.PopsAreProcessOrder | pytimeline/structures.py:230-236 | the order the pops produce is the reference order |
| CalloutLevels.LeftEdge | pytimeline/structures.py:244-246 | the left end of a callout's label, at least `Callout.width + text_fudge[0]` left of its pixel |
| CalloutLevels.Level | pytimeline/structures.py:242-249 | the level the backward scan chooses: 0 when the most recent placement is at or left of `left`, else one more than the highest level in the run of most recent placements right of `left` |
| CalloutLevels.CalloutY | pytimeline/structures.py:250 | the y of a level's label; for a non-negative level it is at most `-Callout.height` |
| CalloutLevels.PlaceNext | pytimeline/structures.py:236-274 | one loop iteration: an out-of-window callout adds nothing, an in-window one adds one placement after the earlier ones |
| CalloutLevels.Layout | pytimeline/structures.py:235-274 | the placements of the whole drawing loop over the popped order |
| CalloutLevels.CalloutElements | pytimeline/structures.py:253-272 | the four elements of a drawn callout: leader path, name, untick'd date label and circle |
| CalloutLevels.AllCalloutElements | pytimeline/structures.py:253-272 | the elements the drawing loop appends for the drawn callouts, in order |
| CalloutLevels.MinY | pytimeline/structures.py:251 | `min_y`, starting from `float("inf")` (line 218) and lowered to each drawn callout's y |
| CalloutLevels.PushedSnoc | pytimeline/structures.py:273-274 | proof step: pushing a placement's pixel and level keeps `prev_x` and `prev_level` in step with the placements |
| CalloutLevels.LevelZeroIff | pytimeline/structures.py:242-249 | the level is 0 exactly when the most recent placement does not reach past the left edge |
| CalloutLevels.LevelAttained | pytimeline/structures.py:242-249 | a positive level is one more than the level of some earlier placement that reaches past the left edge |
| CalloutLevels.LevelClearsCollisions | pytimeline/structures.py:242-249 | when earlier placements are in pixel order, the level is above that of every earlier placement reaching past the left edge |
| CalloutLevels.ScanLevel | pytimeline/structures.py:242-249 | the `while` scan over `prev_x` and `prev_level` with the `-inf` sentinel stops inside the lists and returns the level the backward scan defines |
| CalloutLevels.LayoutDrawsVisible | pytimeline/structures.py:237-240 | exactly the in-window callouts are drawn, in order, each at its date's pixel |
| CalloutLevels.VisibleSubsequence | pytimeline/structures.py:237-239 | every drawn callout is in the window, and they stay in time order |
| CalloutLevels.LayoutOutsideWindow | pytimeline/structures.py:237-239 | when no callout falls in the window, none is drawn |
| CalloutLevels.LayoutSortedX | pytimeline/structures.py:235-240 | on a forward window the drawn pixels (the entries of `prev_x` after the sentinel) are non-decreasing |
| CalloutLevels.LayoutNoOverlap | pytimeline/structures.py:235-250 | on a forward window with a non-negative width and callouts in time order, a callout whose label reaches past an earlier callout's leader is on a higher level than that callout |
| CalloutLevels.MinYIsHighest | pytimeline/structures.py:250-251 | `min_y` is `+inf` exactly when nothing is drawn; otherwise it is the y of the highest callout, at most `-Callout.height` |
| CalloutLevels.LayoutSnoc | pytimeline/structures.py:235-274 | proof step: unfolds `Layout` at one more popped callout, one more `PlaceNext` |
| CalloutLevels.PlacedSnoc | pytimeline/structures.py:250-274 | proof step: unfolds the drawn elements, `MinY` and the label maximum at one more placement |
| Eras.Fetch | pytimeline/structures.py:139-153 | an uncached colour appends a start and an end marker definition and caches their pair under it; a cached colour changes nothing and returns its pair; other colours keep their pairs |
| Eras.StartMarkerDef | pytimeline/structures.py:144-146 | the start arrowhead definition in a colour, inserted at `(0, 3)` |
| Eras.EndMarkerDef | pytimeline/structures.py:148-150 | the end arrowhead definition in a colour, inserted at `(6, 3)` |
| Eras.FetchAll | pytimeline/structures.py:95-102 | the marker cache after `_get_markers` has run for each era's colour in turn |
| Eras.FetchValid | pytimeline/structures.py:139-153 | the cache stays consistent, and the returned pair points at the start and end arrowheads in the colour asked for |
| Eras.FetchSized | pytimeline/structures.py:139-153 | two definitions per cached colour, before and after |
| Eras.FetchIdempotent | pytimeline/structures.py:141-142 | fetching the same colour again returns the same pair and adds nothing |
| Eras.FetchAllKeys | pytimeline/structures.py:139-153 | after the eras' fetches the cache holds the old colours and the eras' colours, and old pairs are unchanged |
| Eras.FetchAllValid | pytimeline/structures.py:139-153 | the cache stays consistent through any run of fetches |
| Eras.FetchAllSized | pytimeline/structures.py:139-153 | the number of marker definitions is twice the number of distinct colours |
| Eras.EraStep | pytimeline/structures.py:95-137 | one era's fetch gives the cache of all eras so far, and its elements follow the earlier eras' |
| Eras.EraRunShape | pytimeline/structures.py:95-137 | every era is drawn, in the window or not: five elements each, in order, with the pair cached for its colour |
| Eras.BoundariesNext | pytimeline/structures.py:175-180 | proof step: unfolds the era boundary dates by one era, its start and then its end |
| Eras.EraShapes | pytimeline/structures.py:109-137 | the five elements of an era between two pixels: band, two dashed lines, arrow and centred name |
| Eras.EraElements | pytimeline/structures.py:105-137 | an era's five elements at the pixels of its start and end, with no window clipping |
| Eras.EraColor | pytimeline/structures.py:100 | an era's colour: its fourth entry, gray when absent |
| Eras.EraRun | pytimeline/structures.py:95-137 | the elements the `_create_eras` loop appends: each era's five, in order, with the pair cached for its colour |
| Eras.EraBoundaries | pytimeline/structures.py:175-180 | the dates `_create_era_axis_labels` labels: each era's start, then its end |
| Timelines.AxisOffsetAsWritten | pytimeline/structures.py:71-72 | `y_axis` as written: it raises without a `callouts` key, is `-inf` when `min_y` is `+inf`, and is `y_era + Callout.height - min_y` otherwise |
| Timelines.AxisOffsetAsWrittenFails | pytimeline/structures.py:71-72 | without a `callouts` key the offset raises, and with every callout out of the window it is `-inf`; the corrected offset is finite in both cases |
| Timelines.AxisOffset | pytimeline/structures.py:72 | the corrected offset agrees with the written one wherever that one is finite, and is `y_era + Callout.height` when no callout is drawn |
| Timelines.AxisLine | pytimeline/structures.py:157 | the main axis: a black line from `(0, 0)` to `(width, 0)` |
| Timelines.CalloutsClearEraLabels | pytimeline/structures.py:72 | every drawn callout's label sits at least `Callout.height` below the era labels and the highest one exactly there; `y_axis >= 40` when a callout is drawn |
| Timelines.Timeline.CanvasHeightCoversLabels | pytimeline/structures.py:73-75 | every in-window tick and callout date's label, hanging below the axis at `y_axis`, ends at least the margin above `CanvasHeight`, the height `build` sets |
| Timelines.Timeline.constructor | pytimeline/structures.py:33-59 | the parameters come from the description (`tick_format` defaults to `DATE_FORMAT`), the window is padded, and the cache, label height and drawing start empty |
| Timelines.Timeline.Valid | pytimeline/structures.py:40-59 | the parameters are those of the description, `tick_format` defaults to `DATE_FORMAT`, the window is the padded span, and the marker cache is consistent with the definitions |
| Timelines.Timeline.Placements | pytimeline/structures.py:212-275 | the callouts `_create_callouts` draws: none without a `callouts` key, else the layout of the pop order |
| Timelines.Timeline.CalloutExtent | pytimeline/structures.py:212-275 | what `_create_callouts` returns: `None` without a `callouts` key, else `min_y` of the drawn callouts |
| Timelines.Timeline.AxisLabelHeight | pytimeline/structures.py:74 | `max_label_height` when `build` reads it: the maximum over the main axis labels and then the callouts' date labels |
| Timelines.Timeline.AddAxisLabel | pytimeline/structures.py:182-210 | an out-of-window date adds nothing and leaves the height; otherwise the label (after a tick when asked) is appended and its height folded into the maximum |
| Timelines.Timeline.CreateMainAxis | pytimeline/structures.py:155-169 | the axis line, then the labels of start, end and the interior ticks, with the maximum over them; a zero span stops after the line |
| Timelines.Timeline.AddInteriorTicks | pytimeline/structures.py:163-169 | the loop labels ticks `1 .. num_ticks - 1` in order |
| Timelines.Timeline.CreateCallouts | pytimeline/structures.py:212-275 | returns `None` without a `callouts` key, otherwise `min_y` of the drawn callouts; appends the elements of the layout of the reference order |
| Timelines.Timeline.DrawCallouts | pytimeline/structures.py:217-235 | grouping, sorting and popping draw the layout of the reference order and return its `min_y` |
| Timelines.Timeline.PopAndPlace | pytimeline/structures.py:233-275 | the drawing loop pops every callout once, in the reference order, and draws its layout |
| Timelines.Timeline.PlaceCallout | pytimeline/structures.py:236-274 | one iteration skips an out-of-window callout; otherwise it pushes the pixel and the scanned level onto `prev_x` and `prev_level`, lowers `min_y` and draws the callout |
| Timelines.Timeline.DrawCallout | pytimeline/structures.py:253-272 | the leader path, the name, the date's untick'd label and the circle are appended, and the label height is folded in |
| Timelines.Timeline.GetMarkers | pytimeline/structures.py:139-153 | the arrowhead cache behaves as `Fetch` and stays consistent |
| Timelines.Timeline.CreateEras | pytimeline/structures.py:89-137 | every era is drawn in order with its colour's cached arrowheads, and the cache holds every era colour |
| Timelines.Timeline.DrawEra | pytimeline/structures.py:95-137 | one era's iteration extends the cache and the drawn eras by that era |
| Timelines.Timeline.AddEraShapes | pytimeline/structures.py:105-137 | the band, the two dashed lines, the arrow and the name of the era are appended |
| Timelines.Timeline.CreateEraAxisLabels | pytimeline/structures.py:171-180 | each era's start and end get an untick'd black label, when in the window |
| Timelines.Timeline.CanvasHeight | pytimeline/structures.py:73-75 | the height `build` sets: the axis offset plus the label maximum reached by the main axis and the callouts plus the margin |
| Timelines.Timeline.Build | pytimeline/structures.py:66-80 | main axis, callouts, eras, era labels and the translated axis group, in that order; the height is computed before the era labels; a zero span stops after the axis line |

## Left out

- Font measurement through tkinter (lines 277-286) and its `fonts` cache: text width is the injected `textWidth`.
- Date parsing and formatting with pendulum: timestamps are whole seconds and labels come from the injected `format`. The sub-second parts of the padding and of an interior tick are dropped, where the source keeps them and truncates only each duration it converts to seconds.
- Floating-point arithmetic: the fraction and the padding are computed exactly with integers, so rounding at exact `.5` boundaries follows real arithmetic.
- SVG styling: stroke widths, dash patterns, opacity, fonts, the rotation transform, and marker size and path geometry beyond the insert point.
- JSON loading and the input checks of `pytimeline/utils.py` (which only log), `save`, `to_string`, logging, `pytimeline/__main__.py` and `pytimeline/__init__.py`.
- The unused local `markers = {}` in `_create_eras` (line 94) has no effect and is not modelled.
- Timelines.Timeline.Build: uses the corrected `AxisOffset` (see Findings) where the source raises or produces an infinite offset.

## Findings

| source | as written | input that shows it | evidently intended | confidence | as-written member | corrected member |
|---|---|---|---|---|---|---|
| pytimeline/structures.py:213-214 | without a `callouts` key `_create_callouts` returns `None`, and `y_era + Callout.height - None` in `build` (line 72) raises a TypeError | a description with only `width`, `start` and `end` | the axis sits `Callout.height` below the era labels when there are no callouts | not executed | Timelines.AxisOffsetAsWrittenFails | Timelines.AxisOffset |
| pytimeline/structures.py:218 | when no callout falls in the window, `min_y` stays `float("inf")` (line 251), so `y_axis` and the height are `-inf` | a single callout dated long before `start` | the same offset as with no callouts | not executed | Timelines.AxisOffsetAsWritten | Timelines.CalloutsClearEraLabels |

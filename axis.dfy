/** The axis and tick renderer: what `_add_axis_label` adds for one date,
    the dates `_create_main_axis` labels, and the running maximum label
    height. */
module Axis {
  import opened Wrappers
  import opened Input
  import opened Drawing
  import opened Coordinates

  /** What every placement needs: the canvas width, the window, and the two
      injected capabilities, text measurement (in place of the GUI
      toolkit's font metrics) and `format(DATE_FORMAT)`. */
  datatype Geometry = Geometry(width: int, window: Window, textWidth: string -> nat, format: int -> string)

  /** Half the length of a tick mark (`dy` in `_add_axis_label`). */
  const TICK_DY: int := 5

  /** What `_add_axis_label` adds for an in-window date at pixel `x`: a tick
      line when asked for, then the rotated label. */
  function LabelElements(x: int, text: string, tick: bool, fill: Color): seq<Element> {
    (if tick then [Line(P(x, -TICK_DY), P(x, TICK_DY), BLACK, false)] else [])
    + [Text(text, P(x, -2 * TICK_DY), fill, AnchorEnd, true)]
  }

  /** The room a rotated label needs below the axis: its measured width plus `2 * dy`. */
  function LabelHeight(g: Geometry, text: string): int {
    g.textWidth(text) + 2 * TICK_DY
  }

  function Max(a: int, b: int): int {
    if a >= b then a else b
  }

  /** What one `_add_axis_label` call for `t` and `text` adds: nothing
      when `t` is outside the window. */
  function LabelAt(g: Geometry, t: int, text: string, tick: bool, fill: Color): (es: seq<Element>)
    requires g.window.totalSeconds != 0
    ensures |es| == if !InWindow(g.window, t) then 0 else if tick then 2 else 1
  {
    if InWindow(g.window, t) then LabelElements(PixelX(g.window, g.width, t), text, tick, fill) else []
  }

  /** `max_label_height` after one `_add_axis_label` call for `t` and
      `text`, from `h`: unchanged when `t` is outside the window. */
  function HeightAt(g: Geometry, h: int, t: int, text: string): (r: int)
    requires g.window.totalSeconds != 0
    ensures r >= h && (r == h || r == LabelHeight(g, text))
    ensures InWindow(g.window, t) ==> r >= LabelHeight(g, text)
    ensures !InWindow(g.window, t) ==> r == h
  {
    if InWindow(g.window, t) then Max(h, LabelHeight(g, text)) else h
  }

  /** The elements `_add_axis_label` adds, call after call, for `dates`. */
  function AxisLabels(g: Geometry, dates: seq<int>, tick: bool, fill: Color): seq<Element>
    requires g.window.totalSeconds != 0
  {
    if dates == [] then []
    else
      var t := dates[|dates| - 1];
      AxisLabels(g, dates[..|dates| - 1], tick, fill) + LabelAt(g, t, g.format(t), tick, fill)
  }

  /** `max_label_height` after `_add_axis_label` has run for `dates`, from `h0`. */
  function MaxLabelHeight(g: Geometry, h0: int, dates: seq<int>): int
    requires g.window.totalSeconds != 0
  {
    if dates == [] then h0
    else
      var t := dates[|dates| - 1];
      HeightAt(g, MaxLabelHeight(g, h0, dates[..|dates| - 1]), t, g.format(t))
  }

  /** One more `_add_axis_label` call: its elements are appended, and its
      height folded in, exactly when the date is in the window. */
  lemma LabelSnoc(g: Geometry, h0: int, dates: seq<int>, t: int, text: string, tick: bool, fill: Color)
    requires g.window.totalSeconds != 0 && text == g.format(t)
    ensures AxisLabels(g, dates + [t], tick, fill) == AxisLabels(g, dates, tick, fill) + LabelAt(g, t, text, tick, fill)
    ensures MaxLabelHeight(g, h0, dates + [t]) == HeightAt(g, MaxLabelHeight(g, h0, dates), t, text)
  {
    assert (dates + [t])[..|dates|] == dates;
  }

  /** One `_add_axis_label` call for `t` extends the labels of `dates`,
      drawn after `base`, and the running maximum from `h0` over them, to
      those of `dates + [t]`. */
  lemma LabelStep(g: Geometry, h0: int, base: seq<Element>, dates: seq<int>, t: int, text: string, tick: bool, fill: Color,
                  before: seq<Element>, after: seq<Element>, hBefore: int, hAfter: int)
    requires g.window.totalSeconds != 0 && text == g.format(t)
    requires before == base + AxisLabels(g, dates, tick, fill) && after == before + LabelAt(g, t, text, tick, fill)
    requires hBefore == MaxLabelHeight(g, h0, dates) && hAfter == HeightAt(g, hBefore, t, text)
    ensures after == base + AxisLabels(g, dates + [t], tick, fill)
    ensures hAfter == MaxLabelHeight(g, h0, dates + [t])
  {
    LabelSnoc(g, h0, dates, t, text, tick, fill);
    AppendAssoc(base, AxisLabels(g, dates, tick, fill), LabelAt(g, t, text, tick, fill));
  }

  /** How many of `dates` fall in the window. */
  function InWindowCount(g: Geometry, dates: seq<int>): nat
    requires g.window.totalSeconds != 0
  {
    if dates == [] then 0
    else InWindowCount(g, dates[..|dates| - 1]) + (if InWindow(g.window, dates[|dates| - 1]) then 1 else 0)
  }

  /** How many elements of `es` satisfy `p`. */
  function CountWhere(es: seq<Element>, p: Element -> bool): nat {
    if es == [] then 0
    else CountWhere(es[..|es| - 1], p) + (if p(es[|es| - 1]) then 1 else 0)
  }

  predicate IsAxisText(e: Element) {
    e.Text? && e.vertical
  }

  predicate IsLine(e: Element) {
    e.Line?
  }

  lemma {:induction false} CountWhereAppend(a: seq<Element>, b: seq<Element>, p: Element -> bool)
    ensures CountWhere(a + b, p) == CountWhere(a, p) + CountWhere(b, p)
    decreases |b|
  {
    if b != [] {
      assert (a + b)[..|a + b| - 1] == a + b[..|b| - 1];
      CountWhereAppend(a, b[..|b| - 1], p);
    } else {
      assert a + b == a;
    }
  }

  lemma LabelElementsCount(x: int, text: string, tick: bool, fill: Color)
    ensures CountWhere(LabelElements(x, text, tick, fill), IsAxisText) == 1
    ensures CountWhere(LabelElements(x, text, tick, fill), IsLine) == if tick then 1 else 0
  {
    var es := LabelElements(x, text, tick, fill);
    if tick {
      assert es[..1] == [es[0]] && es[..1][..0] == [];
      assert es[0].Line? && es[1].Text? && es[1].vertical;
      assert !IsLine(es[1]) && IsAxisText(es[1]) && IsLine(es[0]) && !IsAxisText(es[0]);
      assert CountWhere(es[..1], IsLine) == 1 && CountWhere(es[..1], IsAxisText) == 0;
    } else {
      assert es[..0] == [];
    }
  }

  /** Every in-window date gets exactly one rotated label, and a tick line
      exactly when ticks are asked for; out-of-window dates get nothing. */
  lemma {:induction false} AxisLabelsCount(g: Geometry, dates: seq<int>, tick: bool, fill: Color)
    requires g.window.totalSeconds != 0
    ensures CountWhere(AxisLabels(g, dates, tick, fill), IsAxisText) == InWindowCount(g, dates)
    ensures CountWhere(AxisLabels(g, dates, tick, fill), IsLine) == if tick then InWindowCount(g, dates) else 0
    ensures |AxisLabels(g, dates, tick, fill)| == (if tick then 2 else 1) * InWindowCount(g, dates)
    decreases |dates|
  {
    if dates != [] {
      var init, t := dates[..|dates| - 1], dates[|dates| - 1];
      AxisLabelsCount(g, init, tick, fill);
      var tail := LabelAt(g, t, g.format(t), tick, fill);
      CountWhereAppend(AxisLabels(g, init, tick, fill), tail, IsAxisText);
      CountWhereAppend(AxisLabels(g, init, tick, fill), tail, IsLine);
      if InWindow(g.window, t) {
        LabelElementsCount(PixelX(g.window, g.width, t), g.format(t), tick, fill);
      }
    }
  }

  /** When every date is in the window, each one is counted. */
  lemma {:induction false} InWindowCountAll(g: Geometry, dates: seq<int>)
    requires g.window.totalSeconds != 0
    requires forall i :: 0 <= i < |dates| ==> InWindow(g.window, dates[i])
    ensures InWindowCount(g, dates) == |dates|
    decreases |dates|
  {
    if dates != [] {
      InWindowCountAll(g, dates[..|dates| - 1]);
    }
  }

  /** `max_label_height` never decreases, covers every in-window label, and
      is either its old value or the height of one of those labels. */
  lemma {:induction false} MaxLabelHeightIsMax(g: Geometry, h0: int, dates: seq<int>)
    requires g.window.totalSeconds != 0
    ensures MaxLabelHeight(g, h0, dates) >= h0
    ensures forall i :: 0 <= i < |dates| && InWindow(g.window, dates[i]) ==>
      MaxLabelHeight(g, h0, dates) >= LabelHeight(g, g.format(dates[i]))
    ensures MaxLabelHeight(g, h0, dates) == h0 ||
      (exists i :: 0 <= i < |dates| && InWindow(g.window, dates[i]) &&
        MaxLabelHeight(g, h0, dates) == LabelHeight(g, g.format(dates[i])))
    decreases |dates|
  {
    if dates != [] {
      var init := dates[..|dates| - 1];
      MaxLabelHeightIsMax(g, h0, init);
      var h := MaxLabelHeight(g, h0, init);
      if MaxLabelHeight(g, h0, dates) != h0 && MaxLabelHeight(g, h0, dates) == h {
        var i :| 0 <= i < |init| && InWindow(g.window, init[i]) && h == LabelHeight(g, g.format(init[i]));
        assert dates[i] == init[i];
      }
    }
  }

  /** Labelling `a` and then `b` folds the heights of `b` into the maximum
      reached over `a`. */
  lemma {:induction false} MaxLabelHeightAppend(g: Geometry, h0: int, a: seq<int>, b: seq<int>)
    requires g.window.totalSeconds != 0
    ensures MaxLabelHeight(g, h0, a + b) == MaxLabelHeight(g, MaxLabelHeight(g, h0, a), b)
    decreases |b|
  {
    if b == [] {
      assert a + b == a;
    } else {
      assert (a + b)[..|a + b| - 1] == a + b[..|b| - 1];
      MaxLabelHeightAppend(g, h0, a, b[..|b| - 1]);
    }
  }

  /** The `j`-th interior tick, `start.add(seconds=j * seconds / num_ticks)`,
      its sub-second part dropped. */
  function InteriorTick(start: int, span: int, n: int, j: int): int
    requires n > 0
  {
    start + TruncDiv(j * span, n)
  }

  /** The first `m` interior ticks, j = 1 .. m. */
  function InteriorTicks(start: int, span: int, n: int, m: nat): seq<int>
    requires n > 0
  {
    if m == 0 then [] else InteriorTicks(start, span, n, m - 1) + [InteriorTick(start, span, n, m)]
  }

  /** The dates `_create_main_axis` labels, in order: start, end, then the
      interior ticks for j in `range(1, num_ticks)` when `num_ticks` is given. */
  function TickDates(start: int, end: int, numTicks: Option<int>): seq<int> {
    if numTicks.Some? && numTicks.value > 1 then TickPrefix(start, end, numTicks.value, numTicks.value - 1)
    else [start, end]
  }

  /** Start, end and the first `m` interior ticks. */
  function TickPrefix(start: int, end: int, n: int, m: nat): seq<int>
    requires n > 0
  {
    [start, end] + InteriorTicks(start, end - start, n, m)
  }

  /** Tick `m` follows the first `m - 1` in the labelled dates. */
  lemma TickPrefixNext(start: int, end: int, n: int, m: nat)
    requires n > 0 && m >= 1
    ensures TickPrefix(start, end, n, m) == TickPrefix(start, end, n, m - 1) + [InteriorTick(start, end - start, n, m)]
  {
    AppendAssoc([start, end], InteriorTicks(start, end - start, n, m - 1), [InteriorTick(start, end - start, n, m)]);
  }

  /** The start and end labels. */
  lemma FirstTwoLabels(g: Geometry, h0: int, start: int, end: int, tick: bool, fill: Color)
    requires g.window.totalSeconds != 0
    ensures AxisLabels(g, [start], tick, fill) == LabelAt(g, start, g.format(start), tick, fill)
    ensures AxisLabels(g, [start, end], tick, fill) == AxisLabels(g, [start], tick, fill) + LabelAt(g, end, g.format(end), tick, fill)
    ensures MaxLabelHeight(g, h0, [start]) == HeightAt(g, h0, start, g.format(start))
    ensures MaxLabelHeight(g, h0, [start, end]) == HeightAt(g, MaxLabelHeight(g, h0, [start]), end, g.format(end))
  {
    assert [start][..0] == [];
    assert [start, end][..1] == [start];
  }

  /** With no interior tick the prefix is just start and end. */
  lemma TickPrefixZero(start: int, end: int, n: int)
    requires n > 0
    ensures TickPrefix(start, end, n, 0) == [start, end]
  {
    assert [start, end] + [] == [start, end];
  }

  function InteriorCount(numTicks: Option<int>): nat {
    if numTicks.Some? && numTicks.value > 1 then numTicks.value - 1 else 0
  }

  lemma {:induction false} InteriorTicksAt(start: int, span: int, n: int, m: nat)
    requires n > 0
    ensures |InteriorTicks(start, span, n, m)| == m
    ensures forall j :: 1 <= j <= m ==> InteriorTicks(start, span, n, m)[j - 1] == InteriorTick(start, span, n, j)
  {
    if m > 0 {
      InteriorTicksAt(start, span, n, m - 1);
    }
  }

  /** Start and end are labelled first, then exactly `max(0, num_ticks - 1)`
      interior ticks at `start + j * span / num_ticks`. */
  lemma TickDatesShape(start: int, end: int, numTicks: Option<int>)
    ensures |TickDates(start, end, numTicks)| == 2 + InteriorCount(numTicks)
    ensures TickDates(start, end, numTicks)[0] == start && TickDates(start, end, numTicks)[1] == end
    ensures numTicks.Some? ==> forall k :: 2 <= k < |TickDates(start, end, numTicks)| ==>
      TickDates(start, end, numTicks)[k] == InteriorTick(start, end - start, numTicks.value, k - 1)
  {
    if numTicks.Some? && numTicks.value > 1 {
      InteriorTicksAt(start, end - start, numTicks.value, numTicks.value - 1);
    }
  }

  /** An interior tick lies between start and end. */
  lemma InteriorTickBetween(start: int, span: int, n: int, j: int)
    requires n > 0 && 0 <= j <= n
    ensures span >= 0 ==> start <= InteriorTick(start, span, n, j) <= start + span
    ensures span < 0 ==> start + span <= InteriorTick(start, span, n, j) <= start
  {
    if span >= 0 {
      MulMonotone(0, j, span);
      MulMonotone(j, n, span);
      TruncDivMonotone(0, j * span, n);
      TruncDivMonotone(j * span, n * span, n);
      QuotientUnique(0, n, 0);
      QuotientUnique(n * span, n, span);
    } else {
      MulMonotone(0, j, -span);
      MulMonotone(j, n, -span);
      assert j * span == -(j * (-span)) && n * span == -(n * (-span));
      TruncDivMonotone(j * span, 0, n);
      TruncDivMonotone(n * span, j * span, n);
      QuotientUnique(0, n, 0);
      QuotientUnique(n * (-span), n, -span);
    }
  }

  /** Every timestamp between start and end lies in the padded window. */
  lemma BetweenInWindow(start: int, end: int, t: int)
    requires start != end
    requires (start <= t <= end) || (end <= t <= start)
    ensures InWindow(MakeWindow(start, end), t)
  {
  }

  /** With a non-empty span every tick date is in the window, so the axis
      gets exactly `2 + max(0, num_ticks - 1)` labels and as many ticks. */
  lemma {:induction false} MainAxisLabelCount(g: Geometry, start: int, end: int, numTicks: Option<int>)
    requires start != end && g.window == MakeWindow(start, end)
    ensures var es := AxisLabels(g, TickDates(start, end, numTicks), true, GRAY);
      CountWhere(es, IsAxisText) == 2 + InteriorCount(numTicks)
      && CountWhere(es, IsLine) == 2 + InteriorCount(numTicks)
  {
    var dates := TickDates(start, end, numTicks);
    TickDatesShape(start, end, numTicks);
    forall i | 0 <= i < |dates|
      ensures InWindow(g.window, dates[i])
    {
      if i >= 2 {
        InteriorTickBetween(start, end - start, numTicks.value, i - 1);
      }
      BetweenInWindow(start, end, dates[i]);
    }
    InWindowCountAll(g, dates);
    AxisLabelsCount(g, dates, true, GRAY);
  }
}

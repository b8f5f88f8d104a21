/** The `Timeline` object: its parameters, the mutable drawing state, and
    the build pipeline that fills it (main axis, callouts, eras, era labels,
    then the axis group placed at `y_axis` and the canvas height). */
module Timelines {
  import opened Wrappers
  import opened Input
  import opened Drawing
  import opened Coordinates
  import opened Axis
  import opened CalloutOrder
  import opened CalloutLevels
  import opened Eras

  /** The main axis: a black line from `(0, 0)` to `(width, 0)`. */
  function AxisLine(width: int): Element {
    Line(P(0, 0), P(width, 0), BLACK, false)
  }

  /** `y_axis = y_era + Callout.height - y_callouts` as written. `y_callouts`
      is what `_create_callouts` returns: nothing without a `callouts` key,
      else `min_y`. The result is `None` where the subtraction raises (no
      number to subtract), and an infinity where `min_y` stayed infinite. */
  function AxisOffsetAsWritten(yEra: int, yCallouts: Option<Ext>): (r: Option<Ext>)
    ensures r.None? <==> yCallouts.None?
    ensures yCallouts == Some(PosInf) ==> r == Some(NegInf)
    ensures forall y :: yCallouts == Some(Fin(y)) ==> r == Some(Fin(yEra + CALLOUT_HEIGHT - y))
  {
    match yCallouts
    case None => None
    case Some(NegInf) => Some(PosInf)
    case Some(Fin(y)) => Some(Fin(yEra + CALLOUT_HEIGHT - y))
    case Some(PosInf) => Some(NegInf)
  }

  /** `y_axis` as intended: the highest drawn callout's label clears the
      era labels by `Callout.height`; with no drawn callout (no key, or none
      in the window) the axis sits `Callout.height` below the era labels. */
  function AxisOffset(yEra: int, yCallouts: Option<Ext>): (r: int)
    ensures AxisOffsetAsWritten(yEra, yCallouts).Some? && AxisOffsetAsWritten(yEra, yCallouts).value.Fin?
            ==> r == AxisOffsetAsWritten(yEra, yCallouts).value.v
    ensures !(yCallouts.Some? && yCallouts.value.Fin?) ==> r == yEra + CALLOUT_HEIGHT
  {
    if yCallouts.Some? && yCallouts.value.Fin? then yEra + CALLOUT_HEIGHT - yCallouts.value.v
    else yEra + CALLOUT_HEIGHT
  }

  /** A description without a `callouts` key makes the as-written build
      raise, and one whose callouts all fall outside the window gives an
      infinite axis offset; both are fine for the corrected offset. */
  lemma AxisOffsetAsWrittenFails(g: Geometry, order: seq<Callout>)
    requires g.window.totalSeconds != 0 && forall i :: 0 <= i < |order| ==> !InWindow(g.window, order[i].time)
    ensures AxisOffsetAsWritten(Y_ERA, None).None?
    ensures AxisOffsetAsWritten(Y_ERA, Some(MinY(Layout(g, order)))) == Some(NegInf)
    ensures AxisOffset(Y_ERA, None) == AxisOffset(Y_ERA, Some(MinY(Layout(g, order)))) == Y_ERA + CALLOUT_HEIGHT
  {
    LayoutOutsideWindow(g, order);
  }

  /** What the corrected offset achieves: every drawn callout's label, at
      `y_axis + y`, sits at least `Callout.height` below the era labels and
      the highest one exactly there; so the axis sits at least two callout
      heights below them when a callout is drawn, one when none is. */
  lemma CalloutsClearEraLabels(ps: seq<Placed>)
    ensures forall i :: 0 <= i < |ps| ==>
      AxisOffset(Y_ERA, Some(MinY(ps))) + CalloutY(ps[i].level) >= Y_ERA + CALLOUT_HEIGHT
    ensures ps != [] ==>
      (exists i :: 0 <= i < |ps| && AxisOffset(Y_ERA, Some(MinY(ps))) + CalloutY(ps[i].level) == Y_ERA + CALLOUT_HEIGHT)
    ensures ps != [] ==> AxisOffset(Y_ERA, Some(MinY(ps))) >= Y_ERA + 2 * CALLOUT_HEIGHT
    ensures ps == [] ==> AxisOffset(Y_ERA, Some(MinY(ps))) == Y_ERA + CALLOUT_HEIGHT
  {
    MinYIsHighest(ps);
  }

  /** `4 * text_fudge[1]`: the margin added below the tallest label. */
  const HEIGHT_MARGIN: int := 6

  class Timeline {
    /** The description, and the parameters `__init__` reads from it. */
    const data: Config
    const width: int
    const tickFormat: string
    const startDate: int
    const endDate: int
    /** `date0`, `date1` and `total_seconds`. */
    const window: Window
    /** Font metrics and date formatting, supplied from outside. */
    const textWidth: string -> nat
    const format: int -> string

    /** The arrowhead cache, keyed by colour. */
    var markers: map<Color, MarkerPair>
    /** The running maximum of the axis label heights. */
    var maxLabelHeight: int
    /** The drawing's definitions (the arrowheads) and top-level elements. */
    var defs: seq<Element>
    var elements: seq<Element>
    /** The axis group's children. */
    var gAxis: seq<Element>
    /** The drawing's height, set at the end of `build`. */
    var height: Option<int>

    function Geo(): Geometry {
      Geometry(width, window, textWidth, format)
    }

    ghost predicate Valid()
      reads this`markers, this`defs
    {
      && width == data.width && startDate == data.start && endDate == data.end
      && tickFormat == data.tickFormat.GetOr(DATE_FORMAT)
      && window == MakeWindow(startDate, endDate)
      && CacheValid(Cache(markers, defs))
    }

    /** The eras of the description (none without the key). */
    function EraList(): seq<EraSpec> {
      data.eras.GetOr([])
    }

    /** The callouts drawn, in drawing order, with their pixels and levels. */
    function Placements(): seq<Placed>
      requires window.totalSeconds != 0
    {
      if data.callouts.None? then [] else Layout(Geo(), ProcessOrder(ResolveAll(data.callouts.value)))
    }

    /** What `_create_callouts` returns. */
    function CalloutExtent(): Option<Ext>
      requires window.totalSeconds != 0
    {
      if data.callouts.None? then None else Some(MinY(Placements()))
    }

    constructor (data: Config, textWidth: string -> nat, format: int -> string)
      ensures Valid()
      ensures this.data == data && this.textWidth == textWidth && this.format == format
      ensures markers == map[] && maxLabelHeight == 0 && defs == [] && elements == [] && gAxis == []
      ensures height == None
    {
      this.data := data;
      this.textWidth := textWidth;
      this.format := format;
      width := data.width;
      tickFormat := data.tickFormat.GetOr(DATE_FORMAT);
      startDate := data.start;
      endDate := data.end;
      var padding := Padding(data.end - data.start);
      var date0 := data.start - padding;
      var date1 := data.end + padding;
      window := Window(date0, date1, date1 - date0);
      markers := map[];
      maxLabelHeight := 0;
      defs := [];
      elements := [];
      gAxis := [];
      height := None;
    }

    /** `_add_axis_label`: nothing for a date outside the window; otherwise
        the label (after a tick when asked) at the date's pixel, and the
        label's height folded into the running maximum. */
    method AddAxisLabel(dt: int, text: string, tick: bool, fill: Color)
      requires window.totalSeconds != 0
      modifies this`gAxis, this`maxLabelHeight
      ensures gAxis == old(gAxis) + LabelAt(Geo(), dt, text, tick, fill)
      ensures maxLabelHeight == HeightAt(Geo(), old(maxLabelHeight), dt, text)
    {
      if !InWindow(window, dt) {
        assert gAxis == gAxis + [];
        return;
      }
      var dy := TICK_DY;
      var x := PixelX(window, width, dt);
      if tick {
        gAxis := gAxis + [Line(P(x, -dy), P(x, dy), BLACK, false)];
      }
      gAxis := gAxis + [Text(text, P(x, -2 * dy), fill, AnchorEnd, true)];
      var h := textWidth(text) + 2 * dy;
      maxLabelHeight := Max(maxLabelHeight, h);
    }

    /** `_create_main_axis`: the axis line, then the start, end and interior
        tick labels. With a zero span the first label divides by zero:
        `ok` is false and only the line was added. */
    method CreateMainAxis() returns (ok: bool)
      modifies this`gAxis, this`maxLabelHeight
      ensures ok == (window.totalSeconds != 0)
      ensures !ok ==> gAxis == old(gAxis) + [AxisLine(width)] && maxLabelHeight == old(maxLabelHeight)
      ensures ok ==>
        gAxis == old(gAxis) + [AxisLine(width)] + AxisLabels(Geo(), TickDates(startDate, endDate, data.numTicks), true, GRAY)
        && maxLabelHeight == MaxLabelHeight(Geo(), old(maxLabelHeight), TickDates(startDate, endDate, data.numTicks))
    {
      gAxis := gAxis + [AxisLine(width)];
      if window.totalSeconds == 0 {
        return false;
      }
      ghost var base := gAxis;
      ghost var h0 := maxLabelHeight;
      FirstTwoLabels(Geo(), h0, startDate, endDate, true, GRAY);
      AddAxisLabel(startDate, format(startDate), true, GRAY);
      AppendAssoc(base, AxisLabels(Geo(), [startDate], true, GRAY), LabelAt(Geo(), endDate, format(endDate), true, GRAY));
      AddAxisLabel(endDate, format(endDate), true, GRAY);
      if data.numTicks.Some? && data.numTicks.value > 1 {
        AddInteriorTicks(data.numTicks.value, base, h0);
      }
      return true;
    }

    /** The loop over `range(1, num_ticks)`: tick `j` at `j * seconds /
        num_ticks` seconds after the start, for `j` from 1 to `num_ticks - 1`. */
    method AddInteriorTicks(numTicks: int, ghost base: seq<Element>, ghost h0: int)
      requires window.totalSeconds != 0 && numTicks > 1
      requires gAxis == base + AxisLabels(Geo(), [startDate, endDate], true, GRAY)
      requires maxLabelHeight == MaxLabelHeight(Geo(), h0, [startDate, endDate])
      modifies this`gAxis, this`maxLabelHeight
      ensures gAxis == base + AxisLabels(Geo(), TickPrefix(startDate, endDate, numTicks, numTicks - 1), true, GRAY)
      ensures maxLabelHeight == MaxLabelHeight(Geo(), h0, TickPrefix(startDate, endDate, numTicks, numTicks - 1))
    {
      var seconds := endDate - startDate;
      TickPrefixZero(startDate, endDate, numTicks);
      ghost var ds := [startDate, endDate];
      for j := 1 to numTicks
        invariant ds == TickPrefix(startDate, endDate, numTicks, j - 1)
        invariant gAxis == base + AxisLabels(Geo(), ds, true, GRAY)
        invariant maxLabelHeight == MaxLabelHeight(Geo(), h0, ds)
      {
        var tickmark := InteriorTick(startDate, seconds, numTicks, j);
        TickPrefixNext(startDate, endDate, numTicks, j);
        ghost var g1, h1 := gAxis, maxLabelHeight;
        AddAxisLabel(tickmark, format(tickmark), true, GRAY);
        LabelStep(Geo(), h0, base, ds, tickmark, format(tickmark), true, GRAY, g1, gAxis, h1, maxLabelHeight);
        ds := ds + [tickmark];
      }
    }

    /** `_create_callouts`: nothing without a `callouts` key; otherwise the
        callouts are drawn in the order of the pops (ascending time, latest
        declared first within a timestamp), each in-window one at the level
        of the backward scan, and `min_y` of the drawn ones is returned. */
    method CreateCallouts() returns (yCallouts: Option<Ext>)
      requires window.totalSeconds != 0
      modifies this`gAxis, this`maxLabelHeight
      ensures yCallouts == CalloutExtent()
      ensures gAxis == old(gAxis) + AllCalloutElements(Geo(), Placements())
      ensures maxLabelHeight == MaxLabelHeight(Geo(), old(maxLabelHeight), PlacedTimes(Placements()))
    {
      if data.callouts.None? {
        return None;
      }
      yCallouts := DrawCallouts(data.callouts.value);
    }

    /** `_create_callouts` with a `callouts` key: group the callouts by
        timestamp, sort the timestamps, then pop and draw. */
    method DrawCallouts(calloutsData: seq<CalloutSpec>) returns (yCallouts: Option<Ext>)
      requires window.totalSeconds != 0
      modifies this`gAxis, this`maxLabelHeight
      ensures var ps := Layout(Geo(), ProcessOrder(ResolveAll(calloutsData)));
        && yCallouts == Some(MinY(ps))
        && gAxis == old(gAxis) + AllCalloutElements(Geo(), ps)
        && maxLabelHeight == MaxLabelHeight(Geo(), old(maxLabelHeight), PlacedTimes(ps))
    {
      ghost var rs := ResolveAll(calloutsData);
      var sortedDates, invCallouts := GroupByTime(calloutsData);
      PendingGroupsStart(rs, invCallouts);
      sortedDates := SortInts(sortedDates);
      var minY := PopAndPlace(sortedDates, invCallouts, rs);
      yCallouts := Some(minY);
    }

    /** The drawing loop of `_create_callouts`: for each sorted timestamp,
        pop the latest remaining callout under it and place it. */
    method PopAndPlace(sortedDates: seq<int>, inv: map<int, seq<Callout>>, ghost rs: seq<Callout>) returns (minY: Ext)
      requires window.totalSeconds != 0
      requires SortedInts(sortedDates) && multiset(sortedDates) == multiset(Times(rs))
      requires PendingGroups([], rs, inv)
      modifies this`gAxis, this`maxLabelHeight
      ensures var ps := Layout(Geo(), ProcessOrder(rs));
        && minY == MinY(ps)
        && gAxis == old(gAxis) + AllCalloutElements(Geo(), ps)
        && maxLabelHeight == MaxLabelHeight(Geo(), old(maxLabelHeight), PlacedTimes(ps))
    {
      minY := PosInf;
      var invCallouts := inv;
      var prevX: seq<Ext> := [NegInf];
      var prevLevel: seq<int> := [-1];
      ghost var popped: seq<Callout> := [];
      ghost var ps: seq<Placed> := [];
      ghost var g0 := gAxis;
      ghost var h0 := maxLabelHeight;
      assert g0 + [] == g0;
      for n := 0 to |sortedDates|
        invariant Times(popped) == sortedDates[..n]
        invariant PendingGroups(popped, rs, invCallouts)
        invariant ps == Layout(Geo(), popped)
        invariant Drawn(ps, prevX, prevLevel, minY, g0, h0)
      {
        var eventDate := sortedDates[n];
        PopNext(popped, rs, invCallouts, sortedDates, n);
        var group := invCallouts[eventDate];
        var item := group[|group| - 1];
        invCallouts := invCallouts[eventDate := group[..|group| - 1]];
        LayoutSnoc(Geo(), popped, item);
        popped := popped + [item];
        prevX, prevLevel, minY := PlaceCallout(item, prevX, prevLevel, minY, ps, g0, h0);
        ps := PlaceNext(Geo(), ps, item);
      }
      assert sortedDates[..|sortedDates|] == sortedDates;
      PopsAreProcessOrder(popped, rs, invCallouts, sortedDates);
    }

    /** The state the drawing loop of `_create_callouts` keeps after the
        placements `ps`: `prev_x` and `prev_level` hold their sentinels and
        then the placements' pixels and levels, `min_y` is theirs, and the
        axis group and label height hold what they drew. */
    ghost predicate Drawn(ps: seq<Placed>, prevX: seq<Ext>, prevLevel: seq<int>, minY: Ext, g0: seq<Element>, h0: int)
      reads this`gAxis, this`maxLabelHeight
      requires window.totalSeconds != 0
    {
      && Pushed(ps, prevX, prevLevel)
      && minY == MinY(ps)
      && gAxis == g0 + AllCalloutElements(Geo(), ps)
      && maxLabelHeight == MaxLabelHeight(Geo(), h0, PlacedTimes(ps))
    }

    /** One iteration of the drawing loop for the popped callout `item`:
        nothing outside the window (`continue`); else its pixel, its level
        from the backward scan, `min_y` lowered, the callout drawn, and
        its pixel and level pushed. */
    method PlaceCallout(item: Callout, prevX: seq<Ext>, prevLevel: seq<int>, minY: Ext,
                        ghost ps: seq<Placed>, ghost g0: seq<Element>, ghost h0: int)
      returns (prevX': seq<Ext>, prevLevel': seq<int>, minY': Ext)
      requires window.totalSeconds != 0
      requires Drawn(ps, prevX, prevLevel, minY, g0, h0)
      modifies this`gAxis, this`maxLabelHeight
      ensures Drawn(PlaceNext(Geo(), ps, item), prevX', prevLevel', minY', g0, h0)
    {
      if !InWindow(window, item.time) {
        return prevX, prevLevel, minY;
      }
      var x := PixelX(window, width, item.time);
      var left := LeftEdge(Geo(), item, x);
      var k := ScanLevel(prevX, prevLevel, ps, left);
      var y := CalloutY(k);
      minY' := Min(minY, Fin(y));
      var p := Placed(item, x, k);
      PlacedSnoc(Geo(), h0, ps, p);
      AppendAssoc(g0, AllCalloutElements(Geo(), ps), CalloutElements(Geo(), p));
      DrawCallout(p);
      PushedSnoc(ps, prevX, prevLevel, p);
      prevX' := prevX + [Fin(x)];
      prevLevel' := prevLevel + [k];
      assert PlaceNext(Geo(), ps, item) == ps + [p];
    }

    /** The drawing of one callout: the leader path up to its level and
        left by `Callout.width`, the name left of it, the date's axis label
        (black, no tick) and the circle on the axis. */
    method DrawCallout(p: Placed)
      requires window.totalSeconds != 0
      requires InWindow(window, p.callout.time) && p.x == PixelX(window, width, p.callout.time)
      modifies this`gAxis, this`maxLabelHeight
      ensures gAxis == old(gAxis) + CalloutElements(Geo(), p)
      ensures maxLabelHeight == Max(old(maxLabelHeight), LabelHeight(Geo(), format(p.callout.time)))
    {
      var x, y := p.x, CalloutY(p.level);
      var item := p.callout;
      ghost var before := gAxis;
      gAxis := gAxis + [Path([P(x, 0), P(x, y), P(x - CALLOUT_WIDTH, y)], item.color)];
      gAxis := gAxis + [Text(item.name, Point(2 * (x - CALLOUT_WIDTH - FUDGE_X), 2 * y + FUDGE_Y_HALVES),
                             item.color, AnchorEnd, false)];
      ghost var pathText := gAxis[|before|..];
      assert gAxis == before + pathText;
      AddAxisLabel(item.time, format(item.time), false, BLACK);
      ghost var axisLabel := LabelElements(x, format(item.time), false, BLACK);
      AppendAssoc(before, pathText, axisLabel);
      gAxis := gAxis + [Circle(P(x, 0), 4, item.color)];
      AppendAssoc(before, pathText + axisLabel, [Circle(P(x, 0), 4, item.color)]);
    }

    /** `_get_markers`: the cached arrowhead pair for `color`, or a new pair
        added to the definitions and cached. */
    method GetMarkers(color: Color) returns (pair: MarkerPair)
      requires Valid()
      modifies this`markers, this`defs
      ensures Valid()
      ensures Fetched(Cache(markers, defs), pair) == Fetch(Cache(old(markers), old(defs)), color)
    {
      if color in markers {
        return markers[color];
      }
      FetchValid(Cache(markers, defs), color);
      defs := defs + [StartMarkerDef(color)];
      defs := defs + [EndMarkerDef(color)];
      pair := MarkerPair(|defs| - 2, |defs| - 1);
      markers := markers[color := pair];
    }

    /** `_create_eras`: for every era, in or out of the window, a band,
        two dashed boundary lines, an arrow with its colour's arrowheads and
        the name; the arrowheads come from the cache. */
    method CreateEras(yEra: int, yAxis: int, height: int)
      requires Valid() && window.totalSeconds != 0
      modifies this`elements, this`markers, this`defs
      ensures Valid()
      ensures Cache(markers, defs) == FetchAll(Cache(old(markers), old(defs)), EraColors(EraList()))
      ensures ColorsCached(EraList(), markers)
      ensures elements == old(elements) + EraRun(Geo(), EraList(), markers, yEra, yAxis, height)
    {
      if data.eras.None? {
        return;
      }
      var eras := data.eras.value;
      ghost var k0 := Cache(markers, defs);
      ghost var e0 := elements;
      ghost var done: seq<EraSpec> := [];
      assert e0 + [] == e0;
      for n := 0 to |eras|
        invariant done == eras[..n]
        invariant Valid()
        invariant Cache(markers, defs) == FetchAll(k0, EraColors(done))
        invariant ColorsCached(done, markers)
        invariant elements == e0 + EraRun(Geo(), done, markers, yEra, yAxis, height)
      {
        DrawEra(eras[n], yEra, yAxis, height, done, k0, e0);
        TakeNext(eras, n);
        done := done + [eras[n]];
      }
      assert done == eras;
    }

    /** One iteration of `_create_eras` for `era`, after the eras `done`:
        its colour's arrowheads from the cache, then the band, the two
        dashed boundary lines, the arrow and the name. */
    method DrawEra(era: EraSpec, yEra: int, yAxis: int, height: int,
                   ghost done: seq<EraSpec>, ghost k0: Cache, ghost e0: seq<Element>)
      requires Valid() && window.totalSeconds != 0
      requires Cache(markers, defs) == FetchAll(k0, EraColors(done)) && ColorsCached(done, markers)
      requires elements == e0 + EraRun(Geo(), done, markers, yEra, yAxis, height)
      modifies this`elements, this`markers, this`defs
      ensures Valid()
      ensures Cache(markers, defs) == FetchAll(k0, EraColors(done + [era])) && ColorsCached(done + [era], markers)
      ensures elements == e0 + EraRun(Geo(), done + [era], markers, yEra, yAxis, height)
    {
      ghost var k := Cache(markers, defs);
      ghost var run := EraRun(Geo(), done, markers, yEra, yAxis, height);
      var pair := GetMarkers(EraColor(era));
      EraStep(Geo(), done, era, k0, k, Fetched(Cache(markers, defs), pair), yEra, yAxis, height);
      AddEraShapes(era, pair, yEra, yAxis, height);
      AppendAssoc(e0, run, EraElements(Geo(), era, pair, yEra, yAxis, height));
    }

    /** The drawing half of one `_create_era` iteration: the band, the two
        dashed boundary lines, the arrow with the arrowheads `pair` and the
        name of `era`. */
    method AddEraShapes(era: EraSpec, pair: MarkerPair, yEra: int, yAxis: int, height: int)
      requires window.totalSeconds != 0
      modifies this`elements
      ensures elements == old(elements) + EraElements(Geo(), era, pair, yEra, yAxis, height)
    {
      var name := era.name;
      var fillColor := era.color.GetOr(GRAY);
      var x0 := PixelX(window, width, era.startTime);
      var x1 := PixelX(window, width, era.endTime);
      elements := elements + EraShapes(name, x0, x1, fillColor, pair, yEra, yAxis, height);
    }

    /** `_create_era_axis_labels`: an untick'd black label for each era's
        start and end, in the window or not (out-of-window ones add nothing). */
    method CreateEraAxisLabels()
      requires window.totalSeconds != 0
      modifies this`gAxis, this`maxLabelHeight
      ensures gAxis == old(gAxis) + AxisLabels(Geo(), EraBoundaries(EraList()), false, BLACK)
      ensures maxLabelHeight == MaxLabelHeight(Geo(), old(maxLabelHeight), EraBoundaries(EraList()))
    {
      if data.eras.None? {
        return;
      }
      var eras := data.eras.value;
      ghost var g0 := gAxis;
      ghost var h0 := maxLabelHeight;
      for n := 0 to |eras|
        invariant gAxis == g0 + AxisLabels(Geo(), EraBoundaries(eras[..n]), false, BLACK)
        invariant maxLabelHeight == MaxLabelHeight(Geo(), h0, EraBoundaries(eras[..n]))
      {
        var t0 := eras[n].startTime;
        var t1 := eras[n].endTime;
        ghost var ds := EraBoundaries(eras[..n]);
        LabelSnoc(Geo(), h0, ds, t0, format(t0), false, BLACK);
        LabelSnoc(Geo(), h0, ds + [t0], t1, format(t1), false, BLACK);
        AppendAssoc(g0, AxisLabels(Geo(), ds, false, BLACK), LabelAt(Geo(), t0, format(t0), false, BLACK));
        AppendAssoc(g0, AxisLabels(Geo(), ds + [t0], false, BLACK), LabelAt(Geo(), t1, format(t1), false, BLACK));
        AddAxisLabel(t0, format(t0), false, BLACK);
        AddAxisLabel(t1, format(t1), false, BLACK);
        BoundariesNext(eras, n);
      }
      assert eras[..|eras|] == eras;
    }

    /** The running label height once the main axis and the callouts
        are drawn, from `h0` before them. */
    function AxisLabelHeight(h0: int): int
      requires window.totalSeconds != 0
    {
      MaxLabelHeight(Geo(), MaxLabelHeight(Geo(), h0, TickDates(startDate, endDate, data.numTicks)), PlacedTimes(Placements()))
    }

    /** `height`: the axis offset plus the label height then reached plus
        the margin. */
    function CanvasHeight(h0: int): int
      requires window.totalSeconds != 0
    {
      AxisOffset(Y_ERA, CalloutExtent()) + AxisLabelHeight(h0) + HEIGHT_MARGIN
    }

    /** The canvas height covers every label drawn before it is fixed: the
        label of each in-window tick date and callout date hangs from the
        axis at `y_axis` and ends at least the margin above the bottom. */
    lemma CanvasHeightCoversLabels(h0: int)
      requires window.totalSeconds != 0
      ensures var ds := TickDates(startDate, endDate, data.numTicks) + PlacedTimes(Placements());
        forall i :: 0 <= i < |ds| && InWindow(window, ds[i]) ==>
          AxisOffset(Y_ERA, CalloutExtent()) + LabelHeight(Geo(), format(ds[i])) + HEIGHT_MARGIN <= CanvasHeight(h0)
    {
      var ticks, placed := TickDates(startDate, endDate, data.numTicks), PlacedTimes(Placements());
      MaxLabelHeightAppend(Geo(), h0, ticks, placed);
      MaxLabelHeightIsMax(Geo(), h0, ticks + placed);
    }

    /** `build`: main axis, callouts, the axis offset and the canvas height
        (computed before the era labels are added), eras, era labels, and
        the axis group moved down by the offset. With a zero span the main
        axis raises: `ok` is false and only the axis line was added. The
        offset is the corrected one (see `AxisOffset`). */
    method Build() returns (ok: bool)
      requires Valid()
      modifies this`gAxis, this`maxLabelHeight, this`elements, this`markers, this`defs, this`height
      ensures Valid()
      ensures ok == (window.totalSeconds != 0)
      ensures !ok ==>
        gAxis == old(gAxis) + [AxisLine(width)] && maxLabelHeight == old(maxLabelHeight)
        && elements == old(elements) && markers == old(markers) && defs == old(defs) && height == old(height)
      ensures ok ==>
        gAxis == old(gAxis) + [AxisLine(width)] + AxisLabels(Geo(), TickDates(startDate, endDate, data.numTicks), true, GRAY)
                 + AllCalloutElements(Geo(), Placements()) + AxisLabels(Geo(), EraBoundaries(EraList()), false, BLACK)
      ensures ok ==>
        maxLabelHeight == MaxLabelHeight(Geo(), AxisLabelHeight(old(maxLabelHeight)), EraBoundaries(EraList()))
      ensures ok ==> Cache(markers, defs) == FetchAll(Cache(old(markers), old(defs)), EraColors(EraList()))
      ensures ok ==> ColorsCached(EraList(), markers)
      ensures ok ==> height == Some(CanvasHeight(old(maxLabelHeight)))
      ensures ok ==>
        elements == old(elements) + EraRun(Geo(), EraList(), markers, Y_ERA, AxisOffset(Y_ERA, CalloutExtent()), CanvasHeight(old(maxLabelHeight)))
                    + [Group(AxisOffset(Y_ERA, CalloutExtent()), gAxis)]
    {
      var yEra := Y_ERA;
      ok := CreateMainAxis();
      if !ok {
        return;
      }
      var yCallouts := CreateCallouts();
      assert maxLabelHeight == AxisLabelHeight(old(maxLabelHeight));
      var yAxis := AxisOffset(yEra, yCallouts);
      var h := yAxis + maxLabelHeight + HEIGHT_MARGIN;
      assert h == CanvasHeight(old(maxLabelHeight));
      ghost var e0 := elements;
      CreateEras(yEra, yAxis, h);
      ghost var run := EraRun(Geo(), EraList(), markers, Y_ERA, yAxis, h);
      assert elements == e0 + run;
      CreateEraAxisLabels();
      assert Valid();
      elements := elements + [Group(yAxis, gAxis)];
      height := Some(h);
    }
  }
}

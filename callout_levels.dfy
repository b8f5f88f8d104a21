/** The callout layout engine: each callout in the window gets a pixel and a
    stacking level from the greedy backward scan over earlier placements. */
module CalloutLevels {
  import opened Wrappers
  import opened Input
  import opened Drawing
  import opened Coordinates
  import opened Axis
  import opened CalloutOrder

  /** A drawn callout: its pixel and its stacking level. */
  datatype Placed = Placed(callout: Callout, x: int, level: nat)

  /** Left end of a callout's label: `x - (text width + Callout.width + text_fudge[0])`. */
  function LeftEdge(g: Geometry, c: Callout, x: int): (left: int)
    ensures left <= x - CALLOUT_WIDTH - FUDGE_X
  {
    x - (g.textWidth(c.name) + CALLOUT_WIDTH + FUDGE_X)
  }

  /** The level the backward scan gives a label starting at `left`, over the
      earlier placements `ps` (most recent last): 0 when the most recent one
      sits at or left of `left`, else one more than the highest level in the
      run of most recent placements that sit right of `left`. */
  function Level(ps: seq<Placed>, left: int): nat {
    if ps == [] || ps[|ps| - 1].x <= left then 0
    else Max(ps[|ps| - 1].level + 1, Level(ps[..|ps| - 1], left))
  }

  /** Vertical position of a callout's label: `0 - Callout.height - k * Callout.increment`. */
  function CalloutY(level: int): (y: int)
    ensures level >= 0 ==> y <= -CALLOUT_HEIGHT
  {
    0 - CALLOUT_HEIGHT - level * CALLOUT_INCREMENT
  }

  /** The placements `_create_callouts` makes, callout after callout of
      `order`; callouts outside the window are skipped. */
  function Layout(g: Geometry, order: seq<Callout>): seq<Placed>
    requires g.window.totalSeconds != 0
  {
    if order == [] then [] else PlaceNext(g, Layout(g, order[..|order| - 1]), order[|order| - 1])
  }

  /** One iteration for callout `c` after the placements `ps`: skipped
      outside the window, else placed at its pixel on the level of the scan. */
  function PlaceNext(g: Geometry, ps: seq<Placed>, c: Callout): (r: seq<Placed>)
    requires g.window.totalSeconds != 0
    ensures |r| == |ps| + (if InWindow(g.window, c.time) then 1 else 0) && r[..|ps|] == ps
  {
    if !InWindow(g.window, c.time) then ps
    else
      var x := PixelX(g.window, g.width, c.time);
      ps + [Placed(c, x, Level(ps, LeftEdge(g, c, x)))]
  }

  /** What one drawn callout adds to the axis group: the leader path, the
      name, the axis label for its date (without tick) and the circle. */
  function CalloutElements(g: Geometry, p: Placed): (es: seq<Element>)
    ensures |es| == 4
  {
    var x, y := p.x, CalloutY(p.level);
    [ Path([P(x, 0), P(x, y), P(x - CALLOUT_WIDTH, y)], p.callout.color),
      Text(p.callout.name, Point(2 * (x - CALLOUT_WIDTH - FUDGE_X), 2 * y + FUDGE_Y_HALVES),
           p.callout.color, AnchorEnd, false) ]
    + LabelElements(x, g.format(p.callout.time), false, BLACK)
    + [Circle(P(x, 0), 4, p.callout.color)]
  }

  function AllCalloutElements(g: Geometry, ps: seq<Placed>): seq<Element> {
    if ps == [] then []
    else AllCalloutElements(g, ps[..|ps| - 1]) + CalloutElements(g, ps[|ps| - 1])
  }

  /** The timestamps of the drawn callouts, each labelled on the axis. */
  function PlacedTimes(ps: seq<Placed>): seq<int> {
    if ps == [] then [] else PlacedTimes(ps[..|ps| - 1]) + [ps[|ps| - 1].callout.time]
  }

  /** `min_y`: `float("inf")` lowered to each drawn callout's y. */
  function MinY(ps: seq<Placed>): Ext {
    if ps == [] then PosInf else Min(MinY(ps[..|ps| - 1]), Fin(CalloutY(ps[|ps| - 1].level)))
  }

  /** The callouts of `order` that fall in the window, in order. */
  function Visible(g: Geometry, order: seq<Callout>): seq<Callout>
    requires g.window.totalSeconds != 0
  {
    if order == [] then []
    else Visible(g, order[..|order| - 1])
         + (if InWindow(g.window, order[|order| - 1].time) then [order[|order| - 1]] else [])
  }

  /** A later callout whose label reaches left past an earlier callout's
      leader sits on a higher level than it. */
  ghost predicate NoOverlap(g: Geometry, ps: seq<Placed>) {
    forall i, j :: 0 <= i < j < |ps| && ps[i].x > LeftEdge(g, ps[j].callout, ps[j].x) ==>
      ps[i].level < ps[j].level
  }

  predicate SortedX(ps: seq<Placed>) {
    forall i, j :: 0 <= i < j < |ps| ==> ps[i].x <= ps[j].x
  }

  // ----- The level chosen by the scan -----

  /** The scan stops at once, with level 0, exactly when the most recent
      placement does not reach past `left`. */
  lemma LevelZeroIff(ps: seq<Placed>, left: int)
    ensures Level(ps, left) == 0 <==> ps == [] || ps[|ps| - 1].x <= left
  {
  }

  /** The level is attained: when it is positive, some earlier placement
      right of `left` has exactly the level below it. */
  lemma {:induction false} LevelAttained(ps: seq<Placed>, left: int)
    ensures Level(ps, left) > 0 ==>
      exists i :: 0 <= i < |ps| && ps[i].x > left && ps[i].level + 1 == Level(ps, left)
    decreases |ps|
  {
    if ps != [] && ps[|ps| - 1].x > left {
      var init := ps[..|ps| - 1];
      if Level(init, left) > ps[|ps| - 1].level + 1 {
        LevelAttained(init, left);
        var i :| 0 <= i < |init| && init[i].x > left && init[i].level + 1 == Level(init, left);
        assert ps[i] == init[i];
      }
    }
  }

  /** When earlier placements are in pixel order, the level is above the level
      of EVERY earlier placement right of `left`, not only of the run the
      scan looked at. */
  lemma {:induction false} LevelClearsCollisions(ps: seq<Placed>, left: int)
    requires SortedX(ps)
    ensures forall i :: 0 <= i < |ps| && ps[i].x > left ==> ps[i].level < Level(ps, left)
    decreases |ps|
  {
    if ps != [] {
      var init := ps[..|ps| - 1];
      assert SortedX(init);
      LevelClearsCollisions(init, left);
      forall i | 0 <= i < |ps| && ps[i].x > left ensures ps[i].level < Level(ps, left) {
        assert ps[i].x <= ps[|ps| - 1].x;
        if i < |ps| - 1 {
          assert init[i] == ps[i];
        }
      }
    }
  }

  // ----- The whole layout -----

  /** Every callout of `order` is drawn exactly when it is in the window, in
      order, at its pixel. */
  lemma {:induction false} LayoutDrawsVisible(g: Geometry, order: seq<Callout>)
    requires g.window.totalSeconds != 0
    ensures |Layout(g, order)| == |Visible(g, order)|
    ensures forall i :: 0 <= i < |Layout(g, order)| ==>
      Layout(g, order)[i].callout == Visible(g, order)[i]
      && Layout(g, order)[i].x == PixelX(g.window, g.width, Visible(g, order)[i].time)
    decreases |order|
  {
    if order != [] {
      LayoutDrawsVisible(g, order[..|order| - 1]);
    }
  }

  lemma {:induction false} VisibleSubsequence(g: Geometry, order: seq<Callout>)
    requires g.window.totalSeconds != 0
    ensures forall i :: 0 <= i < |Visible(g, order)| ==>
      InWindow(g.window, Visible(g, order)[i].time)
    ensures SortedTimes(order) ==> SortedTimes(Visible(g, order))
    decreases |order|
  {
    if order != [] {
      var init := order[..|order| - 1];
      VisibleSubsequence(g, init);
      VisibleMembers(g, init);
      if SortedTimes(order) {
        assert SortedTimes(init);
        var v := Visible(g, order);
        forall i, j | 0 <= i < j < |v| ensures v[i].time <= v[j].time {
          if j == |v| - 1 && InWindow(g.window, order[|order| - 1].time) {
            var k :| 0 <= k < |init| && init[k] == v[i];
            assert order[k] == init[k];
          }
        }
      }
    }
  }

  lemma {:induction false} VisibleMembers(g: Geometry, order: seq<Callout>)
    requires g.window.totalSeconds != 0
    ensures forall i :: 0 <= i < |Visible(g, order)| ==> Visible(g, order)[i] in order
    decreases |order|
  {
    if order != [] {
      var init := order[..|order| - 1];
      VisibleMembers(g, init);
      var v := Visible(g, order);
      var last := order[|order| - 1];
      assert v == Visible(g, init) + (if InWindow(g.window, last.time) then [last] else []);
      forall i | 0 <= i < |v| ensures v[i] in order {
        if i < |Visible(g, init)| {
          assert v[i] == Visible(g, init)[i];
          assert v[i] in init;
        }
      }
    }
  }

  /** Over a forward window and a non-negative width, callouts taken in
      timestamp order are placed in pixel order. */
  lemma LayoutSortedX(g: Geometry, order: seq<Callout>)
    requires g.window.totalSeconds > 0 && g.width >= 0 && SortedTimes(order)
    ensures SortedX(Layout(g, order))
  {
    LayoutDrawsVisible(g, order);
    VisibleSubsequence(g, order);
    var ps, v := Layout(g, order), Visible(g, order);
    forall i, j | 0 <= i < j < |ps| ensures ps[i].x <= ps[j].x {
      PixelXMonotone(g.window, g.width, v[i].time, v[j].time);
    }
  }

  /** No overlap: when a callout's label reaches left past an earlier
      callout's leader, the earlier one sits on a lower level, so two labels
      that would overlap never share a level. */
  lemma {:induction false} LayoutNoOverlap(g: Geometry, order: seq<Callout>)
    requires g.window.totalSeconds > 0 && g.width >= 0 && SortedTimes(order)
    ensures NoOverlap(g, Layout(g, order))
    decreases |order|
  {
    if order != [] {
      var init := order[..|order| - 1];
      assert SortedTimes(init);
      LayoutNoOverlap(g, init);
      var prev := Layout(g, init);
      var ps := Layout(g, order);
      var c := order[|order| - 1];
      if InWindow(g.window, c.time) {
        var x := PixelX(g.window, g.width, c.time);
        var left := LeftEdge(g, c, x);
        var last := Placed(c, x, Level(prev, left));
        assert ps == prev + [last];
        LayoutSortedX(g, init);
        LevelClearsCollisions(prev, left);
        NoOverlapStep(g, prev, last);
      }
    }
  }

  lemma NoOverlapStep(g: Geometry, prev: seq<Placed>, last: Placed)
    requires NoOverlap(g, prev)
    requires forall i :: 0 <= i < |prev| && prev[i].x > LeftEdge(g, last.callout, last.x) ==>
      prev[i].level < last.level
    ensures NoOverlap(g, prev + [last])
  {
    var ps := prev + [last];
    forall i, j | 0 <= i < j < |ps| && ps[i].x > LeftEdge(g, ps[j].callout, ps[j].x)
      ensures ps[i].level < ps[j].level
    {
      assert ps[i] == prev[i];
      if j < |prev| {
        assert ps[j] == prev[j];
      }
    }
  }

  /** `min_y` is `+inf` exactly when nothing is drawn; otherwise it is the y of
      the highest-stacked callout, at most `-Callout.height`. */
  lemma {:induction false} MinYIsHighest(ps: seq<Placed>)
    ensures MinY(ps) == PosInf <==> ps == []
    ensures ps != [] ==> (MinY(ps).Fin? && MinY(ps).v <= -CALLOUT_HEIGHT
      && (forall i :: 0 <= i < |ps| ==> MinY(ps).v <= CalloutY(ps[i].level))
      && (exists i :: 0 <= i < |ps| && MinY(ps).v == CalloutY(ps[i].level)))
    decreases |ps|
  {
    if ps != [] {
      var init := ps[..|ps| - 1];
      MinYIsHighest(init);
      if init != [] {
        var m := MinY(ps).v;
        if m == MinY(init).v {
          var i :| 0 <= i < |init| && MinY(init).v == CalloutY(init[i].level);
          assert ps[i] == init[i];
        } else {
          assert m == CalloutY(ps[|ps| - 1].level);
        }
        forall i | 0 <= i < |ps| ensures m <= CalloutY(ps[i].level) {
          if i < |init| {
            assert ps[i] == init[i];
          }
        }
      }
    }
  }

  /** When no callout falls in the window, none is drawn. */
  lemma {:induction false} LayoutOutsideWindow(g: Geometry, order: seq<Callout>)
    requires g.window.totalSeconds != 0 && forall i :: 0 <= i < |order| ==> !InWindow(g.window, order[i].time)
    ensures Layout(g, order) == []
    decreases |order|
  {
    if order != [] {
      LayoutOutsideWindow(g, order[..|order| - 1]);
    }
  }

  // ----- One step of the layout loop -----

  /** One more callout in the order is one more iteration. */
  lemma LayoutSnoc(g: Geometry, order: seq<Callout>, c: Callout)
    requires g.window.totalSeconds != 0
    ensures Layout(g, order + [c]) == PlaceNext(g, Layout(g, order), c)
  {
    assert (order + [c])[..|order|] == order;
  }

  /** One more placement: its elements are appended, `min_y` lowered to its
      y and its date's label height folded in. */
  lemma PlacedSnoc(g: Geometry, h0: int, ps: seq<Placed>, p: Placed)
    requires g.window.totalSeconds != 0 && InWindow(g.window, p.callout.time)
    ensures AllCalloutElements(g, ps + [p]) == AllCalloutElements(g, ps) + CalloutElements(g, p)
    ensures MinY(ps + [p]) == Min(MinY(ps), Fin(CalloutY(p.level)))
    ensures PlacedTimes(ps + [p]) == PlacedTimes(ps) + [p.callout.time]
    ensures MaxLabelHeight(g, h0, PlacedTimes(ps + [p]))
         == Max(MaxLabelHeight(g, h0, PlacedTimes(ps)), LabelHeight(g, g.format(p.callout.time)))
  {
    assert (ps + [p])[..|ps|] == ps;
    LabelSnoc(g, h0, PlacedTimes(ps), p.callout.time, g.format(p.callout.time), false, BLACK);
  }

  /** `prev_x` and `prev_level`: the sentinels `-inf` and `-1`, then the
      pixels and levels of the placements `ps`, in order. */
  ghost predicate Pushed(ps: seq<Placed>, prevX: seq<Ext>, prevLevel: seq<int>) {
    |prevX| == |prevLevel| == |ps| + 1 && prevX[0] == NegInf
    && forall m :: 0 <= m < |ps| ==> prevX[m + 1] == Fin(ps[m].x) && prevLevel[m + 1] == ps[m].level
  }

  /** Pushing a placement's pixel and level keeps the two lists in step with the placements. */
  lemma PushedSnoc(ps: seq<Placed>, prevX: seq<Ext>, prevLevel: seq<int>, p: Placed)
    requires Pushed(ps, prevX, prevLevel)
    ensures Pushed(ps + [p], prevX + [Fin(p.x)], prevLevel + [p.level])
  {
    var ps', xs, ls := ps + [p], prevX + [Fin(p.x)], prevLevel + [p.level];
    forall m | 0 <= m < |ps'|
      ensures xs[m + 1] == Fin(ps'[m].x) && ls[m + 1] == ps'[m].level
    {
      if m < |ps| {
        assert ps'[m] == ps[m] && xs[m + 1] == prevX[m + 1] && ls[m + 1] == prevLevel[m + 1];
      }
    }
  }

  /** The scan `while left < prev_x[i] and i >= 0` over `prev_x` (a `-inf`
      sentinel, then the drawn pixels) and `prev_level` (`-1`, then their
      levels): it finds the level `Level` defines. */
  method ScanLevel(prevX: seq<Ext>, prevLevel: seq<int>, ghost ps: seq<Placed>, left: int) returns (k: int)
    requires |prevX| == |prevLevel| == |ps| + 1 && prevX[0] == NegInf
    requires forall m :: 0 <= m < |ps| ==> prevX[m + 1] == Fin(ps[m].x) && prevLevel[m + 1] == ps[m].level
    ensures k == Level(ps, left)
  {
    k := 0;
    var i := |prevX| - 1;
    assert ps[..i] == ps;
    // `i >= 0` is checked after the lookup, as written; the sentinel at
    // index 0 ends the scan first.
    while Less(Fin(left), prevX[i]) && i >= 0
      invariant 0 <= i < |prevX| && 0 <= k
      invariant Level(ps, left) == Max(k, Level(ps[..i], left))
      decreases i
    {
      assert ps[..i][..i - 1] == ps[..i - 1];
      k := Max(k, prevLevel[i] + 1);
      i := i - 1;
    }
    if i > 0 {
      assert ps[..i][i - 1] == ps[i - 1];
    } else {
      assert ps[..i] == [];
    }
  }
}

/** The era renderer and the arrowhead marker cache (`_create_eras`,
    `_get_markers`, `_create_era_axis_labels`). */
module Eras {
  import opened Wrappers
  import opened Input
  import opened Drawing
  import opened Coordinates
  import opened Axis

  /** An era's colour: the optional fourth entry, gray by default. */
  function EraColor(e: EraSpec): Color {
    e.color.GetOr(GRAY)
  }

  /** A cached arrowhead pair: the positions of its two definitions. */
  datatype MarkerPair = MarkerPair(startMarker: nat, endMarker: nat)

  /** The `markers` dictionary together with the drawing's definitions. */
  datatype Cache = Cache(markers: map<Color, MarkerPair>, defs: seq<Element>)

  function StartMarkerDef(c: Color): Element {
    MarkerDef(StartArrow, P(0, 3), c)
  }

  function EndMarkerDef(c: Color): Element {
    MarkerDef(EndArrow, P(6, 3), c)
  }

  /** Every cached colour points at its own two definitions. */
  ghost predicate CacheValid(k: Cache) {
    forall c :: c in k.markers ==> PairValid(k, c)
  }

  /** Exactly two definitions per cached colour. */
  ghost predicate CacheSized(k: Cache) {
    |k.defs| == 2 * |k.markers|
  }

  /** The pair cached for `c` points at `c`'s start and end arrowheads. */
  ghost predicate PairValid(k: Cache, c: Color)
    requires c in k.markers
  {
    var p := k.markers[c];
    p.endMarker == p.startMarker + 1 < |k.defs|
    && k.defs[p.startMarker] == StartMarkerDef(c) && k.defs[p.endMarker] == EndMarkerDef(c)
  }

  datatype Fetched = Fetched(cache: Cache, pair: MarkerPair)

  /** `_get_markers(c)`: the cached pair for `c`, or two new definitions
      appended and cached under `c`. */
  function Fetch(k: Cache, c: Color): (r: Fetched)
    ensures r.cache.markers.Keys == k.markers.Keys + {c} && r.cache.markers[c] == r.pair
    ensures forall d :: d in k.markers ==> r.cache.markers[d] == k.markers[d]
    ensures c in k.markers ==> r.cache == k
    ensures c !in k.markers ==> r.cache.defs == k.defs + [StartMarkerDef(c), EndMarkerDef(c)]
                                && r.pair == MarkerPair(|k.defs|, |k.defs| + 1)
  {
    if c in k.markers then Fetched(k, k.markers[c])
    else
      var p := MarkerPair(|k.defs|, |k.defs| + 1);
      Fetched(Cache(k.markers[c := p], k.defs + [StartMarkerDef(c), EndMarkerDef(c)]), p)
  }

  /** The cache stays consistent, and the returned pair points at the
      start and end arrowheads in the colour asked for. */
  lemma FetchValid(k: Cache, c: Color)
    requires CacheValid(k)
    ensures CacheValid(Fetch(k, c).cache)
    ensures var r := Fetch(k, c);
      r.pair.endMarker < |r.cache.defs|
      && r.cache.defs[r.pair.startMarker] == StartMarkerDef(c) && r.cache.defs[r.pair.endMarker] == EndMarkerDef(c)
  {
    if c !in k.markers {
      var r := Fetch(k, c);
      forall d | d in r.cache.markers
        ensures PairValid(r.cache, d)
      {
        if d != c {
          assert PairValid(k, d);
        }
      }
    }
  }

  lemma FetchSized(k: Cache, c: Color)
    requires CacheSized(k)
    ensures CacheSized(Fetch(k, c).cache)
  {
    if c !in k.markers {
      assert |Fetch(k, c).cache.markers| == |k.markers| + 1;
    }
  }

  /** The colours of `eras`, in order. */
  function EraColors(eras: seq<EraSpec>): seq<Color> {
    if eras == [] then [] else EraColors(eras[..|eras| - 1]) + [EraColor(eras[|eras| - 1])]
  }

  /** The cache after `_get_markers` has been called for each colour. */
  function FetchAll(k: Cache, colors: seq<Color>): Cache {
    if colors == [] then k
    else Fetch(FetchAll(k, colors[..|colors| - 1]), colors[|colors| - 1]).cache
  }

  /** The distinct colours of a list. */
  function ColorSet(colors: seq<Color>): (s: set<Color>)
    ensures forall c :: c in s <==> c in colors
  {
    if colors == [] then {}
    else
      var r := ColorSet(colors[..|colors| - 1]) + {colors[|colors| - 1]};
      assert forall c :: c in colors <==> c in colors[..|colors| - 1] || c == colors[|colors| - 1];
      r
  }

  /** After the calls the cache holds the old colours and the new ones,
      and the pairs of the old colours are unchanged. */
  lemma {:induction false} FetchAllKeys(k: Cache, colors: seq<Color>)
    ensures FetchAll(k, colors).markers.Keys == k.markers.Keys + ColorSet(colors)
    ensures forall d :: d in k.markers ==> FetchAll(k, colors).markers[d] == k.markers[d]
    decreases |colors|
  {
    if colors != [] {
      FetchAllKeys(k, colors[..|colors| - 1]);
    }
  }

  /** The cache stays consistent through the calls. */
  lemma {:induction false} FetchAllValid(k: Cache, colors: seq<Color>)
    requires CacheValid(k)
    ensures CacheValid(FetchAll(k, colors))
    decreases |colors|
  {
    if colors != [] {
      FetchAllValid(k, colors[..|colors| - 1]);
      FetchValid(FetchAll(k, colors[..|colors| - 1]), colors[|colors| - 1]);
    }
  }

  /** One pair of definitions per distinct colour: two definitions per
      cached colour throughout, so from an empty cache there are exactly
      twice as many definitions as distinct colours. */
  lemma {:induction false} FetchAllSized(k: Cache, colors: seq<Color>)
    requires CacheSized(k)
    ensures CacheSized(FetchAll(k, colors))
    ensures |FetchAll(k, colors).defs| == 2 * |k.markers.Keys + ColorSet(colors)|
    decreases |colors|
  {
    FetchAllKeys(k, colors);
    if colors != [] {
      FetchAllSized(k, colors[..|colors| - 1]);
      FetchSized(FetchAll(k, colors[..|colors| - 1]), colors[|colors| - 1]);
    }
    var r := FetchAll(k, colors);
    assert |r.markers| == |r.markers.Keys|;
  }

  /** Fetching a colour already cached changes nothing and returns the same pair. */
  lemma FetchIdempotent(k: Cache, c: Color)
    ensures Fetch(Fetch(k, c).cache, c) == Fetch(k, c)
  {
  }

  /** What `_create_eras` draws for one era with its marker pair: a
      translucent band from `x0` of width `x1 - x0`, two dashed boundary
      lines down to the axis, the arrow at `y_era` and the centred name.
      No window clipping: the pixels are whatever the mapper returns. */
  function EraElements(g: Geometry, e: EraSpec, pair: MarkerPair, yEra: int, yAxis: int, height: int): (es: seq<Element>)
    requires g.window.totalSeconds != 0
    ensures |es| == 5
  {
    EraShapes(e.name, PixelX(g.window, g.width, e.startTime), PixelX(g.window, g.width, e.endTime),
              EraColor(e), pair, yEra, yAxis, height)
  }

  /** The band, the two dashed boundary lines, the arrow and the name of an
      era between the pixels `x0` and `x1`. */
  function EraShapes(name: string, x0: int, x1: int, c: Color, pair: MarkerPair, yEra: int, yAxis: int, height: int): (es: seq<Element>)
    ensures |es| == 5
  {
    [ Rect(P(x0, 0), x1 - x0, height, c),
      Line(P(x0, 0), P(x0, yAxis), c, true),
      Line(P(x1, 0), P(x1, yAxis), c, true),
      Arrow(P(x0, yEra), P(x1, yEra), c, pair.startMarker, pair.endMarker),
      Text(name, Point(x0 + x1, 2 * yEra - FUDGE_Y_HALVES), c, AnchorMiddle, false) ]
  }

  ghost predicate ColorsCached(eras: seq<EraSpec>, markers: map<Color, MarkerPair>) {
    forall i :: 0 <= i < |eras| ==> EraColor(eras[i]) in markers
  }

  /** The elements of all eras, each with the pair cached for its colour. */
  function EraRun(g: Geometry, eras: seq<EraSpec>, markers: map<Color, MarkerPair>, yEra: int, yAxis: int, height: int): seq<Element>
    requires g.window.totalSeconds != 0 && ColorsCached(eras, markers)
  {
    if eras == [] then []
    else
      var e := eras[|eras| - 1];
      EraRun(g, eras[..|eras| - 1], markers, yEra, yAxis, height)
      + EraElements(g, e, markers[EraColor(e)], yEra, yAxis, height)
  }

  /** Adding colours to the cache does not change what earlier eras drew. */
  lemma {:induction false} EraRunStable(g: Geometry, eras: seq<EraSpec>, m: map<Color, MarkerPair>, m': map<Color, MarkerPair>,
                                        yEra: int, yAxis: int, height: int)
    requires g.window.totalSeconds != 0 && ColorsCached(eras, m)
    requires forall c :: c in m ==> c in m' && m'[c] == m[c]
    ensures ColorsCached(eras, m') && EraRun(g, eras, m', yEra, yAxis, height) == EraRun(g, eras, m, yEra, yAxis, height)
    decreases |eras|
  {
    if eras != [] {
      EraRunStable(g, eras[..|eras| - 1], m, m', yEra, yAxis, height);
    }
  }

  /** One more era: its colour is fetched after the earlier ones', and its
      five elements follow the earlier eras' with the pair cached for it. */
  lemma EraSnoc(g: Geometry, eras: seq<EraSpec>, e: EraSpec, k: Cache, m: map<Color, MarkerPair>,
                yEra: int, yAxis: int, height: int)
    requires g.window.totalSeconds != 0 && ColorsCached(eras, m) && EraColor(e) in m
    ensures EraColors(eras + [e]) == EraColors(eras) + [EraColor(e)]
    ensures FetchAll(k, EraColors(eras + [e])) == Fetch(FetchAll(k, EraColors(eras)), EraColor(e)).cache
    ensures ColorsCached(eras + [e], m)
    ensures EraRun(g, eras + [e], m, yEra, yAxis, height)
         == EraRun(g, eras, m, yEra, yAxis, height) + EraElements(g, e, m[EraColor(e)], yEra, yAxis, height)
  {
    assert (eras + [e])[..|eras|] == eras;
    var cs := EraColors(eras) + [EraColor(e)];
    assert cs[..|cs| - 1] == EraColors(eras);
  }

  /** One iteration of `_create_eras` as a whole: fetching the era's colour
      from the cache `k` left by the earlier eras gives the cache left by
      all of them, and the era's elements, drawn with the fetched pair,
      follow the earlier ones. */
  lemma EraStep(g: Geometry, eras: seq<EraSpec>, e: EraSpec, k0: Cache, k: Cache, f: Fetched,
                yEra: int, yAxis: int, height: int)
    requires g.window.totalSeconds != 0
    requires k == FetchAll(k0, EraColors(eras)) && ColorsCached(eras, k.markers)
    requires f == Fetch(k, EraColor(e))
    ensures f.cache == FetchAll(k0, EraColors(eras + [e])) && ColorsCached(eras + [e], f.cache.markers)
    ensures EraRun(g, eras + [e], f.cache.markers, yEra, yAxis, height)
         == EraRun(g, eras, k.markers, yEra, yAxis, height) + EraElements(g, e, f.pair, yEra, yAxis, height)
  {
    EraRunStable(g, eras, k.markers, f.cache.markers, yEra, yAxis, height);
    EraSnoc(g, eras, e, k0, f.cache.markers, yEra, yAxis, height);
  }

  /** Every era is drawn, in the window or not, in order: five elements
      per era, the i-th five being that era's band, boundary lines, arrow
      and name with the pair cached for its colour. */
  lemma {:induction false} EraRunShape(g: Geometry, eras: seq<EraSpec>, m: map<Color, MarkerPair>, yEra: int, yAxis: int, height: int)
    requires g.window.totalSeconds != 0 && ColorsCached(eras, m)
    ensures |EraRun(g, eras, m, yEra, yAxis, height)| == 5 * |eras|
    ensures forall i :: 0 <= i < |eras| ==>
      EraRun(g, eras, m, yEra, yAxis, height)[5 * i..5 * i + 5] == EraElements(g, eras[i], m[EraColor(eras[i])], yEra, yAxis, height)
    decreases |eras|
  {
    if eras != [] {
      var init := eras[..|eras| - 1];
      EraRunShape(g, init, m, yEra, yAxis, height);
      var a := EraRun(g, init, m, yEra, yAxis, height);
      var e := eras[|eras| - 1];
      var b := EraElements(g, e, m[EraColor(e)], yEra, yAxis, height);
      assert EraRun(g, eras, m, yEra, yAxis, height) == a + b;
      forall i | 0 <= i < |eras|
        ensures (a + b)[5 * i..5 * i + 5] == EraElements(g, eras[i], m[EraColor(eras[i])], yEra, yAxis, height)
      {
        if i < |init| {
          assert 5 * i + 5 <= |a|;
          assert (a + b)[5 * i..5 * i + 5] == a[5 * i..5 * i + 5];
          assert init[i] == eras[i];
        } else {
          assert (a + b)[5 * i..5 * i + 5] == b;
        }
      }
    }
  }

  /** The dates `_create_era_axis_labels` labels: each era's start and end. */
  function EraBoundaries(eras: seq<EraSpec>): seq<int> {
    if eras == [] then []
    else EraBoundaries(eras[..|eras| - 1]) + [eras[|eras| - 1].startTime, eras[|eras| - 1].endTime]
  }

  /** One more era adds its start and then its end. */
  lemma BoundariesNext(eras: seq<EraSpec>, n: nat)
    requires n < |eras|
    ensures EraBoundaries(eras[..n + 1]) == EraBoundaries(eras[..n]) + [eras[n].startTime] + [eras[n].endTime]
  {
    assert eras[..n + 1][..n] == eras[..n];
  }
}

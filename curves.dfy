/**
 * The Bézier arcs drawn between two endpoints: a quadratic one for the active
 * route (and the vehicle marker riding it) and a cubic one for each public
 * route. Both use the endpoints' midpoint lifted north by 0.15 × the planar
 * distance as control point.
 *
 * The sample parameters come from a floating-point loop (`t` from 0 while
 * `t <= 1`, `t += 0.01`); their exact values and count depend on rounding, so
 * they are an input `ts` here and nothing below depends on them.
 */
module Curves {
  import opened Types

  /**
   * 0.15 × the straight-line distance between the endpoints in degree space.
   * `sqrt` is `Math.sqrt`, left uninterpreted.
   */
  function CurveHeight(a: Point, b: Point, sqrt: real -> real): real
  {
    sqrt((b.lng - a.lng) * (b.lng - a.lng) + (b.lat - a.lat) * (b.lat - a.lat)) * 0.15
  }

  /** The control point: the midpoint, lifted north by `height` (latitude only). */
  function Control(a: Point, b: Point, height: real): Point
  {
    Point((a.lng + b.lng) / 2.0, (a.lat + b.lat) / 2.0 + height)
  }

  /** The point at parameter `t` on the straight chord from `a` to `b`. */
  function Chord(a: Point, b: Point, t: real): Point
  {
    Point(a.lng + (b.lng - a.lng) * t, a.lat + (b.lat - a.lat) * t)
  }

  /** The quadratic Bézier point at `t`, as the active route and its marker compute it. */
  function QuadPoint(a: Point, b: Point, height: real, t: real): (p: Point)
    ensures t == 0.0 ==> p == a
    ensures t == 1.0 ==> p == b
  {
    var c := Control(a, b, height);
    var u := 1.0 - t;
    Point(u * u * a.lng + 2.0 * u * t * c.lng + t * t * b.lng,
          u * u * a.lat + 2.0 * u * t * c.lat + t * t * b.lat)
  }

  /**
   * The quadratic arc is the chord lifted north by 2·t·(1−t)·height: its
   * longitude moves linearly from `a` to `b`, and the lift is largest,
   * height/2, half-way.
   */
  lemma QuadPointIsLiftedChord(a: Point, b: Point, height: real, t: real)
    ensures QuadPoint(a, b, height, t) ==
              Point(Chord(a, b, t).lng, Chord(a, b, t).lat + 2.0 * t * (1.0 - t) * height)
  {
    var u := 1.0 - t;
    assert u * u + 2.0 * u * t + t * t == 1.0 by {
      assert (u + t) * (u + t) == u * u + 2.0 * u * t + t * t;
    }
    calc {
      QuadPoint(a, b, height, t).lng;
      u * u * a.lng + 2.0 * u * t * ((a.lng + b.lng) / 2.0) + t * t * b.lng;
      u * (u + t) * a.lng + t * (u + t) * b.lng;
      { assert u + t == 1.0; }
      u * a.lng + t * b.lng;
    }
    calc {
      QuadPoint(a, b, height, t).lat;
      u * u * a.lat + 2.0 * u * t * ((a.lat + b.lat) / 2.0 + height) + t * t * b.lat;
      u * (u + t) * a.lat + t * (u + t) * b.lat + 2.0 * u * t * height;
      { assert u + t == 1.0; }
      u * a.lat + t * b.lat + 2.0 * t * u * height;
    }
  }

  /**
   * One coordinate of the cubic Bézier with end values `p0`, `p3` and both
   * inner control values equal to `c`.
   */
  function CubicCoord(p0: real, c: real, p3: real, t: real): real
  {
    var tt := t * t;
    var ttt := tt * t;
    var u := 1.0 - t;
    var uu := u * u;
    var uuu := uu * u;
    uuu * p0 + 3.0 * uu * t * c + 3.0 * u * tt * c + ttt * p3
  }

  /** The cubic Bézier point at `t` of a public route (both inner controls are the same point). */
  function CubicPoint(a: Point, b: Point, height: real, t: real): (p: Point)
    ensures t == 0.0 ==> p == a
    ensures t == 1.0 ==> p == b
  {
    var c := Control(a, b, height);
    Point(CubicCoord(a.lng, c.lng, b.lng, t), CubicCoord(a.lat, c.lat, b.lat, t))
  }

  /** The weights the cubic arc gives the two endpoint longitudes. */
  function StartWeight(t: real): real
  {
    (1.0 - t) * (1.0 - t) * (1.0 - t) + 1.5 * (1.0 - t) * t
  }

  function EndWeight(t: real): real
  {
    t * t * t + 1.5 * (1.0 - t) * t
  }

  /** Since both inner controls sit at the mid-longitude, the cubic longitude is a weighted mean. */
  lemma CubicLngIsWeightedMean(a: Point, b: Point, height: real, t: real)
    ensures CubicPoint(a, b, height, t).lng == StartWeight(t) * a.lng + EndWeight(t) * b.lng
  {
    MidControlIsWeightedMean(a.lng, b.lng, t);
  }

  lemma MidControlIsWeightedMean(x: real, y: real, t: real)
    ensures CubicCoord(x, (x + y) / 2.0, y, t) == StartWeight(t) * x + EndWeight(t) * y
  {
    var u := 1.0 - t;
    var uu, tt := u * u, t * t;
    var uuu, ttt := uu * u, tt * t;
    var m := (x + y) / 2.0;
    InnerTermsMerge(u, t, m);
    var p := u * t;
    assert 3.0 * p * m == 1.5 * p * x + 1.5 * p * y;
    Distribute(uuu, 1.5 * p, x);
    Distribute(ttt, 1.5 * p, y);
  }

  lemma Distribute(w1: real, w2: real, x: real)
    ensures (w1 + w2) * x == w1 * x + w2 * x
  {
  }

  /** The two inner Bernstein terms share the control value: they add up to 3·u·t·m when u + t = 1. */
  lemma InnerTermsMerge(u: real, t: real, m: real)
    requires u + t == 1.0
    ensures 3.0 * (u * u) * t * m + 3.0 * u * (t * t) * m == 3.0 * (u * t) * m
  {
    var p := u * t;
    assert 3.0 * (u * u) * t * m == 3.0 * p * u * m;
    assert 3.0 * u * (t * t) * m == 3.0 * p * t * m;
    assert 3.0 * p * u * m + 3.0 * p * t * m == 3.0 * p * m * (u + t);
  }

  /** On [0, 1] the weights are non-negative and sum to 1. */
  lemma WeightsConvex(t: real)
    requires 0.0 <= t <= 1.0
    ensures 0.0 <= StartWeight(t) && 0.0 <= EndWeight(t)
    ensures StartWeight(t) + EndWeight(t) == 1.0
  {
    var u := 1.0 - t;
    MulNonNegative(u, t);
    MulNonNegative(u, u);
    MulNonNegative(u * u, u);
    MulNonNegative(t, t);
    MulNonNegative(t * t, t);
    assert (u + t) * (u + t) * (u + t) == u * u * u + 3.0 * u * t * (u + t) + t * t * t;
  }

  lemma MulNonNegative(x: real, y: real)
    requires 0.0 <= x && 0.0 <= y
    ensures 0.0 <= x * y
  {
  }

  lemma ConvexCombinationBetween(wa: real, wb: real, x: real, y: real)
    requires 0.0 <= wa && 0.0 <= wb && wa + wb == 1.0
    ensures Min(x, y) <= wa * x + wb * y <= Max(x, y)
  {
    assert wa * x + wb * y == x + wb * (y - x);
    assert wa * x + wb * y == y + wa * (x - y);
    if x <= y {
      MulNonNegative(wb, y - x);
      MulNonNegative(wa, y - x);
    } else {
      MulNonNegative(wb, x - y);
      MulNonNegative(wa, x - y);
    }
  }

  /**
   * For `t` in [0, 1] the cubic arc's longitude stays between the endpoints'
   * longitudes.
   */
  lemma CubicLngBetweenEnds(a: Point, b: Point, height: real, t: real)
    requires 0.0 <= t <= 1.0
    ensures Min(a.lng, b.lng) <= CubicPoint(a, b, height, t).lng <= Max(a.lng, b.lng)
  {
    CubicLngIsWeightedMean(a, b, height, t);
    WeightsConvex(t);
    ConvexCombinationBetween(StartWeight(t), EndWeight(t), a.lng, b.lng);
  }

  /** Parameters in the first or last tenth of the arc are sampled twice. */
  predicate NearEnd(t: real)
  {
    t < 0.1 || t > 0.9
  }

  /** What one pass of the sampling loop appends for parameter `t`. */
  function CubicChunk(a: Point, b: Point, height: real, t: real): (chunk: seq<Point>)
  {
    var p := CubicPoint(a, b, height, t);
    if NearEnd(t) then [p, p] else [p]
  }

  /** Everything the sampling loop appends, pass after pass. */
  function CubicSamples(a: Point, b: Point, height: real, ts: seq<real>): (s: seq<Point>)
    ensures |ts| <= |s| <= 2 * |ts|
    decreases |ts|
  {
    if ts == [] then []
    else CubicSamples(a, b, height, ts[..|ts| - 1]) + CubicChunk(a, b, height, ts[|ts| - 1])
  }

  /**
   * A public route's line: the exact `from` point, the samples, and the exact
   * `to` point three times.
   */
  function PublicLine(a: Point, b: Point, height: real, ts: seq<real>): (line: seq<Point>)
  {
    [a] + CubicSamples(a, b, height, ts) + [b, b, b]
  }

  /** Sampling a concatenation of parameter lists concatenates the samples. */
  lemma {:induction false} CubicSamplesAppend(a: Point, b: Point, height: real, ts1: seq<real>, ts2: seq<real>)
    ensures CubicSamples(a, b, height, ts1 + ts2) ==
              CubicSamples(a, b, height, ts1) + CubicSamples(a, b, height, ts2)
    decreases |ts2|
  {
    if ts2 == [] {
      assert ts1 + ts2 == ts1;
    } else {
      var init := ts2[..|ts2| - 1];
      var last := ts2[|ts2| - 1];
      assert (ts1 + ts2)[..|ts1 + ts2| - 1] == ts1 + init;
      CubicSamplesAppend(a, b, height, ts1, init);
    }
  }

  /**
   * The shape of a public route's line: it starts at the exact `from` point,
   * ends with the exact `to` point three times, and holds one entry per
   * sample plus one more for each sample near an end.
   */
  lemma PublicLineEnds(a: Point, b: Point, height: real, ts: seq<real>)
    ensures var line := PublicLine(a, b, height, ts);
            && |ts| + 4 <= |line| <= 2 * |ts| + 4
            && line[0] == a
            && line[|line| - 3] == b && line[|line| - 2] == b && line[|line| - 1] == b
  {
  }

  /**
   * Where the sample for parameter `ts[k]` sits in the line: right after the
   * entries of the earlier parameters (and the leading `from` point), once,
   * or twice in a row when `ts[k]` is near an end.
   */
  lemma {:induction false} PublicLineSampleAt(a: Point, b: Point, height: real, ts: seq<real>, k: nat)
    requires k < |ts|
    ensures var line := PublicLine(a, b, height, ts);
            var at := 1 + |CubicSamples(a, b, height, ts[..k])|;
            var p := CubicPoint(a, b, height, ts[k]);
            && at + 1 < |line|
            && line[at] == p
            && (NearEnd(ts[k]) ==> line[at + 1] == p)
            && 1 + |CubicSamples(a, b, height, ts[..k + 1])| == at + (if NearEnd(ts[k]) then 2 else 1)
  {
    assert ts == ts[..k + 1] + ts[k + 1..];
    CubicSamplesAppend(a, b, height, ts[..k + 1], ts[k + 1..]);
    assert ts[..k + 1][..k] == ts[..k];
  }

  /** The active route's line: one quadratic sample per parameter, nothing else. */
  function ActiveLine(a: Point, b: Point, height: real, ts: seq<real>): (line: seq<Point>)
    ensures |line| == |ts|
    ensures |ts| > 0 && ts[0] == 0.0 ==> line[0] == a
  {
    seq(|ts|, i requires 0 <= i < |ts| => QuadPoint(a, b, height, ts[i]))
  }

  /** The sampling loop of a public route's line, appending as the source does. */
  method BuildPublicLine(a: Point, b: Point, height: real, ts: seq<real>) returns (coords: seq<Point>)
    ensures coords == PublicLine(a, b, height, ts)
  {
    coords := [a];
    var k := 0;
    while k < |ts|
      invariant 0 <= k <= |ts|
      invariant coords == [a] + CubicSamples(a, b, height, ts[..k])
    {
      var p := CubicPoint(a, b, height, ts[k]);
      coords := coords + [p];
      if NearEnd(ts[k]) {
        coords := coords + [p];
      }
      assert ts[..k + 1][..k] == ts[..k];
      k := k + 1;
    }
    assert ts[..k] == ts;
    var samples := coords;
    for i := 0 to 3
      invariant coords == samples + seq(i, _ => b)
    {
      coords := coords + [b];
    }
  }

  /** The sampling loop of the active route's line. */
  method BuildActiveLine(a: Point, b: Point, height: real, ts: seq<real>) returns (coords: seq<Point>)
    ensures coords == ActiveLine(a, b, height, ts)
  {
    coords := [];
    for k := 0 to |ts|
      invariant |coords| == k
      invariant forall j :: 0 <= j < k ==> coords[j] == QuadPoint(a, b, height, ts[j])
    {
      coords := coords + [QuadPoint(a, b, height, ts[k])];
    }
  }
}

/**
 * The standalone flight map: a curved path of 101 points between two
 * locations, and an eVTOL marker that walks along it once in ten seconds,
 * one animation frame at a time, until the map is torn down.
 *
 * `Math.sin` is a parameter of the path. The animation frames are modelled
 * by their handles: a frame is pending from `requestAnimationFrame` until it
 * fires or is cancelled.
 */
module FlightMap {
  import opened Types

  /** The number of segments of the curved path. */
  const Steps: nat := 100

  /** How far, in degrees of latitude, the middle of the path is lifted. */
  const Lift: real := 0.1

  /** `Math.PI`. */
  const PI: real := 3.141592653589793

  /** The length of the one walk along the path, in milliseconds. */
  const Duration: real := 10000.0

  // ---------------------------------------------------------------------
  // The curved path
  // ---------------------------------------------------------------------

  /**
   * Point `i` of the path: a fraction `i / 100` of the way from `start` to
   * `end` in both coordinates, with the latitude lifted by `sin(t * PI) * 0.1`.
   */
  function PathPoint(start: Point, end: Point, i: nat, sin: real -> real): Point
  {
    var t := i as real / Steps as real;
    Point(start.lng + (end.lng - start.lng) * t,
          start.lat + (end.lat - start.lat) * t + sin(t * PI) * Lift)
  }

  /** `createCurvedPath`: the points for `i = 0 .. 100`, in order. */
  function CurvedPath(start: Point, end: Point, sin: real -> real): (path: seq<Point>)
    ensures |path| == Steps + 1
  {
    seq(Steps + 1, i requires 0 <= i <= Steps => PathPoint(start, end, i, sin))
  }

  /** The path starts exactly at `start` because the lift vanishes at 0. */
  lemma PathStartsAtStart(start: Point, end: Point, sin: real -> real)
    requires sin(0.0) == 0.0
    ensures CurvedPath(start, end, sin)[0] == start
  {
    assert 0 as real / Steps as real == 0.0;
  }

  /**
   * The path ends at `end`'s longitude, and at its latitude exactly when
   * the lift at `PI` vanishes.
   */
  lemma PathEndsAtEnd(start: Point, end: Point, sin: real -> real)
    ensures CurvedPath(start, end, sin)[Steps].lng == end.lng
    ensures CurvedPath(start, end, sin)[Steps] == end <==> sin(PI) == 0.0
  {
    assert Steps as real / Steps as real == 1.0;
  }

  /** Consecutive points are a hundredth of the longitude span apart. */
  lemma PathEvenlySpaced(start: Point, end: Point, sin: real -> real, i: nat)
    requires i < Steps
    ensures var path := CurvedPath(start, end, sin);
            path[i + 1].lng - path[i].lng == (end.lng - start.lng) / Steps as real
  {
    var path := CurvedPath(start, end, sin);
    var t, u := i as real / Steps as real, (i + 1) as real / Steps as real;
    assert u == t + 1.0 / Steps as real;
    calc {
      path[i + 1].lng - path[i].lng;
      (end.lng - start.lng) * u - (end.lng - start.lng) * t;
      (end.lng - start.lng) * (u - t);
      (end.lng - start.lng) / Steps as real;
    }
  }

  /**
   * When `sin` stays within [-1, 1], every point lies within the lift of the
   * straight line between the endpoints, and above it where `sin` is positive.
   */
  lemma PathWithinLift(start: Point, end: Point, sin: real -> real, i: nat)
    requires i <= Steps
    requires forall x :: -1.0 <= sin(x) <= 1.0
    ensures var p, t := CurvedPath(start, end, sin)[i], i as real / Steps as real;
            var straight := start.lat + (end.lat - start.lat) * t;
            && p.lng == start.lng + (end.lng - start.lng) * t
            && straight - Lift <= p.lat <= straight + Lift
            && (sin(t * PI) >= 0.0 ==> p.lat >= straight)
  {
    var t := i as real / Steps as real;
    var lift := sin(t * PI);
    assert -1.0 <= lift <= 1.0;
    assert CurvedPath(start, end, sin)[i] == PathPoint(start, end, i, sin);
    assert PathPoint(start, end, i, sin).lat == start.lat + (end.lat - start.lat) * t + lift * Lift;
  }

  // ---------------------------------------------------------------------
  // Progress and path indices
  // ---------------------------------------------------------------------

  /** `Math.min(elapsed / duration, 1)` for the time since the walk started. */
  function Progress(now: real, startTime: real): (p: real)
    ensures p <= 1.0
    ensures startTime <= now ==> 0.0 <= p
  {
    Min((now - startTime) / Duration, 1.0)
  }

  /** `Math.floor(progress * (path.length - 1))`. */
  function FrameIndex(p: real, len: nat): int
  {
    (p * (len as real - 1.0)).Floor
  }

  /** `Math.min(index + 1, path.length - 1)`. */
  function NextIndex(idx: int, len: nat): int
  {
    if idx + 1 <= len - 1 then idx + 1 else len - 1
  }

  /**
   * While the walk is under way the marker's index and the look-ahead index
   * are both on the path, the look-ahead no earlier than the marker; on a
   * path of two or more points the look-ahead is the very next point.
   */
  lemma IndicesOnPath(p: real, len: nat)
    requires 0.0 <= p < 1.0 && len >= 1
    ensures var idx := FrameIndex(p, len);
            var next := NextIndex(idx, len);
            && 0 <= idx <= next < len
            && (len >= 2 ==> next == idx + 1)
  {
    FrameIndexBounds(p, len);
  }

  /** The index for a progress in [0, 1) is at least 0 and short of the last point. */
  lemma FrameIndexBounds(p: real, len: nat)
    requires 0.0 <= p < 1.0 && len >= 1
    ensures 0 <= FrameIndex(p, len)
    ensures len >= 2 ==> FrameIndex(p, len) <= len - 2
    ensures len == 1 ==> FrameIndex(p, len) == 0
  {
    var span := len as real - 1.0;
    ScaleBounds(p, span);
    if len >= 2 {
      FloorWithin(p * span, len - 1);
    }
  }

  /** A real in [0, n) rounds down to an integer in [0, n - 1]. */
  lemma FloorWithin(x: real, n: int)
    requires 0.0 <= x < n as real
    ensures 0 <= x.Floor <= n - 1
  {
  }

  /** Scaling by a fraction in [0, 1) keeps a non-negative span's sign and stays short of it. */
  lemma ScaleBounds(p: real, span: real)
    requires 0.0 <= p < 1.0 && 0.0 <= span
    ensures 0.0 <= p * span && (span > 0.0 ==> p * span < span) && (span == 0.0 ==> p * span == 0.0)
  {
    if span > 0.0 {
      assert span - p * span == (1.0 - p) * span;
    }
  }

  /** Before the recorded start time the index is negative: there is no such point. */
  lemma IndexBeforeStart(now: real, startTime: real, len: nat)
    requires now < startTime && len >= 2
    ensures FrameIndex(Progress(now, startTime), len) < 0
  {
    var p, span := Progress(now, startTime), len as real - 1.0;
    assert p < 0.0;
    assert p * span < 0.0 by {
      assert (-p) * span > 0.0;
    }
  }

  /** The marker never moves back along the path as time goes on. */
  lemma IndexMonotone(now: real, later: real, startTime: real, len: nat)
    requires now <= later && len >= 1
    ensures Progress(now, startTime) <= Progress(later, startTime)
    ensures FrameIndex(Progress(now, startTime), len) <= FrameIndex(Progress(later, startTime), len)
  {
    var p, q, span := Progress(now, startTime), Progress(later, startTime), len as real - 1.0;
    assert (now - startTime) / Duration <= (later - startTime) / Duration;
    assert p <= q;
    assert p * span <= q * span by {
      assert (q - p) * span >= 0.0;
    }
  }

  // ---------------------------------------------------------------------
  // The animation state
  // ---------------------------------------------------------------------

  /**
   * The component's animation refs and the browser's frame queue: the path
   * and start time captured by the `animate` closure, `animation.current`,
   * the frames requested and neither fired nor cancelled, the next handle
   * the browser will give out, and the eVTOL marker's pose if it exists.
   */
  datatype Flight = Flight(
    path: seq<Point>,
    startTime: real,
    animation: Option<FrameHandle>,
    pending: set<FrameHandle>,
    nextHandle: FrameHandle,
    evtol: Option<MarkerPose>)
  {
    /**
     * At most one frame is pending, and it is the one `animation.current`
     * holds; handles already given out are below `nextHandle`; once the walk
     * has started the path has all its points.
     */
    predicate Valid()
    {
      && (forall h :: h in pending ==> animation == Some(h))
      && (animation.Some? ==> animation.value < nextHandle && |path| == Steps + 1)
    }

    /** `animateEvtol`: record the start time, build the path, request the first frame. */
    function AnimateEvtol(start: Point, end: Point, now: real, sin: real -> real): Flight
    {
      this.(path := CurvedPath(start, end, sin), startTime := now,
            animation := Some(nextHandle), pending := pending + {nextHandle},
            nextHandle := nextHandle + 1)
    }

    /**
     * The frame at `now` would throw: the walk is under way but the index is
     * off the front of the path, and the marker is there to be moved to the
     * missing point.
     */
    predicate Throws(now: real)
    {
      var p := Progress(now, startTime);
      p < 1.0 && FrameIndex(p, |path|) < 0 && evtol.Some?
    }

    /**
     * The pending frame `h` firing at `now`. Once the progress reaches 1
     * nothing more happens, and neither does anything after a throw.
     * Otherwise the marker (if any) moves to the path point for the progress,
     * facing the next point, and the next frame is requested.
     */
    function Animate(h: FrameHandle, now: real): Flight
      requires Valid() && h in pending
    {
      var c := this.(pending := pending - {h});
      var p := Progress(now, startTime);
      if p >= 1.0 || Throws(now) then c
      else
        var idx := FrameIndex(p, |path|);
        c.(evtol := if evtol.Some? then Some(MarkerPose(path[idx], Toward(path[NextIndex(idx, |path|)])))
                    else None,
           animation := Some(nextHandle),
           pending := c.pending + {nextHandle},
           nextHandle := nextHandle + 1)
    }

    /** The effect's cleanup: the handle in `animation.current`, if any, is cancelled. */
    function Cleanup(): Flight
    {
      if animation.Some? then this.(pending := pending - {animation.value}) else this
    }
  }

  /** A freshly mounted map: the eVTOL marker at the origin, nothing animating yet. */
  function Mounted(from: Location): (c: Flight)
    ensures c.Valid() && c.pending == {}
  {
    Flight([], 0.0, None, {}, 1, Some(MarkerPose(At(from), Unrotated)))
  }

  /** Starting the walk on a map with nothing pending keeps the state valid and leaves one frame pending. */
  lemma AnimateEvtolStarts(c: Flight, start: Point, end: Point, now: real, sin: real -> real)
    requires c.Valid() && c.pending == {}
    ensures var r := c.AnimateEvtol(start, end, now, sin);
            && r.Valid() && r.pending == {c.nextHandle} && r.animation == Some(c.nextHandle)
            && r.path == CurvedPath(start, end, sin) && r.evtol == c.evtol
  {
  }

  /** A frame firing keeps the state valid. */
  lemma AnimateKeepsValid(c: Flight, h: FrameHandle, now: real)
    requires c.Valid() && h in c.pending
    ensures c.Animate(h, now).Valid()
  {
    assert c.pending == {h};
    var p := Progress(now, c.startTime);
    if p < 1.0 && !c.Throws(now) && c.evtol.Some? {
      IndicesOnPath(p, |c.path|);
    }
  }

  /**
   * A frame firing requests the next one exactly when the walk is not over
   * and the frame did not throw; then that one is the only frame pending,
   * and otherwise none is.
   */
  lemma AnimateRequestsNextIff(c: Flight, h: FrameHandle, now: real)
    requires c.Valid() && h in c.pending
    ensures var r := c.Animate(h, now);
            && (r.pending != {} <==> Progress(now, c.startTime) < 1.0 && !c.Throws(now))
            && (r.pending != {} ==> r.pending == {c.nextHandle} && r.animation == Some(c.nextHandle))
  {
    assert c.pending == {h};
  }

  /**
   * Once the start time is not after `now` and the walk is not over, the
   * frame cannot throw and the marker, if any, sits on path point
   * `floor(progress * 100)` facing the next one.
   */
  lemma AnimateMovesMarker(c: Flight, h: FrameHandle, now: real)
    requires c.Valid() && h in c.pending
    requires c.startTime <= now && Progress(now, c.startTime) < 1.0
    ensures !c.Throws(now)
    ensures var r := c.Animate(h, now);
            var idx := FrameIndex(Progress(now, c.startTime), Steps + 1);
            && 0 <= idx < Steps
            && (r.evtol.Some? <==> c.evtol.Some?)
            && (c.evtol.Some? ==> r.evtol == Some(MarkerPose(c.path[idx], Toward(c.path[idx + 1]))))
  {
    assert c.animation == Some(h);
    IndicesOnPath(Progress(now, c.startTime), Steps + 1);
  }

  /** Ten seconds after the start no further frame is requested. */
  lemma AnimationStops(c: Flight, h: FrameHandle, now: real)
    requires c.Valid() && h in c.pending && now >= c.startTime + Duration
    ensures c.Animate(h, now).pending == {}
  {
    assert c.pending == {h};
    assert (now - c.startTime) / Duration >= 1.0;
  }

  /**
   * Cleanup leaves no frame pending and the state valid; it does not clear
   * `animation.current`, so the handle stays there.
   */
  lemma CleanupCancels(c: Flight)
    requires c.Valid()
    ensures var r := c.Cleanup();
            && r.Valid() && r.pending == {} && r.animation == c.animation
            && r.path == c.path && r.evtol == c.evtol
  {
    if c.animation.Some? {
      assert forall h :: h in c.pending ==> h == c.animation.value;
    } else {
      assert forall h :: h !in c.pending;
    }
  }

  /** The component's refs, updated in place by the effect, the closure and the cleanup. */
  class FlightMapView {
    var path: seq<Point>
    var startTime: real
    var animation: Option<FrameHandle>
    var pending: set<FrameHandle>
    var nextHandle: FrameHandle
    var evtol: Option<MarkerPose>

    function State(): Flight
      reads this
    {
      Flight(path, startTime, animation, pending, nextHandle, evtol)
    }

    predicate Valid()
      reads this
    {
      State().Valid()
    }

    /** Mounting: the eVTOL marker is created at the origin. */
    constructor (from: Location)
      ensures State() == Mounted(from) && Valid()
    {
      path, startTime := [], 0.0;
      animation, pending, nextHandle := None, {}, 1;
      evtol := Some(MarkerPose(At(from), Unrotated));
    }

    /** `animateEvtol`, run when the map has loaded. */
    method AnimateEvtol(start: Point, end: Point, now: real, sin: real -> real)
      requires Valid() && pending == {}
      modifies this
      ensures State() == old(State()).AnimateEvtol(start, end, now, sin) && Valid()
    {
      AnimateEvtolStarts(State(), start, end, now, sin);
      startTime := now;
      path := CurvedPath(start, end, sin);
      animation, pending, nextHandle := Some(nextHandle), pending + {nextHandle}, nextHandle + 1;
    }

    /** `animate`, the frame `h` firing at `now`; `threw` says whether `setLngLat` threw. */
    method Animate(h: FrameHandle, now: real) returns (threw: bool)
      requires Valid() && h in pending
      modifies this
      ensures State() == old(State()).Animate(h, now) && Valid()
      ensures threw == old(State()).Throws(now)
    {
      ghost var c0 := State();
      AnimateKeepsValid(c0, h, now);
      pending := pending - {h};
      threw := false;
      var progress := Progress(now, startTime);
      if progress < 1.0 {
        var idx := FrameIndex(progress, |path|);
        if evtol.Some? {
          if idx < 0 {
            threw := true;
            return;
          }
          IndicesOnPath(progress, |path|);
          evtol := Some(MarkerPose(path[idx], Toward(path[NextIndex(idx, |path|)])));
        }
        animation, pending, nextHandle := Some(nextHandle), pending + {nextHandle}, nextHandle + 1;
      }
    }

    /** The effect's cleanup: cancel the frame in `animation.current`, if any. */
    method Cleanup()
      requires Valid()
      modifies this
      ensures State() == old(State()).Cleanup() && Valid()
    {
      CleanupCancels(State());
      if animation.Some? {
        pending := pending - {animation.value};
      }
    }
  }
}

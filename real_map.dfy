/**
 * The live map's overlay controller: the public-route overlays refreshed from
 * the database, the active route with its animated eVTOL marker, and the
 * refs that tie them together (the tracked public layer ids, the animation
 * frame handle, the marker, the animation start time and progress).
 *
 * The map is a `RenderSurface`; the database rows, the sample parameters of
 * the floating-point curve loops, `Math.sqrt` and the driving route returned
 * by the directions service are inputs.
 */
module RealMap {
  import opened Types
  import opened Curves
  import opened Surface
  import opened RouteDedup

  /** The layers `cleanupRoutes` removes, in its order. */
  const CleanupLayers: seq<LayerId> :=
    [NamedLayer(FlyingRoute), NamedLayer(FlyingRouteBg), NamedLayer(DrivingRoute), NamedLayer(PointMarkers)]

  /** The sources `cleanupRoutes` removes, in its order. */
  const CleanupSources: seq<SourceId> :=
    [NamedSource(FlyingRoute), NamedSource(DrivingRoute), NamedSource(PointMarkers)]

  /** The ids `cleanupRoutes` removes are all fixed names, never a public route's. */
  lemma CleanupIdsNamed()
    ensures forall id :: id in CleanupLayers ==> !id.IsPublic()
    ensures forall sid :: sid in CleanupSources ==> !sid.IsPublic()
  {
  }

  /** One loop of the marker along the active route, in milliseconds. */
  const LoopMs: real := 10000.0

  /** How far ahead of the marker the bearing is taken, and how long the fading tail is. */
  const Step: real := 0.01

  /** The gradient the active line starts with. */
  const InitialGradient: Gradient := Gradient(0.01, 0.02)

  // ---------------------------------------------------------------------
  // Public-route overlays
  // ---------------------------------------------------------------------

  /** No layer of a public route is on the map. */
  predicate NoPublicLayers(s: Scene)
  {
    forall id :: id in s.layers ==> !id.IsPublic()
  }

  /** Every public-route layer on the map has an index below `n`. */
  predicate PublicLayersBelow(s: Scene, n: nat)
  {
    forall id :: id in s.layers && id.IsPublic() ==> id.index < n
  }

  /**
   * When every public layer has an index below `i`, the three layer ids of
   * index `i` are free and no layer draws either source of index `i`.
   */
  lemma FreshIndex(s: Scene, i: nat)
    requires s.Wellformed() && PublicLayersBelow(s, i)
    ensures PublicMarkersLayer(i) !in s.layers && PublicLineLayer(i) !in s.layers && PublicBgLayer(i) !in s.layers
    ensures s.Unused(PublicLineSource(i)) && s.Unused(PublicMarkersSource(i))
  {
    forall id | id in s.layers
      ensures s.layers[id].source != PublicLineSource(i) && s.layers[id].source != PublicMarkersSource(i)
    {
      assert s.layers[id].source == ExpectedSource(id);
    }
  }

  /** The line of a public route: its endpoints joined by the cubic arc. */
  function OverlayLine(route: PublicRoute, ts: seq<real>, sqrt: real -> real): seq<Point>
  {
    var a, b := At(route.from), At(route.to);
    PublicLine(a, b, CurveHeight(a, b, sqrt), ts)
  }

  /**
   * The overlay line of every route, for one sampling. The overlay functions
   * below take the line as this parameter, so that their reasoning about
   * ids never has to look inside the curve.
   */
  function OverlayLines(ts: seq<real>, sqrt: real -> real): PublicRoute -> seq<Point>
  {
    route => OverlayLine(route, ts, sqrt)
  }

  /** The removals logged for the stale sources of index `i`: each of its two sources that is present. */
  function StaleRemovals(s: Scene, i: nat): seq<Op>
  {
    (if PublicLineSource(i) in s.sources then [RemovedSource(PublicLineSource(i))] else []) +
    (if PublicMarkersSource(i) in s.sources then [RemovedSource(PublicMarkersSource(i))] else [])
  }

  /**
   * One iteration of the overlay loop for the route at index `i`: stale
   * sources of that index are removed where present, then the line and
   * endpoint sources are added, then the markers, line and background layers.
   * The result is the old layers plus these three, the old sources with that
   * index's two set to this route's line and endpoints, and the log extended
   * by those changes in that order. It is legal exactly when the index is
   * fresh, and it keeps the map well formed.
   */
  function AddRouteOverlay(s: Scene, i: nat, route: PublicRoute, lineOf: PublicRoute -> seq<Point>): (r: Scene)
    requires s.Wellformed() && PublicLayersBelow(s, i)
    ensures r.Wellformed() && PublicLayersBelow(r, i + 1)
  {
    var line, marks := PublicLineSource(i), PublicMarkersSource(i);
    Scene(s.layers[PublicMarkersLayer(i) := Layer(marks, None)]
                  [PublicLineLayer(i) := Layer(line, None)]
                  [PublicBgLayer(i) := Layer(line, None)],
          s.sources[line := LineString(lineOf(route))]
                   [marks := Endpoints(At(route.from), At(route.to))],
          s.ops + StaleRemovals(s, i) + [AddedSource(line)] + [AddedSource(marks)]
                + [AddedLayer(PublicMarkersLayer(i))] + [AddedLayer(PublicLineLayer(i))]
                + [AddedLayer(PublicBgLayer(i))])
  }

  /** Setting two sources after removing them is the same as setting them. */
  lemma ResetSources(m: map<SourceId, SourceData>, a: SourceId, b: SourceId, x: SourceData, y: SourceData)
    ensures (m - {a, b})[a := x][b := y] == m[a := x][b := y]
  {
  }

  /**
   * The overlays of the first `n` routes, added at indices 0, 1, … in order
   * onto a map with no public layer.
   */
  function AddOverlays(s: Scene, routes: seq<PublicRoute>, n: nat, lineOf: PublicRoute -> seq<Point>): (r: Scene)
    requires s.Wellformed() && NoPublicLayers(s) && n <= |routes|
    ensures r.Wellformed() && PublicLayersBelow(r, n)
  {
    if n == 0 then s
    else AddRouteOverlay(AddOverlays(s, routes, n - 1, lineOf), n - 1, routes[n - 1], lineOf)
  }

  /** The layers after adding the overlays of the first `n` routes to a map whose layers were `base`. */
  function OverlayLayers(base: map<LayerId, Layer>, n: nat): map<LayerId, Layer>
  {
    if n == 0 then base
    else
      OverlayLayers(base, n - 1)
        [PublicMarkersLayer(n - 1) := Layer(PublicMarkersSource(n - 1), None)]
        [PublicLineLayer(n - 1) := Layer(PublicLineSource(n - 1), None)]
        [PublicBgLayer(n - 1) := Layer(PublicLineSource(n - 1), None)]
  }

  /** After the overlays of the first `n` routes the layers are those of `OverlayLayers`. */
  lemma {:induction false} AddOverlaysLayerMap(s: Scene, routes: seq<PublicRoute>, n: nat,
                                               lineOf: PublicRoute -> seq<Point>)
    requires s.Wellformed() && NoPublicLayers(s) && n <= |routes|
    ensures AddOverlays(s, routes, n, lineOf).layers == OverlayLayers(s.layers, n)
  {
    if n > 0 {
      AddOverlaysLayerMap(s, routes, n - 1, lineOf);
      var prev := AddOverlays(s, routes, n - 1, lineOf);
      assert AddOverlays(s, routes, n, lineOf) == AddRouteOverlay(prev, n - 1, routes[n - 1], lineOf);
    }
  }

  /**
   * What the overlay loop leaves in the layers: the three ids of every index
   * below `n`, and every other layer unchanged.
   */
  lemma {:induction false} OverlayLayersContent(base: map<LayerId, Layer>, n: nat)
    ensures var m := OverlayLayers(base, n);
            && (forall id :: id in m <==> id in base || (id.IsPublic() && id.index < n))
            && (forall id :: id in base && !(id.IsPublic() && id.index < n) ==> m[id] == base[id])
  {
    if n > 0 {
      OverlayLayersContent(base, n - 1);
      NextIndexIds(n - 1);
    }
  }

  /**
   * After the overlays of the first `n` routes the public layers are exactly
   * the three of each index below `n`, and the other layers are untouched.
   */
  lemma AddOverlaysLayers(s: Scene, routes: seq<PublicRoute>, n: nat, lineOf: PublicRoute -> seq<Point>)
    requires s.Wellformed() && NoPublicLayers(s) && n <= |routes|
    ensures var r := AddOverlays(s, routes, n, lineOf);
            && (forall id :: id in r.layers <==> id in s.layers || (id.IsPublic() && id.index < n))
            && (forall id :: id in s.layers ==> r.layers[id] == s.layers[id])
  {
    AddOverlaysLayerMap(s, routes, n, lineOf);
    OverlayLayersContent(s.layers, n);
  }

  /** After the overlays of the first `n` routes the sources are those of `OverlaySources`. */
  lemma {:induction false} AddOverlaysSources(s: Scene, routes: seq<PublicRoute>, n: nat,
                                              lineOf: PublicRoute -> seq<Point>)
    requires s.Wellformed() && NoPublicLayers(s) && n <= |routes|
    ensures AddOverlays(s, routes, n, lineOf).sources == OverlaySources(s.sources, routes, n, lineOf)
  {
    if n > 0 {
      AddOverlaysSources(s, routes, n - 1, lineOf);
      var prev := AddOverlays(s, routes, n - 1, lineOf);
      assert AddOverlays(s, routes, n, lineOf) == AddRouteOverlay(prev, n - 1, routes[n - 1], lineOf);
    }
  }

  /** The public layer ids below `n + 1` are those below `n` and the three of index `n`. */
  lemma NextIndexIds(n: nat)
    ensures forall id: LayerId {:trigger id.index} ::
              (id.IsPublic() && id.index < n + 1) <==>
              (id.IsPublic() && id.index < n) || id in {PublicMarkersLayer(n), PublicLineLayer(n), PublicBgLayer(n)}
  {
  }

  /** The sources after adding the overlays of the first `n` routes to a map whose sources were `base`. */
  function OverlaySources(base: map<SourceId, SourceData>, routes: seq<PublicRoute>, n: nat,
                          lineOf: PublicRoute -> seq<Point>): map<SourceId, SourceData>
    requires n <= |routes|
  {
    if n == 0 then base
    else
      OverlaySources(base, routes, n - 1, lineOf)
        [PublicLineSource(n - 1) := LineString(lineOf(routes[n - 1]))]
        [PublicMarkersSource(n - 1) := Endpoints(At(routes[n - 1].from), At(routes[n - 1].to))]
  }

  /** What the overlay loop leaves in the sources: each index below `n` holds that route's line and endpoints. */
  lemma {:induction false} OverlaySourcesFilled(base: map<SourceId, SourceData>, routes: seq<PublicRoute>, n: nat,
                                                lineOf: PublicRoute -> seq<Point>)
    requires n <= |routes|
    ensures var m := OverlaySources(base, routes, n, lineOf);
            forall i :: 0 <= i < n ==>
              && PublicLineSource(i) in m && m[PublicLineSource(i)] == LineString(lineOf(routes[i]))
              && PublicMarkersSource(i) in m
              && m[PublicMarkersSource(i)] == Endpoints(At(routes[i].from), At(routes[i].to))
  {
    if n > 0 {
      OverlaySourcesFilled(base, routes, n - 1, lineOf);
    }
  }

  /**
   * The rest of the sources after the overlay loop: every source not of an
   * index below `n` survives unchanged, stale ones of higher indices
   * included, and nothing else appears.
   */
  lemma {:induction false} OverlaySourcesKept(base: map<SourceId, SourceData>, routes: seq<PublicRoute>, n: nat,
                                              lineOf: PublicRoute -> seq<Point>)
    requires n <= |routes|
    ensures var m := OverlaySources(base, routes, n, lineOf);
            && (forall sid :: sid in base && !(sid.IsPublic() && sid.index < n) ==>
                  sid in m && m[sid] == base[sid])
            && (forall sid :: sid in m ==> sid in base || (sid.IsPublic() && sid.index < n))
  {
    if n > 0 {
      OverlaySourcesKept(base, routes, n - 1, lineOf);
    }
  }

  /** The ids pushed onto the tracked list for `n` routes: markers, line, background, per index. */
  function TrackedIds(n: nat): (ids: seq<LayerId>)
    ensures |ids| == 3 * n
  {
    if n == 0 then []
    else TrackedIds(n - 1) + [PublicMarkersLayer(n - 1), PublicLineLayer(n - 1), PublicBgLayer(n - 1)]
  }

  /** The tracked list for `n` routes holds exactly the public layer ids below index `n`. */
  lemma {:induction false} TrackedIdsMembers(n: nat)
    ensures forall id :: id in TrackedIds(n) <==> id.IsPublic() && id.index < n
  {
    if n > 0 {
      TrackedIdsMembers(n - 1);
      NextIndexIds(n - 1);
    }
  }

  /** The tracked list holds each index's markers, line and background ids, in index order. */
  lemma {:induction false} TrackedIdsOrder(n: nat, i: nat)
    requires i < n
    ensures TrackedIds(n)[3 * i] == PublicMarkersLayer(i)
    ensures TrackedIds(n)[3 * i + 1] == PublicLineLayer(i)
    ensures TrackedIds(n)[3 * i + 2] == PublicBgLayer(i)
  {
    var prev := TrackedIds(n - 1);
    assert TrackedIds(n) == prev + [PublicMarkersLayer(n - 1), PublicLineLayer(n - 1), PublicBgLayer(n - 1)];
    if i < n - 1 {
      TrackedIdsOrder(n - 1, i);
      assert 3 * i + 2 < |prev|;
    } else {
      assert 3 * i == |prev|;
    }
  }

  /** After a refresh the tracked ids are exactly the public layers on the map. */
  lemma TrackedMatchesOverlays(s: Scene, routes: seq<PublicRoute>, lineOf: PublicRoute -> seq<Point>)
    requires s.Wellformed() && NoPublicLayers(s)
    ensures var r := AddOverlays(s, routes, |routes|, lineOf);
            forall id :: id in TrackedIds(|routes|) <==> id in r.layers && id.IsPublic()
  {
    AddOverlaysLayers(s, routes, |routes|, lineOf);
    TrackedIdsMembers(|routes|);
  }

  // ---------------------------------------------------------------------
  // Active route
  // ---------------------------------------------------------------------

  /** What the animation closure captures: the arc's endpoints and its lift. */
  datatype Flight = Flight(from: Point, to: Point, height: real)

  function FlightOf(route: ActiveRoute, sqrt: real -> real): (f: Flight)
    ensures f.from == At(route.from) && f.to == At(route.to)
  {
    Flight(At(route.from), At(route.to), CurveHeight(At(route.from), At(route.to), sqrt))
  }

  /** The map after `cleanupRoutes`: the four active layers go, then the three active sources. */
  function CleanedScene(s: Scene): (r: Scene)
    requires s.Wellformed()
    ensures r.Wellformed()
  {
    var mid := RemoveLayersIfPresent(s, CleanupLayers);
    CleanupSourcesUnused(mid);
    RemoveSourcesIfPresent(mid, CleanupSources)
  }

  /**
   * What `cleanupRoutes` does to the map: exactly the four active layers and
   * the three active sources are gone, everything else is kept as it was, and
   * the log grows by removals only, the layer removals before the source
   * removals.
   */
  lemma CleanedSceneContent(s: Scene)
    requires s.Wellformed()
    ensures var r := CleanedScene(s);
            && (forall id :: id in r.layers <==> id in s.layers && id !in CleanupLayers)
            && (forall id :: id in r.layers ==> r.layers[id] == s.layers[id])
            && (forall sid :: sid in r.sources <==> sid in s.sources && sid !in CleanupSources)
            && (forall sid :: sid in r.sources ==> r.sources[sid] == s.sources[sid])
            && s.ops <= r.ops
            && (forall k :: |s.ops| <= k < |r.ops| ==> r.ops[k].RemovedLayer? || r.ops[k].RemovedSource?)
            && (forall j, k :: |s.ops| <= j < k < |r.ops| && r.ops[k].RemovedLayer? ==> r.ops[j].RemovedLayer?)
  {
    var mid := RemoveLayersIfPresent(s, CleanupLayers);
    CleanupSourcesUnused(mid);
  }

  /** Once the four active layers are gone, no layer draws any of the three active sources. */
  lemma CleanupSourcesUnused(s: Scene)
    requires s.Wellformed()
    requires forall id :: id in CleanupLayers ==> id !in s.layers
    ensures forall sid :: sid in CleanupSources ==> s.Unused(sid)
  {
    forall sid, id | sid in CleanupSources && id in s.layers
      ensures s.layers[id].source != sid
    {
      assert s.layers[id].source == ExpectedSource(id);
      assert id !in CleanupLayers;
    }
  }

  /** Removing layers none of which is present changes nothing, not even the log. */
  lemma {:induction false} RemoveAbsentLayers(s: Scene, ids: seq<LayerId>)
    requires forall id :: id in ids ==> id !in s.layers
    ensures RemoveLayersIfPresent(s, ids) == s
    decreases |ids|
  {
    if ids != [] {
      RemoveAbsentLayers(s, ids[..|ids| - 1]);
    }
  }

  /** Removing sources none of which is present changes nothing, not even the log. */
  lemma {:induction false} RemoveAbsentSources(s: Scene, ids: seq<SourceId>)
    requires forall id :: id in ids ==> id !in s.sources && s.Unused(id)
    ensures RemoveSourcesIfPresent(s, ids) == s
    decreases |ids|
  {
    if ids != [] {
      RemoveAbsentSources(s, ids[..|ids| - 1]);
    }
  }

  /** Cleaning up twice leaves the map exactly as cleaning up once. */
  lemma CleanupIdempotent(s: Scene)
    requires s.Wellformed()
    ensures CleanedScene(CleanedScene(s)) == CleanedScene(s)
  {
    var c := CleanedScene(s);
    RemoveAbsentLayers(c, CleanupLayers);
    CleanupSourcesUnused(c);
    RemoveAbsentSources(c, CleanupSources);
  }

  /**
   * The flown arc and its endpoints, added onto a cleaned map in `addRoute`'s
   * order: the line source, its background layer and its gradient layer, then
   * the endpoint source and layer. The driving route's ids stay free.
   */
  function WithFlyingRoute(s: Scene, f: Flight, line: seq<Point>): (r: Scene)
    requires s.Wellformed()
    requires forall id :: id in CleanupLayers ==> id !in s.layers
    requires forall sid :: sid in CleanupSources ==> sid !in s.sources
    ensures r.Wellformed()
    ensures NamedLayer(DrivingRoute) !in r.layers && NamedSource(DrivingRoute) !in r.sources
  {
    var src, marks := NamedSource(FlyingRoute), NamedSource(PointMarkers);
    Scene(s.layers[NamedLayer(FlyingRouteBg) := Layer(src, None)]
                  [NamedLayer(FlyingRoute) := Layer(src, Some(InitialGradient))]
                  [NamedLayer(PointMarkers) := Layer(marks, None)],
          s.sources[src := LineString(line)][marks := Endpoints(f.from, f.to)],
          s.ops + [AddedSource(src)] + [AddedLayer(NamedLayer(FlyingRouteBg))]
                + [AddedLayer(NamedLayer(FlyingRoute))] + [AddedSource(marks)]
                + [AddedLayer(NamedLayer(PointMarkers))])
  }

  /**
   * The active route's overlays: the flown arc and its endpoints, then the
   * driving route's source and layer when the directions service gave one.
   */
  function WithActiveRoute(s: Scene, f: Flight, line: seq<Point>, driving: Option<seq<Point>>): (r: Scene)
    requires s.Wellformed()
    requires forall id :: id in CleanupLayers ==> id !in s.layers
    requires forall sid :: sid in CleanupSources ==> sid !in s.sources
    ensures r.Wellformed()
  {
    var drawn := WithFlyingRoute(s, f, line);
    match driving
    case None => drawn
    case Some(d) =>
      drawn.AddSource(NamedSource(DrivingRoute), LineString(d))
           .AddLayer(NamedLayer(DrivingRoute), Layer(NamedSource(DrivingRoute), None))
  }

  /**
   * What `addRoute` leaves on the map: the three or four active layers (the
   * driving one exactly when a driving route came back) and their sources,
   * the line holding the sampled arc with its initial gradient, the endpoint
   * source holding the two ends; every earlier layer is kept as it was and no
   * public layer appears.
   */
  lemma ActiveRouteDrawn(s: Scene, f: Flight, line: seq<Point>, driving: Option<seq<Point>>)
    requires s.Wellformed()
    requires forall id :: id in CleanupLayers ==> id !in s.layers
    requires forall sid :: sid in CleanupSources ==> sid !in s.sources
    ensures var r := WithActiveRoute(s, f, line, driving);
            && NamedLayer(FlyingRoute) in r.layers && NamedLayer(FlyingRouteBg) in r.layers
            && NamedLayer(PointMarkers) in r.layers
            && (NamedLayer(DrivingRoute) in r.layers <==> driving.Some?)
            && r.layers[NamedLayer(FlyingRoute)].gradient == Some(InitialGradient)
            && r.sources[NamedSource(FlyingRoute)] == LineString(line)
            && r.sources[NamedSource(PointMarkers)] == Endpoints(f.from, f.to)
            && (forall id :: id in r.layers && id.IsPublic() ==> id in s.layers)
            && (forall id :: id in s.layers ==> id in r.layers && r.layers[id] == s.layers[id])
  {
  }

  // ---------------------------------------------------------------------
  // Animation arithmetic
  // ---------------------------------------------------------------------

  /** JavaScript's truncation toward zero. */
  function Trunc(x: real): (n: int)
    ensures 0.0 <= x ==> n as real <= x < n as real + 1.0
    ensures x < 0.0 ==> n as real - 1.0 < x <= n as real
  {
    if x >= 0.0 then x.Floor else -((-x).Floor)
  }

  /**
   * JavaScript's `x % 1`: `x` less a whole number, in [0, 1) when `x` is not
   * negative and in (-1, 0] when it is.
   */
  function RemOne(x: real): (f: real)
    ensures (x - f).Floor as real == x - f
    ensures 0.0 <= x ==> 0.0 <= f < 1.0
    ensures x < 0.0 ==> -1.0 < f <= 0.0
  {
    x - Trunc(x) as real
  }

  /** The marker's position along the active arc for `timestamp`, once `start` is set. */
  function ArcProgress(timestamp: real, start: real): (t: real)
    ensures start <= timestamp ==> 0.0 <= t < 1.0
  {
    RemOne((timestamp - start) / LoopMs)
  }

  /** The parameter the bearing is taken toward: a step ahead, capped at the end of the arc. */
  function LookAhead(t: real): (next: real)
    ensures t <= 1.0 ==> t <= next <= 1.0
    ensures t < 1.0 ==> t < next
    ensures t <= 1.0 - Step ==> next == t + Step
  {
    Min(1.0, t + Step)
  }

  /**
   * The moving stops of the active line's gradient: opaque up to a step
   * behind the marker, transparent from the marker on. For a position in
   * [0, 1] the stops stay in [0, 1] and in order.
   */
  function TrailGradient(t: real): (g: Gradient)
    ensures 0.0 <= t <= 1.0 ==> 0.0 <= g.opaqueUntil <= g.clearFrom <= 1.0
    ensures 0.0 <= t <= 1.0 ==> g.clearFrom == t
  {
    Gradient(Max(0.0, t - Step), Min(1.0, t))
  }

  /**
   * Together with the fixed first stop at 0, the three stops are strictly
   * increasing exactly when the marker is more than one step into the arc;
   * up to there the first two stops coincide at 0.
   */
  lemma TrailStopsStrictIff(t: real)
    requires 0.0 <= t <= 1.0
    ensures (0.0 < TrailGradient(t).opaqueUntil < TrailGradient(t).clearFrom) <==> t > Step
    ensures t <= Step ==> TrailGradient(t).opaqueUntil == 0.0
  {
  }

  /** The marker at position `t`: on the quadratic arc, facing the look-ahead point. */
  function MarkerAt(f: Flight, t: real): (pose: MarkerPose)
    ensures t == 0.0 ==> pose.at == f.from
    ensures pose.heading.Toward?
  {
    MarkerPose(QuadPoint(f.from, f.to, f.height, t),
               Toward(QuadPoint(f.from, f.to, f.height, LookAhead(t))))
  }

  // ---------------------------------------------------------------------
  // The component's state as a value
  // ---------------------------------------------------------------------

  /**
   * The map's overlay state together with the component's refs: whether the
   * map exists, the tracked public layer ids, the animation start time and
   * progress, the stored frame handle, the frames requested and neither fired
   * nor cancelled, the handle the browser gives the next request, the marker,
   * and the arc captured by the current animation closure.
   */
  datatype Controller = Controller(
    scene: Scene, mapLive: bool, tracked: seq<LayerId>, start: real, progress: real,
    frame: Option<FrameHandle>, pending: set<FrameHandle>, nextHandle: FrameHandle,
    marker: Option<MarkerPose>, flight: Option<Flight>)
  {
    /**
     * The map's layers draw the sources they should; every public layer on
     * the map is tracked and only those are; the only frame that can still
     * fire is the stored one, and it has an arc to follow.
     */
    predicate Valid()
    {
      && scene.Wellformed()
      && (forall id :: id in tracked ==> id in scene.layers && id.IsPublic())
      && (forall id :: id in scene.layers && id.IsPublic() ==> id in tracked)
      && (forall h :: h in pending ==> frame == Some(h) && h < nextHandle)
      && (frame.Some? ==> flight.Some?)
    }

    /** None of the active route's layers or sources is on the map. */
    predicate Cleared()
    {
      && (forall id :: id in CleanupLayers ==> id !in scene.layers)
      && (forall sid :: sid in CleanupSources ==> sid !in scene.sources)
    }

    /**
     * The periodic refresh given the query result (`None` when the query
     * fails): the tracked layers are removed, the list emptied, and the kept
     * routes drawn at indices 0, 1, … with their ids tracked in order.
     */
    function Refresh(rows: Option<seq<PublicRoute>>, active: Option<ActiveRoute>,
                     ts: seq<real>, sqrt: real -> real): Controller
      requires Valid()
    {
      if !mapLive || rows.None? then this
      else
        var cleared := RemoveLayersIfPresent(scene, tracked);
        assert NoPublicLayers(cleared);
        var kept := FilterRoutes(rows.value, active);
        this.(scene := AddOverlays(cleared, kept, |kept|, OverlayLines(ts, sqrt)), tracked := TrackedIds(|kept|))
    }

    /**
     * `cleanupRoutes`: the stored frame is cancelled and the handle cleared,
     * the active layers and then the active sources are removed, the marker is
     * dropped, and `start` and the progress go back to 0.
     */
    function Cleanup(): Controller
      requires Valid()
    {
      if !mapLive then this
      else
        this.(scene := CleanedScene(scene),
              frame := None,
              pending := if frame.Some? then pending - {frame.value} else pending,
              marker := None, start := 0.0, progress := 0.0)
    }

    /**
     * `addRoute` on a cleaned map: the arc sampled at `ts`, the endpoints and
     * the driving route if one came back are drawn, the marker is put at the
     * origin, `start` is reset, and the first frame is requested for a
     * closure following this arc.
     */
    function AddRoute(route: ActiveRoute, ts: seq<real>, sqrt: real -> real, driving: Option<seq<Point>>): Controller
      requires Valid() && Cleared() && pending == {}
    {
      var f := FlightOf(route, sqrt);
      this.(scene := WithActiveRoute(scene, f, ActiveLine(f.from, f.to, f.height, ts), driving),
            marker := Some(MarkerPose(f.from, Unrotated)),
            start := 0.0,
            flight := Some(f),
            frame := Some(nextHandle),
            pending := pending + {nextHandle},
            nextHandle := nextHandle + 1)
    }

    /**
     * The effect run when the active route changes: clean up, then, with a
     * map and a route, add the route.
     */
    function ShowRoute(route: Option<ActiveRoute>, ts: seq<real>, sqrt: real -> real,
                       driving: Option<seq<Point>>): Controller
      requires Valid()
    {
      var c := Cleanup();
      if !c.mapLive || route.None? then c
      else
        CleanupKeepsValid(this);
        CleanupStopsAnimation(this);
        c.AddRoute(route.value, ts, sqrt, driving)
    }

    /**
     * The pending frame `h` firing at `timestamp`. Without a map the closure
     * returns and nothing is requested. Otherwise the first tick fixes
     * `start`, the position is the elapsed tenths of ten seconds modulo 1,
     * the marker (if any) moves there facing a step ahead, the active line's
     * gradient (if the layer is there) trails it, and the next frame is
     * requested.
     */
    function Tick(h: FrameHandle, timestamp: real): Controller
      requires Valid() && h in pending
    {
      var c := this.(pending := pending - {h});
      if !mapLive then c
      else
        var st := if start == 0.0 then timestamp else start;
        var t := ArcProgress(timestamp, st);
        var sc := if NamedLayer(FlyingRoute) in scene.layers
                  then scene.Repaint(NamedLayer(FlyingRoute), TrailGradient(t))
                  else scene;
        c.(start := st, progress := t,
           marker := if marker.Some? then Some(MarkerAt(flight.value, t)) else None,
           scene := sc,
           frame := Some(nextHandle),
           pending := c.pending + {nextHandle},
           nextHandle := nextHandle + 1)
    }
  }

  /** A freshly mounted map: nothing drawn, nothing tracked, nothing animating. */
  function Mounted(): (c: Controller)
    ensures c.Valid() && c.mapLive && c.Cleared()
  {
    Controller(Scene(map[], map[], []), true, [], 0.0, 0.0, None, {}, 1, None, None)
  }

  /** A refresh keeps the state valid. */
  lemma RefreshKeepsValid(c: Controller, rows: Option<seq<PublicRoute>>, active: Option<ActiveRoute>,
                          ts: seq<real>, sqrt: real -> real)
    requires c.Valid()
    ensures c.Refresh(rows, active, ts, sqrt).Valid()
  {
    if c.mapLive && rows.Some? {
      var cleared := RemoveLayersIfPresent(c.scene, c.tracked);
      TrackedMatchesOverlays(cleared, FilterRoutes(rows.value, active), OverlayLines(ts, sqrt));
    }
  }

  /**
   * With a map and a query result, a refresh leaves exactly the kept routes'
   * three layers per index as public layers, tracked in order, each index's
   * sources holding that route's line and endpoints, every other layer and
   * source (stale public sources of higher indices included) as it was, and
   * the animation refs and pending frames untouched.
   */
  lemma RefreshDrawsKeptRoutes(c: Controller, rows: Option<seq<PublicRoute>>, active: Option<ActiveRoute>,
                               ts: seq<real>, sqrt: real -> real)
    requires c.Valid() && c.mapLive && rows.Some?
    ensures var r := c.Refresh(rows, active, ts, sqrt);
            var kept := FilterRoutes(rows.value, active);
            && r.tracked == TrackedIds(|kept|)
            && (forall id :: id in r.scene.layers && id.IsPublic() <==> id.IsPublic() && id.index < |kept|)
            && (forall id :: id in c.scene.layers && !id.IsPublic() ==>
                  id in r.scene.layers && r.scene.layers[id] == c.scene.layers[id])
            && (forall i :: 0 <= i < |kept| ==>
                  && PublicLineSource(i) in r.scene.sources && PublicMarkersSource(i) in r.scene.sources
                  && r.scene.sources[PublicLineSource(i)] == LineString(OverlayLine(kept[i], ts, sqrt))
                  && r.scene.sources[PublicMarkersSource(i)] == Endpoints(At(kept[i].from), At(kept[i].to)))
            && (forall sid :: sid in c.scene.sources && !(sid.IsPublic() && sid.index < |kept|) ==>
                  sid in r.scene.sources && r.scene.sources[sid] == c.scene.sources[sid])
            && (forall sid :: sid in r.scene.sources ==> sid in c.scene.sources || (sid.IsPublic() && sid.index < |kept|))
            && r.mapLive && r.start == c.start && r.progress == c.progress
            && r.frame == c.frame && r.pending == c.pending && r.nextHandle == c.nextHandle
            && r.marker == c.marker && r.flight == c.flight
  {
    var cleared := RemoveLayersIfPresent(c.scene, c.tracked);
    var kept := FilterRoutes(rows.value, active);
    AddOverlaysLayers(cleared, kept, |kept|, OverlayLines(ts, sqrt));
    AddOverlaysSources(cleared, kept, |kept|, OverlayLines(ts, sqrt));
    OverlaySourcesFilled(cleared.sources, kept, |kept|, OverlayLines(ts, sqrt));
    OverlaySourcesKept(cleared.sources, kept, |kept|, OverlayLines(ts, sqrt));
  }

  /** Cleaning up keeps the state valid. */
  lemma CleanupKeepsValid(c: Controller)
    requires c.Valid()
    ensures c.Cleanup().Valid()
  {
    if c.mapLive {
      var r := c.Cleanup();
      CleanedSceneContent(c.scene);
      forall id | id in r.tracked ensures id in r.scene.layers {
        assert id.IsPublic() && id in c.scene.layers;
        CleanupIdsNamed();
      }
      if c.frame.Some? {
        assert r.pending <= c.pending - {c.frame.value};
      }
    }
  }

  /**
   * With a map, cleaning up leaves no frame that can fire, no stored handle,
   * no marker and none of the active layers or sources, resets the start
   * time and progress, and keeps the public overlays as they were.
   */
  lemma CleanupStopsAnimation(c: Controller)
    requires c.Valid() && c.mapLive
    ensures var r := c.Cleanup();
            && r.pending == {} && r.frame == None && r.marker == None
            && r.start == 0.0 && r.progress == 0.0 && r.Cleared()
            && (forall id: LayerId :: id.IsPublic() ==> (id in r.scene.layers <==> id in c.scene.layers))
  {
    var r := c.Cleanup();
    if c.frame.Some? {
      assert forall h :: h in c.pending ==> h == c.frame.value;
    } else {
      assert forall h :: h !in c.pending;
    }
    forall id: LayerId | id.IsPublic()
      ensures id in r.scene.layers <==> id in c.scene.layers
    {
      CleanupIdsNamed();
    }
  }

  /** Cleaning up twice leaves the same state as cleaning up once. */
  lemma CleanupTwice(c: Controller)
    requires c.Valid()
    ensures c.Cleanup().Valid() && c.Cleanup().Cleanup() == c.Cleanup()
  {
    CleanupKeepsValid(c);
    if c.mapLive {
      CleanupStopsAnimation(c);
      CleanupIdempotent(c.scene);
    }
  }

  /** Adding the route to a cleaned map keeps the state valid. */
  lemma AddRouteKeepsValid(c: Controller, route: ActiveRoute, ts: seq<real>, sqrt: real -> real,
                           driving: Option<seq<Point>>)
    requires c.Valid() && c.Cleared() && c.pending == {}
    ensures c.AddRoute(route, ts, sqrt, driving).Valid()
  {
  }

  /**
   * Showing a route on a live map: the active layers are drawn (the driving
   * layer exactly when a driving route came back), the line starts with its
   * initial gradient and holds the sampled arc, the marker sits at the origin
   * unrotated, the closure follows this arc, and the one frame that can fire
   * is the one just requested. The public overlays are not touched.
   */
  lemma ShowRouteStartsAnimation(c: Controller, route: ActiveRoute, ts: seq<real>,
                                 sqrt: real -> real, driving: Option<seq<Point>>)
    requires c.Valid() && c.mapLive
    ensures var r := c.ShowRoute(Some(route), ts, sqrt, driving);
            var f := FlightOf(route, sqrt);
            && r.frame == Some(c.nextHandle) && r.pending == {c.nextHandle}
            && r.marker == Some(MarkerPose(At(route.from), Unrotated))
            && r.flight == Some(f) && r.start == 0.0 && r.tracked == c.tracked
            && NamedLayer(FlyingRoute) in r.scene.layers
            && r.scene.layers[NamedLayer(FlyingRoute)].gradient == Some(InitialGradient)
            && (NamedLayer(DrivingRoute) in r.scene.layers <==> driving.Some?)
            && r.scene.sources[NamedSource(FlyingRoute)] == LineString(ActiveLine(f.from, f.to, f.height, ts))
            && (forall id: LayerId :: id.IsPublic() ==> (id in r.scene.layers <==> id in c.scene.layers))
  {
    CleanupStopsAnimation(c);
  }

  /** Showing a route, or clearing it, keeps the state valid. */
  lemma ShowRouteKeepsValid(c: Controller, route: Option<ActiveRoute>, ts: seq<real>,
                            sqrt: real -> real, driving: Option<seq<Point>>)
    requires c.Valid()
    ensures c.ShowRoute(route, ts, sqrt, driving).Valid()
  {
    CleanupKeepsValid(c);
    if c.mapLive && route.Some? {
      CleanupStopsAnimation(c);
      AddRouteKeepsValid(c.Cleanup(), route.value, ts, sqrt, driving);
    }
  }

  /**
   * The route-change effect also starts a refresh that filters with the new
   * route. When that refresh lands after `addRoute`, the public overlays are
   * exactly the fetched routes other than the new one, tracked in order, and
   * the active line, the marker, the closure's arc and the pending frame are
   * left as `addRoute` made them.
   */
  lemma ShowRouteThenRefresh(c: Controller, route: ActiveRoute, ts: seq<real>, sqrt: real -> real,
                             driving: Option<seq<Point>>, rows: seq<PublicRoute>, publicTs: seq<real>)
    requires c.Valid() && c.mapLive
    ensures var s := c.ShowRoute(Some(route), ts, sqrt, driving);
            s.Valid() &&
            var r := s.Refresh(Some(rows), Some(route), publicTs, sqrt);
            var kept := FilterRoutes(rows, Some(route));
            && (forall p :: p in kept <==> p in rows && !IsSameRoute(p, route))
            && r.tracked == TrackedIds(|kept|)
            && (forall id :: id in r.scene.layers && id.IsPublic() <==> id.IsPublic() && id.index < |kept|)
            && NamedLayer(FlyingRoute) in r.scene.layers
            && r.scene.layers[NamedLayer(FlyingRoute)] == s.scene.layers[NamedLayer(FlyingRoute)]
            && r.marker == s.marker && r.flight == s.flight
            && r.frame == s.frame && r.pending == s.pending
  {
    ShowRouteKeepsValid(c, Some(route), ts, sqrt, driving);
    ShowRouteStartsAnimation(c, route, ts, sqrt, driving);
    var s := c.ShowRoute(Some(route), ts, sqrt, driving);
    assert s.mapLive;
    RefreshDrawsKeptRoutes(s, Some(rows), Some(route), publicTs, sqrt);
  }

  /** A frame firing keeps the state valid; without a map nothing further can fire. */
  lemma TickKeepsValid(c: Controller, h: FrameHandle, timestamp: real)
    requires c.Valid() && h in c.pending
    ensures c.Tick(h, timestamp).Valid()
    ensures !c.mapLive ==> c.Tick(h, timestamp).pending == {}
  {
    assert c.pending == {h};
    var r := c.Tick(h, timestamp);
    assert r.scene.layers.Keys == c.scene.layers.Keys;
    forall id | id in r.scene.layers
      ensures r.scene.layers[id].source == c.scene.layers[id].source
    {
    }
  }

  /**
   * A frame firing on a live map: exactly one new frame is pending; once
   * `start` is not after `timestamp` the progress is in [0, 1); the marker,
   * if there is one, is at that point of the arc; and the active line's
   * gradient, if the layer is there, trails it.
   */
  lemma TickAdvances(c: Controller, h: FrameHandle, timestamp: real)
    requires c.Valid() && h in c.pending && c.mapLive
    ensures var r := c.Tick(h, timestamp);
            && r.pending == {c.nextHandle} && r.frame == Some(c.nextHandle)
            && (r.start <= timestamp ==> 0.0 <= r.progress < 1.0)
            && (r.marker.Some? <==> c.marker.Some?)
            && (r.marker.Some? ==> r.marker.value == MarkerAt(c.flight.value, r.progress))
            && (NamedLayer(FlyingRoute) in r.scene.layers ==>
                  r.scene.layers[NamedLayer(FlyingRoute)].gradient == Some(TrailGradient(r.progress)))
  {
    assert c.pending == {h};
  }

  // ---------------------------------------------------------------------
  // The component
  // ---------------------------------------------------------------------

  class MapController {
    /** The Mapbox map. */
    const surface: RenderSurface
    /** `map.current` is set. */
    var mapLive: bool
    /** `publicRoutesRef`: the public layer ids drawn by the last refresh. */
    var tracked: seq<LayerId>
    /** `start`: the first tick's timestamp, 0 while unset. */
    var start: real
    /** `evtolProgress`. */
    var progress: real
    /** `animationFrameRef`. */
    var frame: Option<FrameHandle>
    /** Frames requested and neither fired nor cancelled. */
    var pending: set<FrameHandle>
    /** The handle the browser gives the next request. */
    var nextHandle: FrameHandle
    /** `evtolMarkerRef`. */
    var marker: Option<MarkerPose>
    /** The arc captured by the current animation closure. */
    var flight: Option<Flight>

    /** The map and the refs, as a value. */
    function State(): Controller
      reads this, surface
    {
      Controller(surface.scene, mapLive, tracked, start, progress, frame, pending, nextHandle, marker, flight)
    }

    predicate Valid()
      reads this, surface
    {
      State().Valid()
    }

    constructor ()
      ensures State() == Mounted() && Valid() && fresh(surface)
    {
      surface := new RenderSurface();
      mapLive := true;
      tracked := [];
      start, progress := 0.0, 0.0;
      frame, pending, nextHandle := None, {}, 1;
      marker, flight := None, None;
    }

    /** The map is removed when the component unmounts. */
    method Unmount()
      modifies this`mapLive
      ensures State() == old(State()).(mapLive := false)
    {
      mapLive := false;
    }

    method RefreshPublicRoutes(rows: Option<seq<PublicRoute>>, active: Option<ActiveRoute>,
                               ts: seq<real>, sqrt: real -> real)
      requires Valid()
      modifies this`tracked, surface
      ensures State() == old(State()).Refresh(rows, active, ts, sqrt) && Valid()
    {
      ghost var c0 := State();
      RefreshKeepsValid(c0, rows, active, ts, sqrt);
      if !mapLive || rows.None? {
        return;
      }
      surface.ClearLayers(tracked);
      tracked := [];
      assert NoPublicLayers(surface.scene);
      DrawPublicRoutes(FilterRoutes(rows.value, active), ts, sqrt);
    }

    /**
     * The overlay loop: the kept routes are drawn at indices 0, 1, … and
     * their layer ids pushed onto the tracked list in order.
     */
    method DrawPublicRoutes(kept: seq<PublicRoute>, ts: seq<real>, sqrt: real -> real)
      requires surface.scene.Wellformed() && NoPublicLayers(surface.scene) && tracked == []
      modifies this`tracked, surface
      ensures surface.scene == AddOverlays(old(surface.scene), kept, |kept|, OverlayLines(ts, sqrt))
      ensures tracked == TrackedIds(|kept|)
    {
      var cleared := surface.scene;
      for i := 0 to |kept|
        invariant surface.scene == AddOverlays(cleared, kept, i, OverlayLines(ts, sqrt))
        invariant tracked == TrackedIds(i)
        modifies this`tracked, surface
      {
        DrawAndTrack(cleared, kept, i, ts, sqrt);
      }
    }

    /** One iteration of the overlay loop: draw the route at index `i`, then push its three layer ids. */
    method DrawAndTrack(ghost cleared: Scene, kept: seq<PublicRoute>, i: nat, ts: seq<real>, sqrt: real -> real)
      requires cleared.Wellformed() && NoPublicLayers(cleared) && i < |kept|
      requires surface.scene == AddOverlays(cleared, kept, i, OverlayLines(ts, sqrt)) && tracked == TrackedIds(i)
      modifies this`tracked, surface
      ensures surface.scene == AddOverlays(cleared, kept, i + 1, OverlayLines(ts, sqrt)) && tracked == TrackedIds(i + 1)
    {
      DrawPublicRoute(i, kept[i], ts, sqrt);
      tracked := tracked + [PublicMarkersLayer(i), PublicLineLayer(i), PublicBgLayer(i)];
    }

    /**
     * The body of the overlay loop for the kept route at index `i`: stale
     * sources of that index are removed first, so both `addSource` calls meet
     * fresh ids; then the line and endpoint sources and the markers, line and
     * background layers are added.
     */
    method DrawPublicRoute(i: nat, route: PublicRoute, ts: seq<real>, sqrt: real -> real)
      requires surface.scene.Wellformed() && PublicLayersBelow(surface.scene, i)
      modifies surface
      ensures surface.scene == AddRouteOverlay(old(surface.scene), i, route, OverlayLines(ts, sqrt))
    {
      ghost var s := surface.scene;
      FreshIndex(s, i);
      var line, marks := PublicLineSource(i), PublicMarkersSource(i);
      RemoveStaleSources(i);
      var a, b := At(route.from), At(route.to);
      var coords := BuildPublicLine(a, b, CurveHeight(a, b, sqrt), ts);
      surface.AddSource(line, LineString(coords));
      surface.AddSource(marks, Endpoints(a, b));
      surface.AddLayer(PublicMarkersLayer(i), Layer(marks, None));
      surface.AddLayer(PublicLineLayer(i), Layer(line, None));
      surface.AddLayer(PublicBgLayer(i), Layer(line, None));
      ResetSources(s.sources, line, marks, LineString(coords), Endpoints(a, b));
    }

    /** The stale sources of index `i`, left by an earlier refresh, are removed where present. */
    method RemoveStaleSources(i: nat)
      requires surface.scene.Wellformed() && PublicLayersBelow(surface.scene, i)
      modifies surface
      ensures surface.scene == Scene(old(surface.scene).layers,
                                     old(surface.scene).sources - {PublicLineSource(i), PublicMarkersSource(i)},
                                     old(surface.scene).ops + StaleRemovals(old(surface.scene), i))
    {
      ghost var s := surface.scene;
      FreshIndex(s, i);
      var line, marks := PublicLineSource(i), PublicMarkersSource(i);
      if surface.HasSource(line) {
        surface.RemoveSource(line);
      }
      if surface.HasSource(marks) {
        surface.RemoveSource(marks);
      }
      assert surface.scene.sources == s.sources - {line, marks};
    }

    method Cleanup()
      requires Valid()
      modifies this, surface
      ensures State() == old(State()).Cleanup() && Valid()
    {
      ghost var c0 := State();
      CleanupKeepsValid(c0);
      if !mapLive {
        return;
      }
      if frame.Some? {
        pending := pending - {frame.value};
        frame := None;
      }
      ClearActiveOverlays();
      marker := None;
      start := 0.0;
      progress := 0.0;
    }

    /** The map half of `cleanupRoutes`: the four active layers, then the three active sources. */
    method ClearActiveOverlays()
      requires surface.scene.Wellformed()
      modifies surface
      ensures surface.scene == CleanedScene(old(surface.scene))
    {
      surface.ClearLayers(CleanupLayers);
      CleanupSourcesUnused(surface.scene);
      surface.ClearSources(CleanupSources);
    }

    method ShowRoute(route: Option<ActiveRoute>, ts: seq<real>, sqrt: real -> real,
                     driving: Option<seq<Point>>)
      requires Valid()
      modifies this, surface
      ensures State() == old(State()).ShowRoute(route, ts, sqrt, driving) && Valid()
    {
      ghost var c0 := State();
      ShowRouteKeepsValid(c0, route, ts, sqrt, driving);
      Cleanup();
      if !mapLive || route.None? {
        return;
      }
      CleanupStopsAnimation(c0);
      AddRoute(route.value, ts, sqrt, driving);
    }

    method AddRoute(route: ActiveRoute, ts: seq<real>, sqrt: real -> real, driving: Option<seq<Point>>)
      requires Valid() && State().Cleared() && pending == {}
      modifies this, surface
      ensures State() == old(State()).AddRoute(route, ts, sqrt, driving) && Valid()
    {
      ghost var c0 := State();
      AddRouteKeepsValid(c0, route, ts, sqrt, driving);
      ghost var c1 := c0.AddRoute(route, ts, sqrt, driving);
      var f := FlightOf(route, sqrt);
      DrawActiveRoute(f, ts, driving);
      assert surface.scene == c1.scene;
      StartAnimation(f);
      assert State() == c1;
    }

    /** The marker goes to the arc's origin, `start` is reset and the first frame is requested. */
    method StartAnimation(f: Flight)
      modifies this`marker, this`start, this`flight, this`frame, this`pending, this`nextHandle
      ensures marker == Some(MarkerPose(f.from, Unrotated)) && start == 0.0 && flight == Some(f)
      ensures frame == Some(old(nextHandle)) && pending == old(pending) + {old(nextHandle)}
      ensures nextHandle == old(nextHandle) + 1
    {
      marker, start, flight := Some(MarkerPose(f.from, Unrotated)), 0.0, Some(f);
      frame, pending, nextHandle := Some(nextHandle), pending + {nextHandle}, nextHandle + 1;
    }

    /**
     * The drawing part of `addRoute` on a cleaned map: the sampled arc as the
     * `flying-route` source with its background and gradient layers, the
     * endpoints, and the driving route when the directions service gave one.
     */
    method DrawActiveRoute(f: Flight, ts: seq<real>, driving: Option<seq<Point>>)
      requires surface.scene.Wellformed()
      requires forall id :: id in CleanupLayers ==> id !in surface.scene.layers
      requires forall sid :: sid in CleanupSources ==> sid !in surface.scene.sources
      modifies surface
      ensures surface.scene == WithActiveRoute(old(surface.scene), f, ActiveLine(f.from, f.to, f.height, ts), driving)
    {
      DrawFlyingRoute(f, ts);
      if driving.Some? {
        surface.AddSource(NamedSource(DrivingRoute), LineString(driving.value));
        surface.AddLayer(NamedLayer(DrivingRoute), Layer(NamedSource(DrivingRoute), None));
      }
    }

    /** The flown arc sampled at `ts`, its two layers, and the endpoints. */
    method DrawFlyingRoute(f: Flight, ts: seq<real>)
      requires surface.scene.Wellformed()
      requires forall id :: id in CleanupLayers ==> id !in surface.scene.layers
      requires forall sid :: sid in CleanupSources ==> sid !in surface.scene.sources
      modifies surface
      ensures surface.scene == WithFlyingRoute(old(surface.scene), f, ActiveLine(f.from, f.to, f.height, ts))
    {
      var coords := BuildActiveLine(f.from, f.to, f.height, ts);
      var line, marks := NamedSource(FlyingRoute), NamedSource(PointMarkers);
      surface.AddSource(line, LineString(coords));
      surface.AddLayer(NamedLayer(FlyingRouteBg), Layer(line, None));
      surface.AddLayer(NamedLayer(FlyingRoute), Layer(line, Some(InitialGradient)));
      surface.AddSource(marks, Endpoints(f.from, f.to));
      surface.AddLayer(NamedLayer(PointMarkers), Layer(marks, None));
    }

    method Tick(h: FrameHandle, timestamp: real)
      requires Valid() && h in pending
      modifies this, surface
      ensures State() == old(State()).Tick(h, timestamp) && Valid()
    {
      ghost var c0 := State();
      TickKeepsValid(c0, h, timestamp);
      if !mapLive {
        pending := pending - {h};
        return;
      }
      var st := if start == 0.0 then timestamp else start;
      var t := ArcProgress(timestamp, st);
      if surface.HasLayer(NamedLayer(FlyingRoute)) {
        surface.SetGradient(NamedLayer(FlyingRoute), TrailGradient(t));
      }
      start, progress := st, t;
      marker := if marker.Some? then Some(MarkerAt(flight.value, t)) else None;
      frame, pending, nextHandle := Some(nextHandle), pending - {h} + {nextHandle}, nextHandle + 1;
      assert State() == c0.Tick(h, timestamp);
    }
  }
}

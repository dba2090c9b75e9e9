# sarla-map: route overlays, eVTOL animation and travel-time arithmetic

sarla-map is a React front end over Mapbox. A user picks an origin and a
destination, sees how long an eVTOL flight takes against a cab ride, and
watches the flight drawn as an arc on a dark globe. A marker flies along the
arc and the line fades behind it. The routes other users planned recently
are drawn as faint arcs, refreshed from the database, and listed on a
"Recent Routes" wall.

This Dafny project models the logic inside those components:

- **`Types`** (`types.dfy`): the shared values. These are the `Location`
  record, map points in `[lng, lat]` order, a row of the `routes` table,
  JavaScript's `Math.round` and animation-frame handles.
- **`TravelTime`** (`travel_time.dfy`): minute arithmetic.
  - Flying minutes are at 250 km/h.
  - The fallback car estimate is at 60 km/h.
  - The distance-matrix reply is turned into cab minutes.
  - The wall's saving is clamped at zero.
  - The time panel's saving is not clamped.
- **`RouteFormModel`** (`route_form.dfy`): the route form as a class whose
  fields are the React state hooks.
  - It covers the comparison update with its `finally`, the two place
    handlers and the plan button.
  - The callback props are logs of their calls.
- **`PublicRouteWall`** (`public_route_wall.dfy`): the wall.
  - It covers the per-row saving, the endpoint label, the render guards,
    and the ordered side effects of picking a route.
- **`Curves`** (`curves.dfy`): the quadratic arc of the active route and the
  cubic arc of a public route. It also holds the two sampling loops that
  build their coordinate lists.
- **`RouteDedup`** (`route_dedup.dfy`): the filter that keeps a fetched
  public route off the map when it is the active route, forwards or
  backwards, after rounding to 6 decimals.
- **`Surface`** (`render_surface.dfy`): the Mapbox map as a render surface.
  - It holds layers and sources under typed ids.
  - `addSource` needs a fresh id. `addLayer` needs a fresh id and an
    existing source. `removeLayer` needs the layer. `removeSource` needs the
    source and no layer still drawing it.
  - Every change is logged in order.
- **`RealMap`** (`real_map.dfy`): the live map component as a class
  `MapController`.
  - Its fields are the component's refs: `publicRoutesRef`,
    `animationFrameRef`, `evtolMarkerRef`, `start`, `evtolProgress`, and
    whether `map.current` is set.
  - It covers the public-route refresh, `cleanupRoutes`, the route-change
    effect with `addRoute`, and the per-frame `animate` closure.
  - Each method is proved against a function on a value `Controller`. The
    lemmas about that value state what the source promises: the tracked ids,
    the overlays drawn, idempotent cleanup and the animation arithmetic.
- **`FlightMap`** (`flight_map.dfy`): the standalone flight map as a class
  `FlightMapView`. It covers the 101-point curved path, the progress-to-index
  walk, the frame requests, and the cancellation on cleanup.

Modelling conventions:

- Coordinates are exact reals.
- The haversine distance reaches the code as whole kilometres and is an input.
- `Math.sqrt` and `Math.sin` are function parameters and left uninterpreted.
- The sample parameters of the `t += 0.01` loops depend on floating-point
  rounding, so they are an input sequence `ts`.
- Each Mapbox guard the code relies on is a precondition, so every call site
  proves that its guard holds.
- Animation frames are handles. A frame is pending from `requestAnimationFrame`
  until it fires or is cancelled.

## Model

| member | source | states |
|---|---|---|
| Types.JsRound | src/components/RouteForm.tsx:53 | `Math.round` gives the integer whose half-open band [r - 1/2, r + 1/2) contains x |
| Types.JsRoundUnique | src/components/RouteForm.tsx:53 | that integer is unique: any k whose band contains x is the result |
| Types.JsRoundMonotone | src/components/RouteForm.tsx:53 | rounding is monotone |
| TravelTime.FlyingMinutesNearest | src/components/RouteForm.tsx:47-53 | flying minutes are non-negative and strictly within half a minute of 6·d/25, the exact time at 250 km/h, so there is never a tie |
| TravelTime.FlyingMinutesMonotone | src/components/RouteForm.tsx:49-53 | a longer distance never gives fewer flying minutes, and they are never negative |
| TravelTime.FlyingMinutes | src/components/RouteForm.tsx:47-53 | the flying minutes at 250 km/h: non-negative, and the nearest whole minute to the exact 6·d/25 |
| TravelTime.FallbackDrivingMinutes | src/components/RealMapComponent.tsx:102-104 | the 60 km/h estimate round(d/60·60) equals the kilometre count |
| TravelTime.CabMinutes | src/components/RouteForm.tsx:75 | the service's seconds are rounded to the nearest minute; the result is non-negative for a non-negative duration |
| TravelTime.WallTimeSaved | src/components/PublicRouteWall.tsx:66-67 | the wall's saving is never negative; it is the driving minutes less the flying duration, or 0 when that difference is negative |
| TravelTime.CalculateCabTime | src/components/RouteForm.tsx:58-81 | an exception escapes exactly when Google is loaded and the service cannot be built; minutes come back exactly on an "OK" status, as the rounded duration; null in every other case |
| TravelTime.TimeInfoTimes | src/components/RealMapComponent.tsx:46-115 | the panel shows figures exactly when Google is loaded and the reply is "OK" or the request failed; it shows 250 km/h flying minutes; the car time is the service's minutes, or the 60 km/h fallback on failure; the saving is car minus flying, unclamped |
| TravelTime.PanelSavingCanBeNegative | src/components/RealMapComponent.tsx:96 | a 250 km trip that the service says takes 30 minutes by car shows a saving of -30 |
| RouteFormModel.RouteForm.constructor | src/components/RouteForm.tsx:26-30 | the form starts with no locations, no comparison, nothing shown and nothing calculating |
| RouteFormModel.RouteForm.UpdateTimeComparison | src/components/RouteForm.tsx:83-107 | `isCalculating` is set true and then false whatever happens; the comparison is shown (and the panel visible) exactly when a cab time came back; it then holds the flying minutes, the cab minutes and their unclamped difference; otherwise the old comparison value is kept and hidden |
| RouteFormModel.RouteForm.SelectFrom | src/components/RouteForm.tsx:141-155 | the place becomes the origin; with no destination the comparison state is untouched; with one, the calculating flag goes true then false and the comparison is shown exactly when a cab time came back, holding the flying minutes, the cab minutes and their difference (otherwise the old value is kept); the page is told the new pair |
| RouteFormModel.RouteForm.SelectTo | src/components/RouteForm.tsx:157-171 | the mirror image for the destination: with an origin set, the same flag sequence, shown flag and stored comparison as `UpdateTimeComparison`; without one, the comparison state is untouched |
| RouteFormModel.RouteForm.HandlePlanRoute | src/components/RouteForm.tsx:192-196 | `onPlanRoute` gets the two locations exactly when both are set; a click on an enabled button (line 258) always gets through |
| RouteFormModel.RouteForm.PlanButtonEnabled | src/components/RouteForm.tsx:258 | the definition: the button is enabled when both locations are set, the comparison is shown and nothing is calculating; `HandlePlanRoute` states what a click on it does |
| PublicRouteWall.WithTimeSaved | src/components/PublicRouteWall.tsx:48-73 | a row keeps every field but `time_saved`, which becomes the clamped, never negative saving |
| PublicRouteWall.AnnotateRoutes | src/components/PublicRouteWall.tsx:48-75 | the query result has one row per fetched row, in order; each differs from its fetched row only in its recomputed, non-negative saving |
| PublicRouteWall.EndpointLabel | src/components/PublicRouteWall.tsx:164 | the label is a comma-free prefix of the name, followed in the name by a comma unless it is the whole name |
| PublicRouteWall.EndpointLabelUnique | src/components/PublicRouteWall.tsx:164 | those facts pin the label down: any such prefix is the label, i.e. `split(',')[0]` |
| PublicRouteWall.Card | src/components/PublicRouteWall.tsx:153-180 | a card shows the route's id, the `split(',')[0]` label of each endpoint name, the flying duration and the saving |
| PublicRouteWall.RenderWall | src/components/PublicRouteWall.tsx:116-185 | nothing renders exactly when the query failed or the wall is closed; otherwise the skeleton renders exactly while loading and the notice exactly for an empty list; otherwise one card per route, in order, each with the route's id, `split(',')[0]` of both endpoint names, its flying duration and its saving |
| PublicRouteWall.NextPopularity | src/components/PublicRouteWall.tsx:95 | the written popularity is the stored one plus 1, and 1 when none is stored (`popularity \|\| 0` turns a stored 0 into 0, which gives the same 1) |
| PublicRouteWall.RouteWall.HandleRouteSelect | src/components/PublicRouteWall.tsx:90-114 | the popularity write comes first. An error result toasts and stops. An exception toasts. Success hands the route to the page, closes the wall and refetches, in that order. The route is selected and the wall closed exactly on success |
| Curves.QuadPoint | src/components/RealMapComponent.tsx:667-672 | the quadratic arc is at `from` for t = 0 and at `to` for t = 1 |
| Curves.QuadPointIsLiftedChord | src/components/RealMapComponent.tsx:654-672 | the quadratic arc is the straight chord lifted north by 2t(1-t)·height |
| Curves.CurveHeight | src/components/RealMapComponent.tsx:224-228 | the definition: 0.15 times the straight-line distance in degrees, through the `sqrt` parameter; `QuadPointIsLiftedChord` states how far it lifts the arc |
| Curves.CubicPoint | src/components/RealMapComponent.tsx:237-250 | the cubic arc is at `from` for t = 0 and at `to` for t = 1 |
| Curves.CubicLngIsWeightedMean | src/components/RealMapComponent.tsx:243-246 | the cubic longitude is a weighted mean of the endpoint longitudes |
| Curves.WeightsConvex | src/components/RealMapComponent.tsx:237-246 | on [0, 1] those weights are non-negative and sum to 1 |
| Curves.CubicLngBetweenEnds | src/components/RealMapComponent.tsx:243-246 | on [0, 1] the cubic longitude stays between the endpoint longitudes |
| Curves.CubicSamples | src/components/RealMapComponent.tsx:235-258 | the loop appends between one and two points per parameter |
| Curves.CubicSamplesAppend | src/components/RealMapComponent.tsx:235-258 | sampling is compositional: the samples of a concatenation are the concatenated samples |
| Curves.CubicChunk | src/components/RealMapComponent.tsx:252-257 | the definition: one pass of the loop pushes the cubic point, twice when t < 0.1 or t > 0.9; `PublicLineSampleAt` states where it lands |
| Curves.PublicLine | src/components/RealMapComponent.tsx:230-263 | the definition: the exact `from`, the samples, then the exact `to` three times; `PublicLineEnds` and `PublicLineSampleAt` state its shape |
| Curves.PublicLineEnds | src/components/RealMapComponent.tsx:230-263 | a public line starts with the exact `from` point and ends with the exact `to` point three times; its length is between \|ts\|+4 and 2\|ts\|+4 |
| Curves.PublicLineSampleAt | src/components/RealMapComponent.tsx:252-257 | each parameter's sample follows the earlier ones; a sample with t < 0.1 or t > 0.9 appears twice in a row |
| Curves.ActiveLine | src/components/RealMapComponent.tsx:665-674 | the active line has one quadratic sample per parameter and starts at `from` when the first parameter is 0 |
| Curves.BuildPublicLine | src/components/RealMapComponent.tsx:230-263 | the pushing loops build exactly the public line |
| Curves.BuildActiveLine | src/components/RealMapComponent.tsx:665-674 | the pushing loop builds exactly the active line |
| RouteDedup.RoundCoord | src/components/RealMapComponent.tsx:178 | a coordinate rounded to 6 decimals is within half a micro-degree of it |
| RouteDedup.Close | src/components/RealMapComponent.tsx:191-199 | the definition of the `Math.abs(a - b) < 0.000001` test on rounded coordinates; `CloseIffSameMicroDegree` pins it down over exact reals |
| RouteDedup.IsSameRoute | src/components/RealMapComponent.tsx:180-199 | the definition: both endpoints match after rounding, forwards or backwards; `SameRouteSymmetric`, `IdenticalRouteDropped` and `SameRouteIffSameMicroDegrees` state its properties |
| RouteDedup.Keep | src/components/RealMapComponent.tsx:174-202 | the definition: a row is kept when there is no active route or it is not the active route; `FilterRoutes` states the filter built on it |
| RouteDedup.CloseIffSameMicroDegree | src/components/RealMapComponent.tsx:178-199 | over exact reals, the 1e-6 tolerance comparison of rounded coordinates holds exactly when both round to the same micro-degree |
| RouteDedup.FilterRoutes | src/components/RealMapComponent.tsx:174-203 | a fetched route survives exactly when there is no active route or it is not the active route |
| RouteDedup.FilterWithoutActiveKeepsAll | src/components/RealMapComponent.tsx:175 | with no active route every fetched route is kept, in order |
| RouteDedup.FilterAppend | src/components/RealMapComponent.tsx:174-203 | filtering distributes over concatenation, so survivors keep their fetched order |
| RouteDedup.FilterSnoc | src/components/RealMapComponent.tsx:174-203 | one more fetched row is appended to the result exactly when it is kept |
| RouteDedup.SameRouteSymmetric | src/components/RealMapComponent.tsx:191-199 | swapping a candidate's endpoints never changes whether it is dropped |
| RouteDedup.IdenticalRouteDropped | src/components/RealMapComponent.tsx:191-202 | a candidate with the active route's exact endpoints, either way round, is dropped |
| RouteDedup.SameRouteIffSameMicroDegrees | src/components/RealMapComponent.tsx:180-199 | over exact reals, a candidate is dropped exactly when its four coordinates round to the active route's, forwards or backwards |
| Surface.RemoveLayersIfPresent | src/components/RealMapComponent.tsx:166-170 | guarded removal of a list of layers removes exactly the listed layers; it keeps the other layers and all sources, and logs only layer removals |
| Surface.RemoveSourcesIfPresent | src/components/RealMapComponent.tsx:609-613 | guarded removal of unused sources removes exactly the listed sources; it keeps the other sources and all layers, and logs only source removals |
| Surface.RenderSurface.ClearLayers | src/components/RealMapComponent.tsx:166-170 | the `forEach` loop of guarded layer removals does exactly that |
| Surface.RenderSurface.ClearSources | src/components/RealMapComponent.tsx:609-613 | the `forEach` loop of guarded source removals does exactly that |
| RealMap.FreshIndex | src/components/RealMapComponent.tsx:206-216 | once earlier indices are drawn, the three layer ids of index i are free and no layer draws its two sources, so removing them is legal |
| RealMap.AddRouteOverlay | src/components/RealMapComponent.tsx:206-357 | drawing the route at index i keeps the map well formed, with every public layer below i + 1 |
| RealMap.AddOverlays | src/components/RealMapComponent.tsx:206-357 | drawing the first n kept routes keeps the map well formed, with every public layer below n |
| RealMap.AddOverlaysLayers | src/components/RealMapComponent.tsx:305-351 | after the loop the public layers are exactly the three of each index below n; the other layers are untouched |
| RealMap.OverlayLayersContent | src/components/RealMapComponent.tsx:305-351 | the layer map after n iterations holds the old layers and the three ids of each index below n, and nothing else |
| RealMap.AddOverlaysSources | src/components/RealMapComponent.tsx:211-302 | the sources after the loop are the old ones with each index's two sources set, in loop order |
| RealMap.OverlaySourcesFilled | src/components/RealMapComponent.tsx:266-302 | each index below n holds that route's cubic line and its two endpoints |
| RealMap.OverlaySourcesKept | src/components/RealMapComponent.tsx:211-216 | every other source, including stale sources of higher indices, survives unchanged, and no other source appears |
| RealMap.TrackedIds | src/components/RealMapComponent.tsx:354-356 | the tracked list has three ids per kept route |
| RealMap.TrackedIdsMembers | src/components/RealMapComponent.tsx:206-209 | the tracked list holds exactly the public layer ids below n |
| RealMap.TrackedIdsOrder | src/components/RealMapComponent.tsx:354-356 | positions 3i, 3i+1 and 3i+2 hold `public-route-i-markers`, `public-route-i` and `public-route-i-bg` |
| RealMap.TrackedMatchesOverlays | src/components/RealMapComponent.tsx:165-171 | after a refresh the tracked ids are exactly the public layers on the map |
| RealMap.FlightOf | src/components/RealMapComponent.tsx:654-663 | the arc runs between the active route's two endpoints |
| RealMap.CleanedScene | src/components/RealMapComponent.tsx:601-613 | removing the four layers, then the three sources, keeps the map well formed |
| RealMap.CleanedSceneContent | src/components/RealMapComponent.tsx:601-613 | exactly the four named layers and three named sources are gone; everything else keeps its value; the log grows by removals only, all layer removals before any source removal |
| RealMap.CleanupSourcesUnused | src/components/RealMapComponent.tsx:602-613 | once the four layers are gone, no layer draws the three sources, so every source removal is legal |
| RealMap.RemoveAbsentLayers | src/components/RealMapComponent.tsx:602-606 | the guarded removals of absent layers change nothing |
| RealMap.RemoveAbsentSources | src/components/RealMapComponent.tsx:609-613 | the guarded removals of absent sources change nothing |
| RealMap.CleanupIdempotent | src/components/RealMapComponent.tsx:592-624 | cleaning the map twice is the same as cleaning it once |
| RealMap.WithFlyingRoute | src/components/RealMapComponent.tsx:676-783 | the arc and endpoint overlays keep the map well formed and leave the driving ids free |
| RealMap.WithActiveRoute | src/components/RealMapComponent.tsx:676-825 | all of `addRoute`'s overlays keep the map well formed |
| RealMap.ActiveRouteDrawn | src/components/RealMapComponent.tsx:676-825 | the line, background and endpoint layers are drawn, and the driving layer exactly when a driving route came back; the line has its initial gradient and holds the sampled arc; the endpoint source holds the ends; earlier layers are kept and no public layer appears |
| RealMap.Trunc | src/components/RealMapComponent.tsx:848 | truncation toward zero lands within one unit below (non-negative) or above (negative) |
| RealMap.RemOne | src/components/RealMapComponent.tsx:848 | `x % 1` is x less a whole number, in [0, 1) for non-negative x and in (-1, 0] for negative x |
| RealMap.ArcProgress | src/components/RealMapComponent.tsx:846-848 | once `start` is not after the timestamp, the position lies in [0, 1) |
| RealMap.LookAhead | src/components/RealMapComponent.tsx:862 | the look-ahead lies in [t, 1], is strictly ahead before the end, and is exactly one step ahead when there is room |
| RealMap.TrailGradient | src/components/RealMapComponent.tsx:883-890 | for t in [0, 1] the stops satisfy 0 ≤ max(0, t-0.01) ≤ min(1, t) = t ≤ 1 |
| RealMap.TrailStopsStrictIff | src/components/RealMapComponent.tsx:887-889 | the three stops are strictly increasing exactly when t > 0.01; up to there the first two coincide at 0 |
| RealMap.MarkerAt | src/components/RealMapComponent.tsx:853-879 | the marker is at the origin for t = 0 and always faces a look-ahead point |
| RealMap.Mounted | src/components/RealMapComponent.tsx:146-151 | the refs start empty (no handle, no marker, `start` and progress 0, nothing tracked) around a live, empty map; that state is valid and has no active overlays |
| RealMap.Controller.Refresh | src/components/RealMapComponent.tsx:154-361 | the definition of one refresh; `RefreshKeepsValid` and `RefreshDrawsKeptRoutes` state what it does |
| RealMap.Controller.Cleanup | src/components/RealMapComponent.tsx:592-624 | the definition of `cleanupRoutes`; `CleanupKeepsValid`, `CleanupStopsAnimation` and `CleanupTwice` state what it does |
| RealMap.Controller.AddRoute | src/components/RealMapComponent.tsx:637-905 | the definition of `addRoute` on a cleaned map; `AddRouteKeepsValid` and `ShowRouteStartsAnimation` state what it does |
| RealMap.Controller.ShowRoute | src/components/RealMapComponent.tsx:627-911 | the definition of the route-change effect's cleanup and `addRoute`; `ShowRouteKeepsValid` and `ShowRouteStartsAnimation` state what it does, and `ShowRouteThenRefresh` composes it with the refresh the effect starts at line 635 |
| RealMap.Controller.Tick | src/components/RealMapComponent.tsx:843-894 | the definition of one `animate` frame; `TickKeepsValid` and `TickAdvances` state what it does |
| RealMap.RefreshKeepsValid | src/components/RealMapComponent.tsx:154-361 | a refresh keeps every public layer tracked and every tracked id on the map |
| RealMap.RefreshDrawsKeptRoutes | src/components/RealMapComponent.tsx:165-357 | after a refresh the tracked list is the kept routes' ids in order; the public layers are exactly those ids; each index's sources hold its route's line and endpoints; every other layer and source is unchanged, and no other source appears; the refs, the marker and the pending frames are untouched |
| RealMap.CleanupKeepsValid | src/components/RealMapComponent.tsx:592-624 | cleanup keeps the state valid |
| RealMap.CleanupStopsAnimation | src/components/RealMapComponent.tsx:592-624 | cleanup leaves no pending frame and no handle or marker; it zeroes `start` and the progress, removes the active overlays and keeps the public layers |
| RealMap.CleanupTwice | src/components/RealMapComponent.tsx:592-624 | running `cleanupRoutes` twice gives the same state as running it once |
| RealMap.AddRouteKeepsValid | src/components/RealMapComponent.tsx:637-905 | adding the route to a cleaned map keeps the state valid |
| RealMap.ShowRouteStartsAnimation | src/components/RealMapComponent.tsx:627-905 | showing a route requests exactly one frame and stores its handle; the marker sits unrotated at the origin; `start` is 0; the line holds the arc with its initial gradient; the driving layer is there exactly when a route came back; the public layers are untouched |
| RealMap.ShowRouteKeepsValid | src/components/RealMapComponent.tsx:627-911 | the route-change effect keeps the state valid |
| RealMap.ShowRouteThenRefresh | src/components/RealMapComponent.tsx:627-636 | when the refresh started by the route-change effect lands after `addRoute`, the public overlays are exactly the fetched routes that are not the new route, tracked in order; the active line, the marker, the arc and the pending frame are untouched |
| RealMap.TickKeepsValid | src/components/RealMapComponent.tsx:843-894 | a frame firing keeps the state valid; without a map nothing further is pending |
| RealMap.TickAdvances | src/components/RealMapComponent.tsx:843-894 | a frame on a live map leaves exactly the next frame pending and stores its handle; the position lies in [0, 1) once `start` is set; the marker moves to that point of the arc; the line's gradient trails it |
| RealMap.MapController.constructor | src/components/RealMapComponent.tsx:146-151 | the component mounts into the `Mounted` state |
| RealMap.MapController.Unmount | src/components/RealMapComponent.tsx:523-528 | unmounting clears `map.current` and nothing else |
| RealMap.MapController.RefreshPublicRoutes | src/components/RealMapComponent.tsx:154-361 | the refresh does what `Controller.Refresh` states (a failed query, thrown at line 163 and caught, leaves everything as it was) and keeps the state valid |
| RealMap.MapController.DrawPublicRoutes | src/components/RealMapComponent.tsx:206-357 | the overlay loop draws the kept routes at indices 0, 1, … and leaves the tracked list as `TrackedIds` |
| RealMap.MapController.DrawAndTrack | src/components/RealMapComponent.tsx:206-357 | one loop iteration draws one route and pushes its three ids |
| RealMap.MapController.DrawPublicRoute | src/components/RealMapComponent.tsx:207-351 | the loop body gives the map `AddRouteOverlay`: stale sources removed, then two sources and three layers added, every guard met |
| RealMap.MapController.RemoveStaleSources | src/components/RealMapComponent.tsx:211-216 | both sources of index i are gone afterwards, the layers are unchanged, and only the present ones were removed |
| RealMap.MapController.Cleanup | src/components/RealMapComponent.tsx:592-624 | `cleanupRoutes` does what `Controller.Cleanup` states and keeps the state valid |
| RealMap.MapController.ClearActiveOverlays | src/components/RealMapComponent.tsx:601-613 | the two removal loops leave the map as `CleanedScene` |
| RealMap.MapController.ShowRoute | src/components/RealMapComponent.tsx:627-911 | the route-change effect's cleanup and `addRoute` do what `Controller.ShowRoute` states and keep the state valid; the refresh it starts is `RefreshPublicRoutes` (see Left out) |
| RealMap.MapController.AddRoute | src/components/RealMapComponent.tsx:637-905 | `addRoute` does what `Controller.AddRoute` states and keeps the state valid |
| RealMap.MapController.StartAnimation | src/components/RealMapComponent.tsx:740-746 | the marker goes to the origin; `start` is reset; the first frame is requested and its handle stored |
| RealMap.MapController.DrawActiveRoute | src/components/RealMapComponent.tsx:665-825 | `addRoute`'s drawing steps leave the map as `WithActiveRoute` |
| RealMap.MapController.DrawFlyingRoute | src/components/RealMapComponent.tsx:665-783 | the arc, its layers and the endpoints leave the map as `WithFlyingRoute` |
| RealMap.MapController.Tick | src/components/RealMapComponent.tsx:843-894 | the `animate` closure does what `Controller.Tick` states and keeps the state valid |
| FlightMap.CurvedPath | src/components/Map.tsx:59-73 | the path has steps + 1 = 101 points |
| FlightMap.PathPoint | src/components/Map.tsx:64-69 | the definition of point i; `PathStartsAtStart`, `PathEndsAtEnd`, `PathEvenlySpaced` and `PathWithinLift` state its properties |
| FlightMap.PathStartsAtStart | src/components/Map.tsx:64-69 | the first point is exactly `start`, since the lift is 0 at t = 0 |
| FlightMap.PathEndsAtEnd | src/components/Map.tsx:64-69 | the last point has `end`'s longitude; it is `end` exactly when sin(π) = 0 |
| FlightMap.PathEvenlySpaced | src/components/Map.tsx:65-67 | consecutive points are a hundredth of the longitude span apart |
| FlightMap.PathWithinLift | src/components/Map.tsx:65-69 | point i has the interpolated longitude; its latitude is within 0.1 of the straight line, and on or above it where the sine is non-negative |
| FlightMap.Progress | src/components/Map.tsx:24-25 | progress never exceeds 1 and is non-negative once time has reached the start |
| FlightMap.FrameIndex | src/components/Map.tsx:28 | the definition of `Math.floor(progress * (path.length - 1))`; `FrameIndexBounds`, `IndexBeforeStart` and `IndexMonotone` state its properties |
| FlightMap.NextIndex | src/components/Map.tsx:29 | the definition of `Math.min(index + 1, path.length - 1)`; `IndicesOnPath` states its properties |
| FlightMap.IndicesOnPath | src/components/Map.tsx:28-29 | for progress in [0, 1) both indices are on the path with next ≥ current, and next = current + 1 on a path of two or more points |
| FlightMap.FrameIndexBounds | src/components/Map.tsx:28 | the index for progress in [0, 1) is at least 0 and below the last point |
| FlightMap.IndexBeforeStart | src/components/Map.tsx:24-28 | before the start time the index is negative |
| FlightMap.IndexMonotone | src/components/Map.tsx:24-28 | progress and index never go backwards in time |
| FlightMap.Mounted | src/components/Map.tsx:99-107 | a mounted map is valid, with no frame pending and the eVTOL marker at the origin |
| FlightMap.Flight.AnimateEvtol | src/components/Map.tsx:19-42 | the definition of `animateEvtol`; `AnimateEvtolStarts` states what it does |
| FlightMap.Flight.Throws | src/components/Map.tsx:27-32 | the definition of the case where `path[index]` is undefined and `setLngLat` gets it; `AnimateMovesMarker` states it never happens during the walk |
| FlightMap.Flight.Animate | src/components/Map.tsx:23-39 | the definition of one `animate` frame; `AnimateKeepsValid`, `AnimateRequestsNextIff`, `AnimateMovesMarker` and `AnimationStops` state what it does |
| FlightMap.Flight.Cleanup | src/components/Map.tsx:155-158 | the definition of the effect's cleanup; `CleanupCancels` states what it does |
| FlightMap.AnimateEvtolStarts | src/components/Map.tsx:19-42 | starting the walk builds the path and leaves exactly the first frame pending, with its handle stored |
| FlightMap.AnimateKeepsValid | src/components/Map.tsx:23-39 | a frame firing keeps the state valid |
| FlightMap.AnimateRequestsNextIff | src/components/Map.tsx:27-37 | the next frame is requested exactly when progress < 1 and the frame did not throw; it is then the only pending frame |
| FlightMap.AnimateMovesMarker | src/components/Map.tsx:27-35 | during the walk the frame does not throw, and the marker sits on point floor(progress·100) facing the next point |
| FlightMap.AnimationStops | src/components/Map.tsx:25-27 | ten seconds after the start no frame is pending |
| FlightMap.CleanupCancels | src/components/Map.tsx:155-158 | cleanup cancels the stored frame, leaving none pending, and keeps the handle in `animation.current` |
| FlightMap.FlightMapView.constructor | src/components/Map.tsx:99-107 | the component mounts into the `Mounted` state |
| FlightMap.FlightMapView.AnimateEvtol | src/components/Map.tsx:19-42 | `animateEvtol` does what `Flight.AnimateEvtol` states and keeps the state valid |
| FlightMap.FlightMapView.Animate | src/components/Map.tsx:23-39 | `animate` does what `Flight.Animate` states, keeps the state valid and reports exactly when `setLngLat` throws |
| FlightMap.FlightMapView.Cleanup | src/components/Map.tsx:155-158 | the cleanup does what `Flight.Cleanup` states and keeps the state valid |

## Left out

- The haversine distance (src/components/RouteForm.tsx:37-47, src/components/RealMapComponent.tsx:56-66, src/components/PublicRouteWall.tsx:53-63) is an input in whole kilometres. `Math.sqrt`, `Math.sin` and `Math.PI` are parameters or constants.
- RouteDedup.Close is the tolerance test over exact reals. In double precision, two rounded neighbouring micro-degrees can differ by slightly less than the literal 0.000001 (77592601/1e6 - 77592600/1e6 is about 9.99999997e-7), so the program can also treat coordinates one micro-degree apart as close.
- RouteDedup.CloseIffSameMicroDegree holds over exact reals only; with doubles the test can also match an adjacent micro-degree, as above.
- RouteDedup.SameRouteIffSameMicroDegrees holds over exact reals only. The program can also drop a public route whose endpoint is one micro-degree off the active route's, which `RouteDedup.FilterRoutes` keeps.
- `getBearing` (src/components/RealMapComponent.tsx:579-590, src/components/Map.tsx:45-56) is not computed. A marker pose records only the point it faces.
- Floating point is not modelled: coordinates are exact reals.
  - The sample count of the `t += 0.01` loops is not claimed.
  - Whether their last sample reaches t = 1 is not claimed.
  - Whether `a + (b - a)·1` equals `b` exactly is not claimed.
  - The loops' parameters are the input `ts`.
- Mapbox plumbing is left out: map construction, token checks, controls, the attribution CSS, the fog, label stripping and restyling on load, zoom-based resizing, `fitBounds`, and the marker DOM elements. Paint properties other than the active line's gradient are left out too.
- RealMap.MapController.constructor always mounts a live map. A missing or non-`pk.` token (src/components/RealMapComponent.tsx:369-377) leaves `map.current` unset; that case is the `Unmount` state and is not a separate constructor.
- FlightMap.FlightMapView.constructor models one run of the Map.tsx effect. When the locations change, the effect runs again on the same refs. The handle left in `animation.current` by the earlier run is not carried over: the model starts from a fresh mount.
- `map.remove()` is left out. Unmounting the live map only clears `map.current`, and the Map.tsx cleanup does not remove the map.
- Gradient stops are not validated. Mapbox requires strictly ascending stops; the model records the stops the code passes and proves when they ascend strictly (`RealMap.TrailStopsStrictIff`).
- The network is left out: Supabase queries and updates, the Directions `fetch`, the Google distance-matrix request and Places autocomplete, and script loading. Their outcomes are inputs: the fetched rows, the driving line, the `MatrixReply` and the `UpdateOutcome`.
- Timing and concurrency are left out.
  - The 10-second refresh interval and the wall's `refetchInterval` are not modelled.
  - The style-load polling is not modelled.
  - So is any interleaving of the asynchronous steps: a refresh is its own operation, run between others; `addRoute` runs to completion at once.
  - The interval callback captures `route` when the map loads. Which active route a later refresh sees is the `active` parameter.
  - The catch at src/components/RealMapComponent.tsx:898-902 is not modelled, because no modelled step of `addRoute` throws.
- RealMap.Controller.ShowRoute models the effect's cleanup and `addRoute` only. The un-awaited `fetchAndDisplayPublicRoutes()` it starts at src/components/RealMapComponent.tsx:635 is the separate `Refresh(rows, Some(route), …)`. `RealMap.ShowRouteThenRefresh` covers the order where that refresh lands after `addRoute`; other completion orders are not modelled.
- RealMap.MapController.ShowRoute: the same gap as `Controller.ShowRoute`; the refresh started at line 635 is `RefreshPublicRoutes` called with the new route, and its interleaving with `AddRoute` is not modelled.
- RouteFormModel.RouteForm.SelectFrom and RouteFormModel.RouteForm.SelectTo: a place without geometry is not modelled; the handler does nothing for it. The effect re-run at lines 177-179, which hides the comparison whenever a location changes, is also not modelled.
- TravelTime.TimeInfoTimes models one mounted panel. The panel is keyed by the route's coordinates, so "nothing" means the initial null state stays.
- The unused `animateEvtol` in src/components/RealMapComponent.tsx:531-577 is never called and is not modelled.
- The flight-path source and layer of src/components/Map.tsx:116-145 are not modelled, nor are its `from` and `to` markers. Only the eVTOL marker is.
- Pure UI is left out: `MapControls`, the JSX beyond the wall's render guards, `src/pages/Index.tsx`, `src/components/MapComponent.tsx`, `src/components/RouteLeaderboard.tsx` and `formatDistanceToNow`.
- Sources from an earlier, longer refresh are never removed; only same-index sources are cleared. The model states this (`RealMap.OverlaySourcesKept`) rather than a no-leak property.

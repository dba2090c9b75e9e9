/**
 * The "Recent Routes" wall: the per-route saving computed after each fetch,
 * what the wall renders, and the ordered steps taken when a route is picked.
 */
module PublicRouteWall {
  import opened Types
  import opened TravelTime

  /**
   * One fetched row with its saving recomputed: driving time at 60 km/h over
   * the row's haversine distance, minus the stored flying duration, clamped at
   * zero. Every other field is copied unchanged.
   */
  function WithTimeSaved(route: PublicRoute, distanceKm: nat): (r: PublicRoute)
    ensures r.timeSaved >= 0
    ensures r.timeSaved >= distanceKm - route.duration
    ensures r.timeSaved == 0 || r.timeSaved == distanceKm - route.duration
    ensures r.id == route.id && r.from == route.from && r.to == route.to
    ensures r.createdAt == route.createdAt && r.duration == route.duration
    ensures r.popularity == route.popularity
  {
    route.(timeSaved := WallTimeSaved(distanceKm, route.duration))
  }

  /**
   * The query result: every fetched row, in fetched order, with its saving
   * recomputed. `haversineKm` stands for the great-circle distance in whole
   * kilometres between a row's endpoints.
   */
  function AnnotateRoutes(rows: seq<PublicRoute>, haversineKm: (Location, Location) -> nat): (r: seq<PublicRoute>)
    ensures |r| == |rows|
    ensures forall i :: 0 <= i < |r| ==>
              && r[i] == rows[i].(timeSaved := r[i].timeSaved)
              && r[i].timeSaved == WallTimeSaved(haversineKm(rows[i].from, rows[i].to), rows[i].duration)
              && r[i].timeSaved >= 0
  {
    var r := seq(|rows|, i requires 0 <= i < |rows| => WithTimeSaved(rows[i], haversineKm(rows[i].from, rows[i].to)));
    assert forall i :: 0 <= i < |r| ==> r[i] == rows[i].(timeSaved := r[i].timeSaved) by {
      forall i | 0 <= i < |r| ensures r[i] == rows[i].(timeSaved := r[i].timeSaved) {
        var w := WithTimeSaved(rows[i], haversineKm(rows[i].from, rows[i].to));
        assert r[i] == w;
      }
    }
    r
  }

  /**
   * The label shown for an endpoint: the part of its name before the first
   * comma (the whole name when there is none).
   */
  function EndpointLabel(name: string): (text: string)
    ensures text <= name
    ensures ',' !in text
    ensures |text| < |name| ==> name[|text|] == ','
  {
    if name == [] || name[0] == ',' then [] else [name[0]] + EndpointLabel(name[1..])
  }

  /** The label is determined by the two facts above: any comma-free prefix
   *  followed by a comma or by the end of the name is the label. */
  lemma {:induction false} EndpointLabelUnique(name: string, prefix: string)
    requires prefix <= name && ',' !in prefix
    requires |prefix| < |name| ==> name[|prefix|] == ','
    ensures EndpointLabel(name) == prefix
  {
    if prefix != [] {
      assert name[0] == prefix[0] && prefix[0] != ',';
      EndpointLabelUnique(name[1..], prefix[1..]);
    }
  }

  /** One card of the wall. */
  datatype RouteCard = RouteCard(id: string, fromLabel: string, toLabel: string, duration: int, timeSaved: int)

  /** What the wall renders. */
  datatype WallView = Nothing | LoadingSkeleton | NoRoutesNotice | Cards(cards: seq<RouteCard>)

  /**
   * The card for one route: its id, the label of each endpoint (the name up
   * to its first comma), its stored flying duration and its saving.
   */
  function Card(route: PublicRoute): (card: RouteCard)
    ensures card.id == route.id
    ensures card.fromLabel == EndpointLabel(route.from.name) && card.toLabel == EndpointLabel(route.to.name)
    ensures card.duration == route.duration && card.timeSaved == route.timeSaved
  {
    RouteCard(route.id, EndpointLabel(route.from.name), EndpointLabel(route.to.name), route.duration, route.timeSaved)
  }

  /**
   * The render: nothing when the query failed or the wall is closed; then a
   * skeleton while loading, a notice for an empty list, or one card per route
   * in order.
   */
  function RenderWall(queryFailed: bool, isOpen: bool, isLoading: bool, routes: seq<PublicRoute>): (v: WallView)
    ensures v.Nothing? <==> queryFailed || !isOpen
    ensures v.LoadingSkeleton? <==> !queryFailed && isOpen && isLoading
    ensures v.NoRoutesNotice? <==> !queryFailed && isOpen && !isLoading && routes == []
    ensures v.Cards? ==> |v.cards| == |routes| && routes != []
    ensures v.Cards? ==> forall i :: 0 <= i < |routes| ==>
              && v.cards[i].id == routes[i].id
              && v.cards[i].fromLabel == EndpointLabel(routes[i].from.name)
              && v.cards[i].toLabel == EndpointLabel(routes[i].to.name)
              && v.cards[i].duration == routes[i].duration
              && v.cards[i].timeSaved == routes[i].timeSaved
  {
    if queryFailed then Nothing
    else if !isOpen then Nothing
    else if isLoading then LoadingSkeleton
    else if |routes| == 0 then NoRoutesNotice
    else Cards(seq(|routes|, i requires 0 <= i < |routes| => Card(routes[i])))
  }

  /**
   * The popularity written when a route is picked: `(popularity || 0) + 1`,
   * so a missing value counts as 0 (a stored 0 is falsy and also becomes 0).
   */
  function NextPopularity(popularity: Option<int>): (p: int)
    ensures popularity.None? ==> p == 1
    ensures popularity.Some? ==> p == popularity.value + 1
  {
    var current := if popularity.Some? && popularity.value != 0 then popularity.value else 0;
    current + 1
  }

  /** How the popularity update came back from the database. */
  datatype UpdateOutcome = UpdateOk | UpdateError | UpdateThrew

  /** What the wall does to the outside world, in order. */
  datatype WallEffect =
    | PopularityWrite(routeId: string, popularity: int)
    | ErrorToast(message: string)
    | RouteSelected(route: PublicRoute)
    | Closed
    | Refetched

  const PopularityToast: string := "Failed to update route popularity"
  const UpdateToast: string := "Failed to update route"

  /** The wall component's side effects, as a log. */
  class RouteWall {
    var effects: seq<WallEffect>

    constructor ()
      ensures effects == []
    {
      effects := [];
    }

    /**
     * A card was clicked: write popularity + 1; on an error result toast and
     * stop; otherwise hand the route to the page, close the wall, refetch.
     * An exception from the update only toasts.
     */
    method HandleRouteSelect(route: PublicRoute, outcome: UpdateOutcome)
      modifies this
      ensures var write := PopularityWrite(route.id, NextPopularity(route.popularity));
              match outcome
              case UpdateOk => effects == old(effects) + [write, RouteSelected(route), Closed, Refetched]
              case UpdateError => effects == old(effects) + [write, ErrorToast(PopularityToast)]
              case UpdateThrew => effects == old(effects) + [write, ErrorToast(UpdateToast)]
      ensures RouteSelected(route) in effects[|old(effects)|..] <==> outcome == UpdateOk
      ensures Closed in effects[|old(effects)|..] <==> outcome == UpdateOk
    {
      effects := effects + [PopularityWrite(route.id, NextPopularity(route.popularity))];
      if outcome == UpdateThrew {
        effects := effects + [ErrorToast(UpdateToast)];
        return;
      }
      if outcome == UpdateError {
        effects := effects + [ErrorToast(PopularityToast)];
        return;
      }
      effects := effects + [RouteSelected(route)];
      effects := effects + [Closed];
      effects := effects + [Refetched];
    }
  }
}

/**
 * The filter applied to freshly fetched public routes before they are drawn:
 * a route whose endpoints match the active route's endpoints, in either
 * direction, is dropped so that it is not drawn twice.
 */
module RouteDedup {
  import opened Types

  /** One millionth of a degree: the rounding step and the comparison tolerance. */
  const Micro: real := 0.000001

  /** A coordinate rounded to 6 decimals: `Math.round(x * 1e6) / 1e6`. */
  function RoundCoord(x: real): (r: real)
    ensures r - Micro / 2.0 <= x < r + Micro / 2.0
  {
    JsRound(x * 1000000.0) as real / 1000000.0
  }

  function Abs(x: real): real
  {
    if x < 0.0 then -x else x
  }

  /** Two rounded coordinates are within the tolerance. */
  predicate Close(x: real, y: real)
  {
    Abs(RoundCoord(x) - RoundCoord(y)) < Micro
  }

  /**
   * Over exact reals, rounded coordinates are whole multiples of 1e-6, so the
   * tolerance comparison of them holds exactly when both round to the same
   * micro-degree. (In double precision two neighbouring micro-degrees can
   * differ by slightly less than the literal 0.000001; see the README.)
   */
  lemma CloseIffSameMicroDegree(x: real, y: real)
    ensures Close(x, y) <==> JsRound(x * 1000000.0) == JsRound(y * 1000000.0)
  {
    var k, j := JsRound(x * 1000000.0), JsRound(y * 1000000.0);
    assert RoundCoord(x) - RoundCoord(y) == (k - j) as real * Micro;
    if k != j {
      assert k - j >= 1 || j - k >= 1;
    }
  }

  /** Both coordinates of `l` match those of `m` after rounding. */
  predicate SameSpot(l: Location, m: Location)
  {
    Close(l.lat, m.lat) && Close(l.lng, m.lng)
  }

  /** The public route has the active route's endpoints, forwards or backwards. */
  predicate IsSameRoute(candidate: PublicRoute, active: ActiveRoute)
  {
    (SameSpot(candidate.from, active.from) && SameSpot(candidate.to, active.to)) ||
    (SameSpot(candidate.from, active.to) && SameSpot(candidate.to, active.from))
  }

  /** A fetched route is drawn when there is no active route or it is a different route. */
  predicate Keep(active: Option<ActiveRoute>, candidate: PublicRoute)
  {
    active.None? || !IsSameRoute(candidate, active.value)
  }

  /** `routes.filter(...)`: the kept routes, in fetched order. */
  function FilterRoutes(routes: seq<PublicRoute>, active: Option<ActiveRoute>): (kept: seq<PublicRoute>)
    ensures |kept| <= |routes|
    ensures forall r :: r in kept <==> r in routes && Keep(active, r)
  {
    if routes == [] then []
    else (if Keep(active, routes[0]) then [routes[0]] else []) + FilterRoutes(routes[1..], active)
  }

  /** With no active route every fetched route is drawn, in order. */
  lemma {:induction false} FilterWithoutActiveKeepsAll(routes: seq<PublicRoute>)
    ensures FilterRoutes(routes, None) == routes
  {
    if routes != [] {
      FilterWithoutActiveKeepsAll(routes[1..]);
    }
  }

  /**
   * Filtering a concatenation filters each part and concatenates: this is
   * what makes the filter keep its survivors in fetched order.
   */
  lemma {:induction false} FilterAppend(xs: seq<PublicRoute>, ys: seq<PublicRoute>, active: Option<ActiveRoute>)
    ensures FilterRoutes(xs + ys, active) == FilterRoutes(xs, active) + FilterRoutes(ys, active)
  {
    if xs == [] {
      assert xs + ys == ys;
    } else {
      assert (xs + ys)[1..] == xs[1..] + ys;
      FilterAppend(xs[1..], ys, active);
    }
  }

  /** Appending one more fetched route adds it at the end exactly when it is kept. */
  lemma FilterSnoc(routes: seq<PublicRoute>, r: PublicRoute, active: Option<ActiveRoute>)
    ensures FilterRoutes(routes + [r], active) ==
              FilterRoutes(routes, active) + (if Keep(active, r) then [r] else [])
  {
    FilterAppend(routes, [r], active);
    assert [r][1..] == [];
  }

  /** Swapping a candidate's endpoints never changes whether it is dropped. */
  lemma SameRouteSymmetric(candidate: PublicRoute, active: ActiveRoute)
    ensures IsSameRoute(candidate.(from := candidate.to, to := candidate.from), active) ==
            IsSameRoute(candidate, active)
  {
  }

  /** A candidate with exactly the active route's endpoints, either way round, is dropped. */
  lemma IdenticalRouteDropped(candidate: PublicRoute, active: ActiveRoute)
    requires (candidate.from == active.from && candidate.to == active.to) ||
             (candidate.from == active.to && candidate.to == active.from)
    ensures !Keep(Some(active), candidate)
  {
  }

  /**
   * The comparison in terms of micro-degrees, over exact reals: the candidate is dropped exactly when
   * its four coordinates round to the active route's, forwards or backwards.
   */
  lemma SameRouteIffSameMicroDegrees(candidate: PublicRoute, active: ActiveRoute)
    ensures IsSameRoute(candidate, active) <==>
              (SameMicro(candidate.from, active.from) && SameMicro(candidate.to, active.to)) ||
              (SameMicro(candidate.from, active.to) && SameMicro(candidate.to, active.from))
  {
    forall l: Location, m: Location ensures SameSpot(l, m) <==> SameMicro(l, m) {
      CloseIffSameMicroDegree(l.lat, m.lat);
      CloseIffSameMicroDegree(l.lng, m.lng);
    }
  }

  predicate SameMicro(l: Location, m: Location)
  {
    JsRound(l.lat * 1000000.0) == JsRound(m.lat * 1000000.0) &&
    JsRound(l.lng * 1000000.0) == JsRound(m.lng * 1000000.0)
  }
}

/**
 * The route-planning form: the two picked locations, the flying/cab time
 * comparison, and the "take off" button that hands the pair to the page.
 * Each React state hook is a field; each callback prop the form calls is a
 * log of the arguments it was called with.
 */
module RouteFormModel {
  import opened Types
  import opened TravelTime

  /** The comparison the form shows once both times are known. */
  datatype TimeComparison = TimeComparison(flyingMinutes: int, cabMinutes: int, timeSaved: int)

  class RouteForm {
    var fromLocation: Option<Location>
    var toLocation: Option<Location>
    var timeComparison: Option<TimeComparison>
    var showTimeComparison: bool
    var isCalculating: bool
    /** Every value given to `setIsCalculating`, oldest first. */
    ghost var calculatingHistory: seq<bool>
    /** The pairs handed to `onPlanRoute`, oldest first. */
    var plannedRoutes: seq<(Location, Location)>
    /** The pairs handed to `onLocationSelect`, oldest first. */
    var selections: seq<(Option<Location>, Option<Location>)>

    constructor ()
      ensures fromLocation == None && toLocation == None
      ensures timeComparison == None && !showTimeComparison && !isCalculating
      ensures calculatingHistory == [] && plannedRoutes == [] && selections == []
    {
      fromLocation, toLocation := None, None;
      timeComparison, showTimeComparison, isCalculating := None, false, false;
      calculatingHistory, plannedRoutes, selections := [], [], [];
    }

    /** The "Let's Take Off!" button is enabled. */
    predicate PlanButtonEnabled()
      reads this
    {
      fromLocation.Some? && toLocation.Some? && showTimeComparison && !isCalculating
    }

    /** The comparison panel is rendered. */
    predicate ComparisonVisible()
      reads this
    {
      showTimeComparison && timeComparison.Some? && !isCalculating
    }

    /**
     * Recomputes the comparison for a pair of locations whose haversine
     * distance is `distanceKm` and for which the distance-matrix service
     * answers `reply`. The calculating flag is raised first and lowered last,
     * whatever happens in between. A cab time shows the comparison with an
     * unclamped saving; no cab time, or an exception, hides it and keeps the
     * previous comparison value.
     */
    method UpdateTimeComparison(distanceKm: nat, googleLoaded: bool, reply: MatrixReply)
      modifies this
      ensures calculatingHistory == old(calculatingHistory) + [true, false]
      ensures !isCalculating
      ensures var lookup := CalculateCabTime(googleLoaded, reply);
              var found := lookup.Returned? && lookup.minutes.Some?;
              && (showTimeComparison <==> found)
              && (found ==> timeComparison == Some(TimeComparison(
                                FlyingMinutes(distanceKm),
                                lookup.minutes.value,
                                lookup.minutes.value - FlyingMinutes(distanceKm))))
              && (!found ==> timeComparison == old(timeComparison))
              && (ComparisonVisible() <==> found)
      ensures fromLocation == old(fromLocation) && toLocation == old(toLocation)
      ensures plannedRoutes == old(plannedRoutes) && selections == old(selections)
    {
      isCalculating := true;
      calculatingHistory := calculatingHistory + [true];
      var flyingTime := FlyingMinutes(distanceKm);
      var lookup := CalculateCabTime(googleLoaded, reply);
      match lookup {
        case Raised =>
          showTimeComparison := false;
        case Returned(cabMinutes) =>
          if cabMinutes.Some? {
            timeComparison := Some(TimeComparison(flyingTime, cabMinutes.value, cabMinutes.value - flyingTime));
            showTimeComparison := true;
          } else {
            showTimeComparison := false;
          }
      }
      isCalculating := false;
      calculatingHistory := calculatingHistory + [false];
    }

    /**
     * A place picked in the "from" box: it becomes the origin, the comparison
     * is recomputed when a destination is already set, and the page is told
     * about the new pair.
     */
    method SelectFrom(place: Location, distanceKm: nat, googleLoaded: bool, reply: MatrixReply)
      modifies this
      ensures fromLocation == Some(place) && toLocation == old(toLocation)
      ensures selections == old(selections) + [(Some(place), old(toLocation))]
      ensures old(toLocation).None? ==>
                && calculatingHistory == old(calculatingHistory)
                && timeComparison == old(timeComparison)
                && showTimeComparison == old(showTimeComparison)
                && isCalculating == old(isCalculating)
      ensures old(toLocation).Some? ==>
                var lookup := CalculateCabTime(googleLoaded, reply);
                var found := lookup.Returned? && lookup.minutes.Some?;
                && calculatingHistory == old(calculatingHistory) + [true, false]
                && !isCalculating
                && (showTimeComparison <==> found)
                && (found ==> timeComparison == Some(TimeComparison(
                                  FlyingMinutes(distanceKm),
                                  lookup.minutes.value,
                                  lookup.minutes.value - FlyingMinutes(distanceKm))))
                && (!found ==> timeComparison == old(timeComparison))
                && (ComparisonVisible() <==> found)
      ensures plannedRoutes == old(plannedRoutes)
    {
      fromLocation := Some(place);
      if toLocation.Some? {
        UpdateTimeComparison(distanceKm, googleLoaded, reply);
      }
      selections := selections + [(Some(place), toLocation)];
    }

    /** The mirror image of `SelectFrom` for the "to" box. */
    method SelectTo(place: Location, distanceKm: nat, googleLoaded: bool, reply: MatrixReply)
      modifies this
      ensures toLocation == Some(place) && fromLocation == old(fromLocation)
      ensures selections == old(selections) + [(old(fromLocation), Some(place))]
      ensures old(fromLocation).None? ==>
                && calculatingHistory == old(calculatingHistory)
                && timeComparison == old(timeComparison)
                && showTimeComparison == old(showTimeComparison)
                && isCalculating == old(isCalculating)
      ensures old(fromLocation).Some? ==>
                var lookup := CalculateCabTime(googleLoaded, reply);
                var found := lookup.Returned? && lookup.minutes.Some?;
                && calculatingHistory == old(calculatingHistory) + [true, false]
                && !isCalculating
                && (showTimeComparison <==> found)
                && (found ==> timeComparison == Some(TimeComparison(
                                  FlyingMinutes(distanceKm),
                                  lookup.minutes.value,
                                  lookup.minutes.value - FlyingMinutes(distanceKm))))
                && (!found ==> timeComparison == old(timeComparison))
                && (ComparisonVisible() <==> found)
      ensures plannedRoutes == old(plannedRoutes)
    {
      toLocation := Some(place);
      if fromLocation.Some? {
        UpdateTimeComparison(distanceKm, googleLoaded, reply);
      }
      selections := selections + [(fromLocation, Some(place))];
    }

    /**
     * The button's click handler: `onPlanRoute` is called, with the two
     * locations, exactly when both are set. An enabled button always gets
     * through.
     */
    method HandlePlanRoute()
      modifies this`plannedRoutes
      ensures fromLocation.Some? && toLocation.Some? ==>
                plannedRoutes == old(plannedRoutes) + [(fromLocation.value, toLocation.value)]
      ensures !(fromLocation.Some? && toLocation.Some?) ==> plannedRoutes == old(plannedRoutes)
      ensures PlanButtonEnabled() ==> |plannedRoutes| == |old(plannedRoutes)| + 1
    {
      if fromLocation.Some? && toLocation.Some? {
        plannedRoutes := plannedRoutes + [(fromLocation.value, toLocation.value)];
      }
    }
  }
}

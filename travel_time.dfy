/**
 * Minute arithmetic shared by the route form, the map's time panel and the
 * public-route wall. The great-circle (haversine) distance is an input: it
 * reaches this code already rounded to whole kilometres.
 */
module TravelTime {
  import opened Types

  /** eVTOL cruising speed, km/h. */
  const FlyingSpeedKmh: real := 250.0
  /** Assumed average car speed for the fallback estimate, km/h. */
  const DrivingSpeedKmh: real := 60.0

  /**
   * Flying minutes for a whole-kilometre distance: distance / 250 h,
   * rounded to the nearest minute.
   */
  function FlyingMinutes(distanceKm: nat): (m: int)
    ensures m >= 0
    ensures m as real - 0.5 <= distanceKm as real * 6.0 / 25.0 < m as real + 0.5
  {
    JsRound(distanceKm as real / FlyingSpeedKmh * 60.0)
  }

  /**
   * The flying time is the nearest whole minute to 60·d/250 = 6·d/25 minutes
   * (never a tie: 6·d/25 always has a fractional part that is a multiple of 1/25).
   */
  lemma FlyingMinutesNearest(distanceKm: nat)
    ensures var m := FlyingMinutes(distanceKm);
            m >= 0 &&
            m as real - 0.5 < distanceKm as real * 6.0 / 25.0 < m as real + 0.5
  {
    var m := FlyingMinutes(distanceKm);
    var x := distanceKm as real * 6.0 / 25.0;
    var q := (distanceKm * 6) / 25;
    var rem := (distanceKm * 6) % 25;
    assert x == q as real + rem as real / 25.0;
  }

  /** A longer flight never takes fewer minutes. */
  lemma FlyingMinutesMonotone(d1: nat, d2: nat)
    requires d1 <= d2
    ensures 0 <= FlyingMinutes(d1) <= FlyingMinutes(d2)
  {
    JsRoundMonotone(d1 as real / FlyingSpeedKmh * 60.0, d2 as real / FlyingSpeedKmh * 60.0);
  }

  /**
   * The fallback car estimate at 60 km/h: round(d / 60 · 60) minutes, which is
   * exactly the kilometre count.
   */
  function FallbackDrivingMinutes(distanceKm: nat): (m: int)
    ensures m == distanceKm
  {
    JsRound(distanceKm as real / DrivingSpeedKmh * 60.0)
  }

  /** Seconds reported by the distance-matrix service, rounded to minutes. */
  function CabMinutes(durationSeconds: real): (m: int)
    ensures m as real - 0.5 <= durationSeconds / 60.0 < m as real + 0.5
    ensures durationSeconds >= 0.0 ==> m >= 0
  {
    JsRound(durationSeconds / 60.0)
  }

  /**
   * The wall's saving: driving minutes minus the stored flying duration,
   * clamped at zero.
   */
  function WallTimeSaved(distanceKm: nat, flyingMinutes: int): (s: int)
    ensures s >= 0
    ensures s >= distanceKm - flyingMinutes
    ensures s == 0 || s == distanceKm - flyingMinutes
  {
    var drivingTime := FallbackDrivingMinutes(distanceKm);
    if 0 >= drivingTime - flyingMinutes then 0 else drivingTime - flyingMinutes
  }

  /**
   * What the Google distance-matrix lookup does for one origin/destination pair.
   * `ServiceUnavailable`: constructing the service (or its LatLng arguments)
   * throws; `RequestFailed`: the request itself rejects or its reply cannot be
   * read; `Replied`: the first element's status and duration.
   */
  datatype MatrixReply =
    | ServiceUnavailable
    | RequestFailed
    | Replied(status: string, durationSeconds: real)

  /** The outcome of the form's cab lookup: a value, or an exception that escapes it. */
  datatype CabLookup = Returned(minutes: Option<int>) | Raised

  /**
   * The form's cab lookup: null without the Google script, null when the
   * request fails or the status is not "OK", the rounded minutes otherwise.
   * Only a failure to construct the service escapes as an exception, since
   * that step is outside the lookup's try block.
   */
  function CalculateCabTime(googleLoaded: bool, reply: MatrixReply): (r: CabLookup)
    ensures r.Raised? <==> googleLoaded && reply.ServiceUnavailable?
    ensures r.Returned? && r.minutes.Some? <==>
              googleLoaded && reply.Replied? && reply.status == "OK"
    ensures r.Returned? && r.minutes.Some? ==> r.minutes.value == CabMinutes(reply.durationSeconds)
  {
    if !googleLoaded then Returned(None)
    else match reply
      case ServiceUnavailable => Raised
      case RequestFailed => Returned(None)
      case Replied(status, seconds) =>
        if status == "OK" then Returned(Some(CabMinutes(seconds))) else Returned(None)
  }

  /** The three figures the map's time panel shows. */
  datatype TripTimes = TripTimes(evtolTime: int, carTime: int, timeSaved: int)

  /**
   * The map's time panel: nothing without the Google script, nothing when the
   * service cannot be constructed (the exception leaves the effect), the
   * service's minutes on an "OK" reply, nothing on another status, and the
   * 60 km/h fallback when the request fails. The saving is never clamped.
   */
  function TimeInfoTimes(distanceKm: nat, googleLoaded: bool, reply: MatrixReply): (r: Option<TripTimes>)
    ensures r.Some? <==>
              googleLoaded && (reply.RequestFailed? || (reply.Replied? && reply.status == "OK"))
    ensures r.Some? ==> r.value.evtolTime == FlyingMinutes(distanceKm)
    ensures r.Some? ==> r.value.timeSaved == r.value.carTime - r.value.evtolTime
    ensures r.Some? && reply.RequestFailed? ==> r.value.carTime == distanceKm
    ensures r.Some? && reply.Replied? ==> r.value.carTime == CabMinutes(reply.durationSeconds)
  {
    var flyingTime := FlyingMinutes(distanceKm);
    if !googleLoaded then None
    else match reply
      case ServiceUnavailable => None
      case RequestFailed =>
        var drivingTime := FallbackDrivingMinutes(distanceKm);
        Some(TripTimes(flyingTime, drivingTime, drivingTime - flyingTime))
      case Replied(status, seconds) =>
        if status == "OK" then
          var drivingTime := CabMinutes(seconds);
          Some(TripTimes(flyingTime, drivingTime, drivingTime - flyingTime))
        else None
  }

  /**
   * The panel's saving is not clamped: a 250 km trip (60 flying minutes) that
   * the service says takes 30 minutes by car shows a saving of -30 minutes.
   */
  lemma PanelSavingCanBeNegative()
    ensures var r := TimeInfoTimes(250, true, Replied("OK", 1800.0));
            r.Some? && r.value.timeSaved == -30
  {
    var r := TimeInfoTimes(250, true, Replied("OK", 1800.0));
    assert FlyingMinutes(250) == 60 by { JsRoundUnique(60.0, 60); }
    assert CabMinutes(1800.0) == 30 by { JsRoundUnique(30.0, 30); }
  }
}

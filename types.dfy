/**
 * Values shared by the map, the route form and the public-route wall.
 * Coordinates are degrees, modelled as exact reals.
 */
module Types {

  datatype Option<+T> = None | Some(value: T)

  /** A place picked in the form: a display name and its coordinates. */
  datatype Location = Location(name: string, lat: real, lng: real)

  /** A map coordinate in Mapbox order: longitude first, then latitude. */
  datatype Point = Point(lng: real, lat: real)

  /** The `[lng, lat]` pair the map is given for a location. */
  function At(l: Location): Point
  {
    Point(l.lng, l.lat)
  }

  /** The route currently planned by the user: just its two endpoints. */
  datatype ActiveRoute = ActiveRoute(from: Location, to: Location)

  /**
   * A row of the `routes` table. `popularity` may be missing in a row, which
   * the wall treats like 0; `duration` is the stored flying time in minutes.
   */
  datatype PublicRoute = PublicRoute(
    id: string,
    from: Location,
    to: Location,
    createdAt: string,
    duration: int,
    timeSaved: int,
    popularity: Option<int>)

  /**
   * JavaScript's `Math.round`: the nearest integer, halves going up
   * (towards +infinity). The result is the unique integer within half a
   * unit of `x`, the lower end included.
   */
  function JsRound(x: real): (r: int)
    ensures r as real - 0.5 <= x < r as real + 0.5
  {
    (x + 0.5).Floor
  }

  /** The integer `Math.round` gives is the only one within the half-open band. */
  lemma JsRoundUnique(x: real, k: int)
    requires k as real - 0.5 <= x < k as real + 0.5
    ensures JsRound(x) == k
  {
  }

  /** Rounding never goes backwards: `Math.round` is monotone. */
  lemma JsRoundMonotone(x: real, y: real)
    requires x <= y
    ensures JsRound(x) <= JsRound(y)
  {
  }

  /**
   * A handle returned by `requestAnimationFrame`: the browser's ids are
   * positive, so a live handle is always truthy.
   */
  type FrameHandle = h: int | h >= 1 witness 1

  /** Which way an eVTOL marker faces: as created, or along the bearing toward a point. */
  datatype Heading = Unrotated | Toward(target: Point)

  /** Where an eVTOL marker sits on the map and which way it faces. */
  datatype MarkerPose = MarkerPose(at: Point, heading: Heading)

  function Min(a: real, b: real): real
  {
    if a <= b then a else b
  }

  function Max(a: real, b: real): real
  {
    if a >= b then a else b
  }
}

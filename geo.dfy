/**
 * Points, bounding boxes and point validation shared by the layers of
 * gmaps/heatmap.py and gmaps/maps.py.
 *
 * The modules gmaps.geotraitlets and gmaps.bounds are not part of this model:
 * point validity is taken as the documented latitude and longitude ranges, and
 * the two bounds helpers are carried as function values (BoundsHelpers).
 */
module Geo {
  import opened Wrappers

  /** One (latitude, longitude) pair. */
  datatype LatLon = LatLon(lat: real, lon: real)

  /** A `data_bounds` value: `[(min_lat, min_lon), (max_lat, max_lon)]`. */
  datatype Box = Box(lower: LatLon, upper: LatLon)

  /** The (min, max) pair returned by a bounds helper. */
  datatype Range = Range(min: real, max: real)

  /** `bounds.latitude_bounds` and `bounds.longitude_bounds`, whose algorithm is not modelled. */
  datatype BoundsHelpers = BoundsHelpers(latitudeBounds: seq<real> -> Range, longitudeBounds: seq<real> -> Range)

  /** The error raised when `data` is assigned: an invalid point, or a list shorter than the trait allows. */
  datatype DataError<P> = InvalidPointException(point: P) | LengthError(minLength: nat, length: nat)

  /** Stand-in for `geotraitlets.is_valid_point`: the documented ranges. */
  predicate IsValidPoint(p: LatLon)
  {
    -90.0 <= p.lat <= 90.0 && -180.0 <= p.lon <= 180.0
  }

  predicate AllValid(points: seq<LatLon>)
  {
    forall i :: 0 <= i < |points| ==> IsValidPoint(points[i])
  }

  predicate Contains(b: Box, p: LatLon)
  {
    b.lower.lat <= p.lat <= b.upper.lat && b.lower.lon <= p.lon <= b.upper.lon
  }

  /** Column 0 of the rows, in order. */
  function Latitudes(points: seq<LatLon>): (r: seq<real>)
    ensures |r| == |points|
    ensures forall i :: 0 <= i < |points| ==> r[i] == points[i].lat
  {
    seq(|points|, i requires 0 <= i < |points| => points[i].lat)
  }

  /** Column 1 of the rows, in order. */
  function Longitudes(points: seq<LatLon>): (r: seq<real>)
    ensures |r| == |points|
    ensures forall i :: 0 <= i < |points| ==> r[i] == points[i].lon
  {
    seq(|points|, i requires 0 <= i < |points| => points[i].lon)
  }

  /**
   * The index of the point a validator loop stops at: the first point that
   * fails IsValidPoint, or |points| when every point passes.
   */
  function FirstInvalid(points: seq<LatLon>): (k: nat)
    ensures k <= |points|
    ensures forall i :: 0 <= i < k ==> IsValidPoint(points[i])
    ensures k < |points| ==> !IsValidPoint(points[k])
  {
    if points == [] then 0
    else if !IsValidPoint(points[0]) then 0
    else 1 + FirstInvalid(points[1..])
  }

  /**
   * The validator loop of `Heatmap._validate_data` and `Directions._validate_data`:
   * it returns the first invalid point (the one the exception names), or None.
   */
  method ValidatePoints(points: seq<LatLon>) returns (bad: Option<LatLon>)
    ensures bad.None? <==> AllValid(points)
    ensures bad.Some? ==> FirstInvalid(points) < |points| && bad.value == points[FirstInvalid(points)]
  {
    var i := 0;
    while i < |points|
      invariant 0 <= i <= |points|
      invariant forall j :: 0 <= j < i ==> IsValidPoint(points[j])
    {
      if !IsValidPoint(points[i]) {
        return Some(points[i]);
      }
      i := i + 1;
    }
    return None;
  }

  /** Python's `min` over a non-empty sequence. */
  function MinOf(xs: seq<real>): (m: real)
    requires |xs| > 0
    ensures m in xs
    ensures forall i :: 0 <= i < |xs| ==> m <= xs[i]
  {
    if |xs| == 1 then xs[0]
    else
      var rest := MinOf(xs[1..]);
      if xs[0] <= rest then xs[0] else rest
  }

  /** Python's `max` over a non-empty sequence. */
  function MaxOf(xs: seq<real>): (m: real)
    requires |xs| > 0
    ensures m in xs
    ensures forall i :: 0 <= i < |xs| ==> xs[i] <= m
  {
    if |xs| == 1 then xs[0]
    else
      var rest := MaxOf(xs[1..]);
      if xs[0] >= rest then xs[0] else rest
  }
}

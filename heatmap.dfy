/**
 * The heatmap layers of gmaps/heatmap.py: the style options shared by both
 * kinds, and the plain and weighted layers whose `data` assignment is
 * validated and then recomputes `data_bounds`.
 */
module Heatmaps {
  import opened Wrappers
  import opened Geo

  /** A gradient colour: a name, an RGB triple or an RGBA quadruple. */
  datatype Color =
    | ColorName(name: string)
    | Rgb(red: int, green: int, blue: int)
    | Rgba(red: int, green: int, blue: int, alpha: real)

  /** The error traitlets raises when an option is assigned a value outside its declared bounds. */
  datatype TraitError = TraitError(traitName: string)

  /** One row of weighted heatmap data: (latitude, longitude, weight). */
  datatype WeightedPoint = WeightedPoint(lat: real, lon: real, weight: real)
  {
    /** `point[:2]`: the part of the row the validator and the bounds look at. */
    function Location(): LatLon
    {
      LatLon(lat, lon)
    }
  }

  /** The (lat, lon) part of every row, in order. */
  function Locations(rows: seq<WeightedPoint>): (r: seq<LatLon>)
    ensures |r| == |rows|
    ensures forall i :: 0 <= i < |rows| ==> r[i] == rows[i].Location()
  {
    seq(|rows|, i requires 0 <= i < |rows| => rows[i].Location())
  }

  /** The box `set_bounds` stores for the given rows. */
  function HeatmapBox(helpers: BoundsHelpers, points: seq<LatLon>): Box
  {
    var latitudes := helpers.latitudeBounds(Latitudes(points));
    var longitudes := helpers.longitudeBounds(Longitudes(points));
    Box(LatLon(latitudes.min, longitudes.min), LatLon(latitudes.max, longitudes.max))
  }

  /**
   * `_HeatmapOptionsMixin`: the style options. Both heatmap kinds hold one
   * of these objects.
   */
  class HeatmapOptions {
    var maxIntensity: Option<real>
    var pointRadius: Option<real>
    var dissipating: bool
    var opacity: real
    var gradient: Option<seq<Color>>

    /** The declared bounds: opacity in [0, 1], a gradient with at least one colour. */
    ghost predicate Valid()
      reads this
    {
      0.0 <= opacity <= 1.0 && (gradient.Some? ==> |gradient.value| >= 1)
    }

    ghost predicate HasDefaults()
      reads this
    {
      maxIntensity == None && pointRadius == None && dissipating && opacity == 0.6 && gradient == None
    }

    constructor ()
      ensures Valid() && HasDefaults()
    {
      maxIntensity := None;
      pointRadius := None;
      dissipating := true;
      opacity := 0.6;
      gradient := None;
    }

    method SetMaxIntensity(v: Option<real>)
      requires Valid()
      modifies this`maxIntensity
      ensures Valid() && maxIntensity == v
    {
      maxIntensity := v;
    }

    method SetPointRadius(v: Option<real>)
      requires Valid()
      modifies this`pointRadius
      ensures Valid() && pointRadius == v
    {
      pointRadius := v;
    }

    method SetDissipating(b: bool)
      requires Valid()
      modifies this`dissipating
      ensures Valid() && dissipating == b
    {
      dissipating := b;
    }

    /** Out of [0, 1] is rejected and the old opacity kept. */
    method SetOpacity(x: real) returns (err: Option<TraitError>)
      requires Valid()
      modifies this`opacity
      ensures Valid()
      ensures err.None? <==> 0.0 <= x <= 1.0
      ensures err.Some? ==> err.value == TraitError("opacity")
      ensures opacity == if err.None? then x else old(opacity)
    {
      if 0.0 <= x <= 1.0 {
        opacity := x;
        err := None;
      } else {
        err := Some(TraitError("opacity"));
      }
    }

    /** None, or a list of at least one colour; an empty list is rejected and the old gradient kept. */
    method SetGradient(g: Option<seq<Color>>) returns (err: Option<TraitError>)
      requires Valid()
      modifies this`gradient
      ensures Valid()
      ensures err.None? <==> (g.None? || |g.value| >= 1)
      ensures err.Some? ==> err.value == TraitError("gradient")
      ensures gradient == if err.None? then g else old(gradient)
    {
      if g.None? || |g.value| >= 1 {
        gradient := g;
        err := None;
      } else {
        err := Some(TraitError("gradient"));
      }
    }
  }

  /** A heatmap of (latitude, longitude) pairs. */
  class Heatmap {
    const options: HeatmapOptions
    const helpers: BoundsHelpers
    var data: seq<LatLon>
    var dataBounds: Option<Box>

    /** `data_bounds` is never stale: it is empty only while `data` still holds its initial empty list. */
    ghost predicate Valid()
      reads this
    {
      (data == [] && dataBounds == None) || dataBounds == Some(HeatmapBox(helpers, data))
    }

    constructor (helpers: BoundsHelpers)
      ensures Valid() && data == [] && dataBounds == None && this.helpers == helpers
      ensures fresh(options) && options.Valid() && options.HasDefaults()
    {
      this.helpers := helpers;
      options := new HeatmapOptions();
      data := [];
      dataBounds := None;
    }

    /** `set_bounds`: only `data_bounds` changes. */
    method SetBounds(points: seq<LatLon>)
      modifies this`dataBounds
      ensures dataBounds == Some(HeatmapBox(helpers, points))
    {
      var latitudes := helpers.latitudeBounds(Latitudes(points));
      var longitudes := helpers.longitudeBounds(Longitudes(points));
      dataBounds := Some(Box(LatLon(latitudes.min, longitudes.min), LatLon(latitudes.max, longitudes.max)));
    }

    /**
     * Assigning `data`: validate, store, then (when the value changed) let the
     * observer recompute the bounds. A rejected assignment changes nothing.
     */
    method SetData(points: seq<LatLon>) returns (err: Option<DataError<LatLon>>)
      requires Valid()
      modifies this`data, this`dataBounds
      ensures Valid()
      ensures err.None? <==> AllValid(points)
      ensures err.Some? ==> err.value == InvalidPointException(points[FirstInvalid(points)])
      ensures err.Some? ==> data == old(data) && dataBounds == old(dataBounds)
      ensures err.None? ==> data == points
      ensures err.None? && points != old(data) ==> dataBounds == Some(HeatmapBox(helpers, points))
      ensures points == old(data) ==> dataBounds == old(dataBounds)
    {
      var bad := ValidatePoints(points);
      if bad.Some? {
        return Some(InvalidPointException(bad.value));
      }
      var changed := points != data;
      data := points;
      if changed {
        SetBounds(points);
      }
      return None;
    }
  }

  /**
   * The validator loop of `WeightedHeatmap._validate_data`: only `point[:2]`
   * of each row is checked, the weight never is.
   */
  method ValidateWeightedRows(rows: seq<WeightedPoint>) returns (bad: Option<WeightedPoint>)
    ensures bad.None? <==> forall i :: 0 <= i < |rows| ==> IsValidPoint(rows[i].Location())
    ensures bad.Some? ==> FirstInvalid(Locations(rows)) < |rows| && bad.value == rows[FirstInvalid(Locations(rows))]
  {
    var i := 0;
    while i < |rows|
      invariant 0 <= i <= |rows|
      invariant forall j :: 0 <= j < i ==> IsValidPoint(rows[j].Location())
    {
      if !IsValidPoint(rows[i].Location()) {
        return Some(rows[i]);
      }
      i := i + 1;
    }
    return None;
  }

  /** A heatmap of (latitude, longitude, weight) triples. */
  class WeightedHeatmap {
    const options: HeatmapOptions
    const helpers: BoundsHelpers
    var data: seq<WeightedPoint>
    var dataBounds: Option<Box>

    ghost predicate Valid()
      reads this
    {
      (data == [] && dataBounds == None) || dataBounds == Some(HeatmapBox(helpers, Locations(data)))
    }

    constructor (helpers: BoundsHelpers)
      ensures Valid() && data == [] && dataBounds == None && this.helpers == helpers
      ensures fresh(options) && options.Valid() && options.HasDefaults()
    {
      this.helpers := helpers;
      options := new HeatmapOptions();
      data := [];
      dataBounds := None;
    }

    /** `set_bounds` on weighted rows: columns 0 and 1 only; only `data_bounds` changes. */
    method SetBounds(rows: seq<WeightedPoint>)
      modifies this`dataBounds
      ensures dataBounds == Some(HeatmapBox(helpers, Locations(rows)))
    {
      var points := Locations(rows);
      var latitudes := helpers.latitudeBounds(Latitudes(points));
      var longitudes := helpers.longitudeBounds(Longitudes(points));
      dataBounds := Some(Box(LatLon(latitudes.min, longitudes.min), LatLon(latitudes.max, longitudes.max)));
    }

    method SetData(rows: seq<WeightedPoint>) returns (err: Option<DataError<WeightedPoint>>)
      requires Valid()
      modifies this`data, this`dataBounds
      ensures Valid()
      ensures err.None? <==> AllValid(Locations(rows))
      ensures err.Some? ==> err.value == InvalidPointException(rows[FirstInvalid(Locations(rows))])
      ensures err.Some? ==> data == old(data) && dataBounds == old(dataBounds)
      ensures err.None? ==> data == rows
      ensures err.None? && rows != old(data) ==> dataBounds == Some(HeatmapBox(helpers, Locations(rows)))
      ensures rows == old(data) ==> dataBounds == old(dataBounds)
    {
      var bad := ValidateWeightedRows(rows);
      if bad.Some? {
        return Some(InvalidPointException(bad.value));
      }
      var changed := rows != data;
      data := rows;
      if changed {
        SetBounds(rows);
      }
      return None;
    }
  }

  /** Two weighted row lists with the same (lat, lon) columns. */
  predicate SameLocations(a: seq<WeightedPoint>, b: seq<WeightedPoint>)
  {
    |a| == |b| && forall i :: 0 <= i < |a| ==> a[i].lat == b[i].lat && a[i].lon == b[i].lon
  }

  /** Weights never affect the bounds. */
  lemma WeightsNeverAffectBounds(helpers: BoundsHelpers, a: seq<WeightedPoint>, b: seq<WeightedPoint>)
    requires SameLocations(a, b)
    ensures HeatmapBox(helpers, Locations(a)) == HeatmapBox(helpers, Locations(b))
  {
    assert Locations(a) == Locations(b);
  }

  /** Weights never affect validation: the same row is the first one rejected, or none is. */
  lemma WeightsNeverAffectValidation(a: seq<WeightedPoint>, b: seq<WeightedPoint>)
    requires SameLocations(a, b)
    ensures FirstInvalid(Locations(a)) == FirstInvalid(Locations(b))
  {
    assert Locations(a) == Locations(b);
  }

  /** A row with a negative weight is accepted when its location is valid. */
  lemma NegativeWeightAccepted(lat: real, lon: real, weight: real)
    requires IsValidPoint(LatLon(lat, lon)) && weight < 0.0
    ensures AllValid(Locations([WeightedPoint(lat, lon, weight)]))
  {
  }
}

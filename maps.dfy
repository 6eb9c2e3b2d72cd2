/**
 * gmaps/maps.py: the module-level default configuration, the Directions
 * layer, and the Map that collects layers and merges their bounds.
 */
module Maps {
  import opened Wrappers
  import opened Geo
  import opened Heatmaps

  /** `DEFAULT_BOUNDS`. */
  const DefaultBounds := Box(LatLon(46.2, 6.1), LatLon(47.2, 7.1))

  /** A configuration dictionary `{"api_key": ...}`. */
  datatype Configuration = Configuration(apiKey: Option<string>)

  /** The module global `_default_configuration`, which `configure` rebinds. */
  class MapsGlobals {
    var defaultConfiguration: Configuration

    constructor ()
      ensures defaultConfiguration == Configuration(None)
    {
      defaultConfiguration := Configuration(None);
    }

    /** `configure(api_key)`: the default becomes exactly `{"api_key": api_key}`. */
    method Configure(apiKey: Option<string>)
      modifies this
      ensures defaultConfiguration == Configuration(apiKey)
    {
      defaultConfiguration := Configuration(apiKey);
    }
  }

  /* ---------------- Directions ---------------- */

  datatype DirectionsServiceException = DirectionsServiceException(message: string)

  const NoDirectionsPrefix := "No directions returned: "

  /** The check `_handle_layer_status` makes of a new status. */
  function StatusError(status: string): (r: Option<DirectionsServiceException>)
    ensures r.None? <==> status == "OK"
    ensures r.Some? ==> |r.value.message| == |NoDirectionsPrefix| + |status|
    ensures r.Some? ==> r.value.message[..|NoDirectionsPrefix|] == NoDirectionsPrefix
    ensures r.Some? ==> r.value.message[|NoDirectionsPrefix|..] == status
  {
    if status != "OK" then Some(DirectionsServiceException(NoDirectionsPrefix + status)) else None
  }

  /** The box `Directions._calc_bounds` computes: plain min and max of each column. */
  function RouteBox(points: seq<LatLon>): Box
    requires |points| > 0
  {
    Box(LatLon(MinOf(Latitudes(points)), MinOf(Longitudes(points))),
        LatLon(MaxOf(Latitudes(points)), MaxOf(Longitudes(points))))
  }

  /** Every point lies inside RouteBox, and each of its four corner components is attained by a point. */
  lemma RouteBoxIsTight(points: seq<LatLon>)
    requires |points| > 0
    ensures forall i :: 0 <= i < |points| ==> Contains(RouteBox(points), points[i])
    ensures exists i :: 0 <= i < |points| && points[i].lat == RouteBox(points).lower.lat
    ensures exists i :: 0 <= i < |points| && points[i].lon == RouteBox(points).lower.lon
    ensures exists i :: 0 <= i < |points| && points[i].lat == RouteBox(points).upper.lat
    ensures exists i :: 0 <= i < |points| && points[i].lon == RouteBox(points).upper.lon
  {
    var b := RouteBox(points);
    var lats, lons := Latitudes(points), Longitudes(points);
    forall i | 0 <= i < |points| ensures Contains(b, points[i]) {
      assert lats[i] == points[i].lat && lons[i] == points[i].lon;
    }
    var i0 :| 0 <= i0 < |lats| && lats[i0] == b.lower.lat;
    var i1 :| 0 <= i1 < |lons| && lons[i1] == b.lower.lon;
    var i2 :| 0 <= i2 < |lats| && lats[i2] == b.upper.lat;
    var i3 :| 0 <= i3 < |lons| && lons[i3] == b.upper.lon;
  }

  /** The Directions layer: a route through at least two points. */
  class Directions {
    var data: seq<LatLon>
    var dataBounds: Option<Box>
    var layerStatus: string

    ghost predicate Valid()
      reads this
    {
      (data == [] && dataBounds == None) || (|data| >= 2 && dataBounds == Some(RouteBox(data)))
    }

    constructor ()
      ensures Valid() && data == [] && dataBounds == None && layerStatus == ""
    {
      data := [];
      dataBounds := None;
      layerStatus := "";
    }

    /** `_calc_bounds`: the observer of `data`. */
    method CalcBounds()
      requires |data| > 0
      modifies this`dataBounds
      ensures dataBounds == Some(RouteBox(data))
    {
      var minLatitude := MinOf(Latitudes(data));
      var minLongitude := MinOf(Longitudes(data));
      var maxLatitude := MaxOf(Latitudes(data));
      var maxLongitude := MaxOf(Longitudes(data));
      dataBounds := Some(Box(LatLon(minLatitude, minLongitude), LatLon(maxLatitude, maxLongitude)));
    }

    /**
     * Assigning `data`: the list trait's length check (at least two points)
     * runs first, then the point validator; a rejected assignment changes nothing.
     */
    method SetData(points: seq<LatLon>) returns (err: Option<DataError<LatLon>>)
      requires Valid()
      modifies this`data, this`dataBounds
      ensures Valid()
      ensures err.None? <==> |points| >= 2 && AllValid(points)
      ensures |points| < 2 ==> err == Some(LengthError(2, |points|))
      ensures |points| >= 2 && err.Some? ==> err == Some(InvalidPointException(points[FirstInvalid(points)]))
      ensures err.Some? ==> data == old(data) && dataBounds == old(dataBounds)
      ensures err.None? ==> data == points && dataBounds == Some(RouteBox(points))
    {
      if |points| < 2 {
        return Some(LengthError(2, |points|));
      }
      var bad := ValidatePoints(points);
      if bad.Some? {
        return Some(InvalidPointException(bad.value));
      }
      var changed := points != data;
      data := points;
      if changed {
        CalcBounds();
      }
      return None;
    }

    /** Assigning `layer_status`: stored, and the observer raises when the value changed to anything but "OK". */
    method SetLayerStatus(status: string) returns (raised: Option<DirectionsServiceException>)
      modifies this`layerStatus
      ensures layerStatus == status
      ensures raised == if status != old(layerStatus) then StatusError(status) else None
    {
      var changed := status != layerStatus;
      layerStatus := status;
      raised := if changed then StatusError(status) else None;
    }
  }

  /* ---------------- Map ---------------- */

  /** What the merge reads of one layer: `has_bounds` and, when set, `data_bounds` (None for an empty list). */
  datatype LayerView = Unbounded | Bounded(dataBounds: Option<Box>)

  /** A layer added to a map; layers of other kinds are represented by what the merge reads of them. */
  datatype Layer =
    | HeatmapLayer(heatmap: Heatmap)
    | WeightedHeatmapLayer(weighted: WeightedHeatmap)
    | DirectionsLayer(directions: Directions)
    | OtherLayer(view: LayerView)

  /** The object a layer's view is read from. */
  function Footprint(l: Layer): set<object>
  {
    match l
    case HeatmapLayer(h) => {h}
    case WeightedHeatmapLayer(w) => {w}
    case DirectionsLayer(d) => {d}
    case OtherLayer(_) => {}
  }

  function Footprints(ls: seq<Layer>): set<object>
  {
    if ls == [] then {} else Footprint(ls[0]) + Footprints(ls[1..])
  }

  function View(l: Layer): LayerView
    reads Footprint(l)
  {
    match l
    case HeatmapLayer(h) => Bounded(h.dataBounds)
    case WeightedHeatmapLayer(w) => Bounded(w.dataBounds)
    case DirectionsLayer(d) => Bounded(d.dataBounds)
    case OtherLayer(v) => v
  }

  /** The current view of every layer, in order. */
  function Views(ls: seq<Layer>): (r: seq<LayerView>)
    reads Footprints(ls)
    ensures |r| == |ls|
  {
    if ls == [] then [] else [View(ls[0])] + Views(ls[1..])
  }

  /** `boundsList` holds the `data_bounds` of every bounded layer, and nothing else. */
  predicate IsBoundsListOf(views: seq<LayerView>, boundsList: seq<Option<Box>>)
  {
    && (forall i :: 0 <= i < |views| && views[i].Bounded? ==> views[i].dataBounds in boundsList)
    && (forall b :: b in boundsList ==> exists i :: 0 <= i < |views| && views[i] == Bounded(b))
  }

  /** `bounds_list`: the `data_bounds` of the layers that have bounds. */
  function BoundsList(views: seq<LayerView>): (r: seq<Option<Box>>)
    ensures IsBoundsListOf(views, r)
  {
    if views == [] then []
    else (if views[0].Bounded? then [views[0].dataBounds] else []) + BoundsList(views[1..])
  }

  /** The outcome of `Map._calc_bounds`. */
  datatype MergeOutcome = KeepBounds | NewBounds(box: Box) | IndexError

  function Lowers(boxes: seq<Box>): (r: seq<LatLon>)
    ensures |r| == |boxes| && forall i :: 0 <= i < |boxes| ==> r[i] == boxes[i].lower
  {
    seq(|boxes|, i requires 0 <= i < |boxes| => boxes[i].lower)
  }

  function Uppers(boxes: seq<Box>): (r: seq<LatLon>)
    ensures |r| == |boxes| && forall i :: 0 <= i < |boxes| ==> r[i] == boxes[i].upper
  {
    seq(|boxes|, i requires 0 <= i < |boxes| => boxes[i].upper)
  }

  /** `boxes` are the entries of `boundsList`, in order, none of them empty. */
  predicate UnwrapsTo(boundsList: seq<Option<Box>>, boxes: seq<Box>)
  {
    |boxes| == |boundsList| && forall k :: 0 <= k < |boxes| ==> boundsList[k] == Some(boxes[k])
  }

  /** The boxes of a bounds list none of whose entries is empty. */
  function Unwrapped(boundsList: seq<Option<Box>>): (r: seq<Box>)
    requires None !in boundsList
    ensures UnwrapsTo(boundsList, r)
  {
    if boundsList == [] then [] else [boundsList[0].value] + Unwrapped(boundsList[1..])
  }

  /** The four generator expressions of `Map._calc_bounds` as written: every corner component is a minimum. */
  function MergeBoxes(boxes: seq<Box>): Box
    requires |boxes| > 0
  {
    Box(LatLon(MinOf(Latitudes(Lowers(boxes))), MinOf(Longitudes(Lowers(boxes)))),
        LatLon(MinOf(Latitudes(Uppers(boxes))), MinOf(Longitudes(Uppers(boxes)))))
  }

  /**
   * `Map._calc_bounds` as written: nothing when no layer has bounds, an
   * IndexError when a bounded layer's `data_bounds` is still the empty list,
   * and otherwise MergeBoxes of the layers' boxes.
   */
  function MergeBounds(views: seq<LayerView>): MergeOutcome
  {
    var boundsList := BoundsList(views);
    if boundsList == [] then KeepBounds
    else if None in boundsList then IndexError
    else NewBounds(MergeBoxes(Unwrapped(boundsList)))
  }

  /** The map's bounds stay as they were exactly when no layer has bounds. */
  lemma MergeKeepsBoundsIffNoBoundedLayer(views: seq<LayerView>)
    ensures MergeBounds(views) == KeepBounds <==> forall i :: 0 <= i < |views| ==> views[i].Unbounded?
  {
    var boundsList := BoundsList(views);
    if boundsList != [] {
      assert boundsList[0] in boundsList;
    }
  }

  /** The merge raises IndexError exactly when some bounded layer has no bounds yet. */
  lemma MergeIndexErrorIff(views: seq<LayerView>)
    ensures MergeBounds(views) == IndexError <==> exists i :: 0 <= i < |views| && views[i] == Bounded(None)
  {
    if exists i :: 0 <= i < |views| && views[i] == Bounded(None) {
      var i :| 0 <= i < |views| && views[i] == Bounded(None);
      assert None in BoundsList(views);
    }
  }

  /** The merged lower corner is below every box's lower corner and its components are attained. */
  lemma MergeBoxesLowerCorner(boxes: seq<Box>)
    requires |boxes| > 0
    ensures forall k :: 0 <= k < |boxes| ==>
      MergeBoxes(boxes).lower.lat <= boxes[k].lower.lat && MergeBoxes(boxes).lower.lon <= boxes[k].lower.lon
    ensures exists k :: 0 <= k < |boxes| && boxes[k].lower.lat == MergeBoxes(boxes).lower.lat
    ensures exists k :: 0 <= k < |boxes| && boxes[k].lower.lon == MergeBoxes(boxes).lower.lon
  {
    var lats, lons := Latitudes(Lowers(boxes)), Longitudes(Lowers(boxes));
    forall k | 0 <= k < |boxes|
      ensures MergeBoxes(boxes).lower.lat <= boxes[k].lower.lat && MergeBoxes(boxes).lower.lon <= boxes[k].lower.lon
    {
      assert lats[k] == boxes[k].lower.lat && lons[k] == boxes[k].lower.lon;
    }
    var k0 :| 0 <= k0 < |lats| && lats[k0] == MergeBoxes(boxes).lower.lat;
    var k1 :| 0 <= k1 < |lons| && lons[k1] == MergeBoxes(boxes).lower.lon;
  }

  /** As coded, the merged upper corner is below every box's upper corner, and its components are attained. */
  lemma MergeBoxesUpperCorner(boxes: seq<Box>)
    requires |boxes| > 0
    ensures forall k :: 0 <= k < |boxes| ==>
      MergeBoxes(boxes).upper.lat <= boxes[k].upper.lat && MergeBoxes(boxes).upper.lon <= boxes[k].upper.lon
    ensures exists k :: 0 <= k < |boxes| && boxes[k].upper.lat == MergeBoxes(boxes).upper.lat
    ensures exists k :: 0 <= k < |boxes| && boxes[k].upper.lon == MergeBoxes(boxes).upper.lon
  {
    var lats, lons := Latitudes(Uppers(boxes)), Longitudes(Uppers(boxes));
    forall k | 0 <= k < |boxes|
      ensures MergeBoxes(boxes).upper.lat <= boxes[k].upper.lat && MergeBoxes(boxes).upper.lon <= boxes[k].upper.lon
    {
      assert lats[k] == boxes[k].upper.lat && lons[k] == boxes[k].upper.lon;
    }
    var k0 :| 0 <= k0 < |lats| && lats[k0] == MergeBoxes(boxes).upper.lat;
    var k1 :| 0 <= k1 < |lons| && lons[k1] == MergeBoxes(boxes).upper.lon;
  }

  /** Every bounded layer's box is among the merged boxes. */
  lemma LayerBoxesAreMerged(views: seq<LayerView>, boundsList: seq<Option<Box>>, boxes: seq<Box>)
    requires IsBoundsListOf(views, boundsList) && UnwrapsTo(boundsList, boxes)
    ensures forall i :: 0 <= i < |views| && views[i].Bounded? ==>
      exists k :: 0 <= k < |boxes| && views[i] == Bounded(Some(boxes[k]))
  {
    forall i | 0 <= i < |views| && views[i].Bounded?
      ensures exists k :: 0 <= k < |boxes| && views[i] == Bounded(Some(boxes[k]))
    {
      assert views[i].dataBounds in boundsList;
      var k :| 0 <= k < |boundsList| && boundsList[k] == views[i].dataBounds;
      assert views[i] == Bounded(Some(boxes[k]));
    }
  }

  /** Every merged box is some bounded layer's box. */
  lemma MergedBoxesAreLayerBoxes(views: seq<LayerView>, boundsList: seq<Option<Box>>, boxes: seq<Box>)
    requires IsBoundsListOf(views, boundsList) && UnwrapsTo(boundsList, boxes)
    ensures forall k :: 0 <= k < |boxes| ==> Bounded(Some(boxes[k])) in views
  {
    forall k | 0 <= k < |boxes|
      ensures Bounded(Some(boxes[k])) in views
    {
      assert boundsList[k] in boundsList;
    }
  }

  /** A bound on every layer box's lower corner, attained by some box, is one on every bounded layer's. */
  lemma LowerCornerOfLayers(views: seq<LayerView>, boundsList: seq<Option<Box>>, boxes: seq<Box>, b: Box)
    requires IsBoundsListOf(views, boundsList) && UnwrapsTo(boundsList, boxes)
    requires forall k :: 0 <= k < |boxes| ==> b.lower.lat <= boxes[k].lower.lat && b.lower.lon <= boxes[k].lower.lon
    requires exists k :: 0 <= k < |boxes| && boxes[k].lower.lat == b.lower.lat
    requires exists k :: 0 <= k < |boxes| && boxes[k].lower.lon == b.lower.lon
    ensures forall i :: 0 <= i < |views| && views[i].Bounded? ==>
      views[i].dataBounds.Some? &&
      b.lower.lat <= views[i].dataBounds.value.lower.lat && b.lower.lon <= views[i].dataBounds.value.lower.lon
    ensures exists i :: 0 <= i < |views| && views[i].Bounded? && views[i].dataBounds.Some? && views[i].dataBounds.value.lower.lat == b.lower.lat
    ensures exists i :: 0 <= i < |views| && views[i].Bounded? && views[i].dataBounds.Some? && views[i].dataBounds.value.lower.lon == b.lower.lon
  {
    LayerBoxesAreMerged(views, boundsList, boxes);
    MergedBoxesAreLayerBoxes(views, boundsList, boxes);
    var k0 :| 0 <= k0 < |boxes| && boxes[k0].lower.lat == b.lower.lat;
    var i0 :| 0 <= i0 < |views| && views[i0] == Bounded(Some(boxes[k0]));
    var k1 :| 0 <= k1 < |boxes| && boxes[k1].lower.lon == b.lower.lon;
    var i1 :| 0 <= i1 < |views| && views[i1] == Bounded(Some(boxes[k1]));
  }

  /** With a bounded layer, the map's lower corner is the componentwise minimum of the layers' lower corners. */
  lemma MergedLowerCornerIsMinimum(views: seq<LayerView>, b: Box)
    requires MergeBounds(views) == NewBounds(b)
    ensures forall i :: 0 <= i < |views| && views[i].Bounded? ==>
      views[i].dataBounds.Some? &&
      b.lower.lat <= views[i].dataBounds.value.lower.lat && b.lower.lon <= views[i].dataBounds.value.lower.lon
    ensures exists i :: 0 <= i < |views| && views[i].Bounded? && views[i].dataBounds.Some? && views[i].dataBounds.value.lower.lat == b.lower.lat
    ensures exists i :: 0 <= i < |views| && views[i].Bounded? && views[i].dataBounds.Some? && views[i].dataBounds.value.lower.lon == b.lower.lon
  {
    var boundsList := BoundsList(views);
    var boxes := Unwrapped(boundsList);
    MergeBoxesLowerCorner(boxes);
    LowerCornerOfLayers(views, boundsList, boxes, b);
  }

  /** A bound on every layer box's upper corner, attained by some box, is one on every bounded layer's. */
  lemma UpperCornerOfLayers(views: seq<LayerView>, boundsList: seq<Option<Box>>, boxes: seq<Box>, b: Box)
    requires IsBoundsListOf(views, boundsList) && UnwrapsTo(boundsList, boxes)
    requires forall k :: 0 <= k < |boxes| ==> b.upper.lat <= boxes[k].upper.lat && b.upper.lon <= boxes[k].upper.lon
    requires exists k :: 0 <= k < |boxes| && boxes[k].upper.lat == b.upper.lat
    requires exists k :: 0 <= k < |boxes| && boxes[k].upper.lon == b.upper.lon
    ensures forall i :: 0 <= i < |views| && views[i].Bounded? ==>
      views[i].dataBounds.Some? &&
      b.upper.lat <= views[i].dataBounds.value.upper.lat && b.upper.lon <= views[i].dataBounds.value.upper.lon
    ensures exists i :: 0 <= i < |views| && views[i].Bounded? && views[i].dataBounds.Some? && views[i].dataBounds.value.upper.lat == b.upper.lat
    ensures exists i :: 0 <= i < |views| && views[i].Bounded? && views[i].dataBounds.Some? && views[i].dataBounds.value.upper.lon == b.upper.lon
  {
    LayerBoxesAreMerged(views, boundsList, boxes);
    MergedBoxesAreLayerBoxes(views, boundsList, boxes);
    var k0 :| 0 <= k0 < |boxes| && boxes[k0].upper.lat == b.upper.lat;
    var i0 :| 0 <= i0 < |views| && views[i0] == Bounded(Some(boxes[k0]));
    var k1 :| 0 <= k1 < |boxes| && boxes[k1].upper.lon == b.upper.lon;
    var i1 :| 0 <= i1 < |views| && views[i1] == Bounded(Some(boxes[k1]));
  }

  /** As coded, with a bounded layer the map's upper corner is the componentwise MINIMUM of the layers' upper corners. */
  lemma MergedUpperCornerIsMinimum(views: seq<LayerView>, b: Box)
    requires MergeBounds(views) == NewBounds(b)
    ensures forall i :: 0 <= i < |views| && views[i].Bounded? ==>
      views[i].dataBounds.Some? &&
      b.upper.lat <= views[i].dataBounds.value.upper.lat && b.upper.lon <= views[i].dataBounds.value.upper.lon
    ensures exists i :: 0 <= i < |views| && views[i].Bounded? && views[i].dataBounds.Some? && views[i].dataBounds.value.upper.lat == b.upper.lat
    ensures exists i :: 0 <= i < |views| && views[i].Bounded? && views[i].dataBounds.Some? && views[i].dataBounds.value.upper.lon == b.upper.lon
  {
    var boundsList := BoundsList(views);
    var boxes := Unwrapped(boundsList);
    MergeBoxesUpperCorner(boxes);
    UpperCornerOfLayers(views, boundsList, boxes, b);
  }

  /** `outer` encloses `inner`: its lower corner is below and its upper corner above, componentwise. */
  predicate Encloses(outer: Box, inner: Box)
  {
    outer.lower.lat <= inner.lower.lat && outer.lower.lon <= inner.lower.lon &&
    inner.upper.lat <= outer.upper.lat && inner.upper.lon <= outer.upper.lon
  }

  /**
   * Because the upper corner takes a minimum, the merged box can leave out a
   * layer's box entirely: two layers with boxes ((0, 0), (1, 1)) and
   * ((2, 2), (3, 3)) merge to ((0, 0), (1, 1)).
   */
  lemma MergedBoxMissesLayer()
    ensures var first := Box(LatLon(0.0, 0.0), LatLon(1.0, 1.0));
            var second := Box(LatLon(2.0, 2.0), LatLon(3.0, 3.0));
            MergeBounds([Bounded(Some(first)), Bounded(Some(second))]) == NewBounds(first) &&
            !Encloses(first, second) && !Contains(first, second.upper)
  {
    var first := Box(LatLon(0.0, 0.0), LatLon(1.0, 1.0));
    var second := Box(LatLon(2.0, 2.0), LatLon(3.0, 3.0));
    var views := [Bounded(Some(first)), Bounded(Some(second))];
    assert BoundsList(views[1..][1..]) == [];
    assert BoundsList(views) == [Some(first), Some(second)];
    var boxes := Unwrapped(BoundsList(views));
    assert boxes == [first, second];
    assert Latitudes(Lowers(boxes)) == [0.0, 2.0];
    assert Longitudes(Lowers(boxes)) == [0.0, 2.0];
    assert Latitudes(Uppers(boxes)) == [1.0, 3.0];
    assert Longitudes(Uppers(boxes)) == [1.0, 3.0];
  }

  /** The merge of boxes as evidently intended: the upper corner takes the maximum. */
  function MergeBoxesIntended(boxes: seq<Box>): Box
    requires |boxes| > 0
  {
    Box(LatLon(MinOf(Latitudes(Lowers(boxes))), MinOf(Longitudes(Lowers(boxes)))),
        LatLon(MaxOf(Latitudes(Uppers(boxes))), MaxOf(Longitudes(Uppers(boxes)))))
  }

  /** `Map._calc_bounds` as evidently intended. */
  function MergeBoundsIntended(views: seq<LayerView>): MergeOutcome
  {
    var boundsList := BoundsList(views);
    if boundsList == [] then KeepBounds
    else if None in boundsList then IndexError
    else NewBounds(MergeBoxesIntended(Unwrapped(boundsList)))
  }

  /** The intended merge of boxes encloses every one of them. */
  lemma MergeBoxesIntendedEncloses(boxes: seq<Box>)
    requires |boxes| > 0
    ensures forall k :: 0 <= k < |boxes| ==> Encloses(MergeBoxesIntended(boxes), boxes[k])
  {
    forall k | 0 <= k < |boxes| ensures Encloses(MergeBoxesIntended(boxes), boxes[k]) {
      assert Latitudes(Lowers(boxes))[k] == boxes[k].lower.lat && Longitudes(Lowers(boxes))[k] == boxes[k].lower.lon;
      assert Latitudes(Uppers(boxes))[k] == boxes[k].upper.lat && Longitudes(Uppers(boxes))[k] == boxes[k].upper.lon;
    }
  }

  /** The intended merge encloses the box of every bounded layer. */
  lemma IntendedMergeEnclosesLayers(views: seq<LayerView>, b: Box)
    requires MergeBoundsIntended(views) == NewBounds(b)
    ensures forall i :: 0 <= i < |views| && views[i].Bounded? ==>
      views[i].dataBounds.Some? && Encloses(b, views[i].dataBounds.value)
  {
    var boundsList := BoundsList(views);
    var boxes := Unwrapped(boundsList);
    LayerBoxesAreMerged(views, boundsList, boxes);
    MergedBoxesAreLayerBoxes(views, boundsList, boxes);
    MergeBoxesIntendedEncloses(boxes);
  }

  /** The map's `data_bounds` after the merge: the merged box, or the old bounds when the merge stored nothing. */
  function BoundsAfter(outcome: MergeOutcome, current: Box): Box
  {
    if outcome.NewBounds? then outcome.box else current
  }

  /** The map; its `data_bounds` starts at DEFAULT_BOUNDS. */
  class Map {
    var layers: seq<Layer>
    var dataBounds: Box
    var configuration: Configuration

    /** A new map reads the module's default configuration at construction. */
    constructor (globals: MapsGlobals)
      ensures layers == [] && dataBounds == DefaultBounds
      ensures configuration == globals.defaultConfiguration
    {
      layers := [];
      dataBounds := DefaultBounds;
      configuration := globals.defaultConfiguration;
    }

    /**
     * `add_layer`: the layer tuple grows by the new layer, then the observer
     * merges the current bounds of every layer. When the merge raises, the new
     * layer tuple has already been stored and the bounds are left alone.
     */
    method AddLayer(layer: Layer) returns (raised: bool)
      modifies this
      ensures layers == old(layers) + [layer]
      ensures configuration == old(configuration)
      ensures var outcome := MergeBounds(old(Views(layers + [layer])));
        raised == outcome.IndexError? && dataBounds == BoundsAfter(outcome, old(dataBounds))
    {
      var newLayers := layers + [layer];
      var outcome := MergeBounds(Views(newLayers));
      layers, dataBounds := newLayers, BoundsAfter(outcome, dataBounds);
      raised := outcome.IndexError?;
    }
  }

  /** After `configure(api_key)`, a map created next starts with exactly `{"api_key": api_key}`. */
  method ConfigureThenCreateMap(globals: MapsGlobals, apiKey: Option<string>) returns (m: Map)
    modifies globals
    ensures fresh(m) && m.configuration == Configuration(apiKey)
    ensures m.layers == [] && m.dataBounds == DefaultBounds
  {
    globals.Configure(apiKey);
    m := new Map(globals);
  }
}

# gmaps layers: validated point data, derived bounds, and the map's bounds merge

This project models the data core of the `gmaps` notebook widgets in Dafny:

- **Heatmap layers** (`gmaps/heatmap.py`). `Heatmap` holds (latitude, longitude) pairs. `WeightedHeatmap` holds (latitude, longitude, weight) triples. Assigning `data` runs the validator over every row, and the first invalid row raises `InvalidPointException`. A rejected assignment leaves `data` and `data_bounds` unchanged. An accepted one stores the rows, and the `data` observer then recomputes `data_bounds` through `set_bounds`. The style options of `_HeatmapOptionsMixin` have defaults, and opacity and gradient have guarded setters.
- **Directions layer** (`gmaps/maps.py`). `data` must hold at least two points, each valid. The bounds are the plain minimum and maximum of each column. Setting `layer_status` to anything but `"OK"` raises `DirectionsServiceException("No directions returned: " + status)`.
- **Map** (`gmaps/maps.py`). `add_layer` appends to the layer tuple. The `layers` observer then merges the `data_bounds` of every layer that has bounds. When no layer has bounds, the map keeps `DEFAULT_BOUNDS`.
- **Configuration** (`gmaps/maps.py`). `configure(api_key)` replaces the module's default configuration, and a map created afterwards starts with it.

Modules: `Wrappers` (Option), `Geo` (points, boxes, the validator loop, min and max), `Heatmaps`, `Maps`.

Design choices:

- **Classes.** Each layer is a class with `data` and `dataBounds` fields. Its `Valid()` invariant says `dataBounds` is the box of `data`, or still empty while `data` is the initial empty list. `SetData` either returns the error and changes nothing, or stores the rows and re-establishes `Valid()`.
- **Validators.** The validators are loops (`ValidatePoints`, `ValidateWeightedRows`). Each is proved against `FirstInvalid`, the index of the first invalid point.
- **Change notification.** The model follows the widget framework's attribute semantics. A validator runs before the value is stored. An observer fires only when the new value differs from the old one. Re-assigning equal data therefore keeps the old bounds, and re-setting the same `layer_status` raises nothing.
- **List length.** For `Directions`, the list's own length check (at least two points) runs before the point validator.
- **An observer that raises.** When the `layers` observer raises, the new layer tuple is already stored. If a bounded layer's `data_bounds` is still the empty list, the merge indexes into it and raises `IndexError`. `Map.AddLayer` reports that case and leaves the map's bounds alone.
- **Where the docstrings and the code differ, the model follows the code.**
  - `WeightedHeatmap` does not reject negative weights: the docstring says weights must be non-negative (heatmap.py:159), but the validator has no weight check (heatmap.py:178).
  - `max_intensity` accepts any number: the docstring says it is strictly positive (heatmap.py:15), but the trait declares no bound (heatmap.py:48).

## Model

| member | source | states |
|---|---|---|
| `Geo.FirstInvalid` | gmaps/heatmap.py:125-128 | the index where the validator loop stops: every earlier point is valid, and the point at the index (if any) is invalid |
| `Geo.ValidatePoints` | gmaps/heatmap.py:123-129 | the loop accepts iff every point satisfies `is_valid_point`; otherwise it reports the first invalid point |
| `Geo.MinOf` | gmaps/maps.py:143-144 | `min` over a non-empty column is an element of it and no greater than any element |
| `Geo.MaxOf` | gmaps/maps.py:145-146 | `max` over a non-empty column is an element of it and no less than any element |
| `Heatmaps.HeatmapOptions.constructor` | gmaps/heatmap.py:48-58 | defaults: `max_intensity`, `point_radius` and `gradient` None, `dissipating` true, `opacity` 0.6; the declared bounds hold |
| `Heatmaps.HeatmapOptions.SetMaxIntensity` | gmaps/heatmap.py:48 | any number or None is stored; nothing else changes |
| `Heatmaps.HeatmapOptions.SetPointRadius` | gmaps/heatmap.py:49 | any number or None is stored; nothing else changes |
| `Heatmaps.HeatmapOptions.SetDissipating` | gmaps/heatmap.py:50 | the flag is stored; nothing else changes |
| `Heatmaps.HeatmapOptions.SetOpacity` | gmaps/heatmap.py:51 | accepted iff in [0, 1]; a rejected value raises a trait error and the old opacity is kept |
| `Heatmaps.HeatmapOptions.SetGradient` | gmaps/heatmap.py:52-54 | accepted iff None or at least one colour; a rejected value raises a trait error and the old gradient is kept |
| `Heatmaps.Heatmap.constructor` | gmaps/heatmap.py:120-121 | a new heatmap has empty `data` and `data_bounds` and fresh options at their defaults |
| `Heatmaps.Heatmap.SetBounds` | gmaps/heatmap.py:60-74 | `data_bounds` becomes `[(lat.min, lon.min), (lat.max, lon.max)]` of the two bounds helpers applied to columns 0 and 1 in order; only `data_bounds` changes |
| `Heatmaps.Heatmap.SetData` | gmaps/heatmap.py:123-134 | succeeds iff every point is valid; a failure names the first invalid point and changes nothing; a success stores the data, recomputes the bounds when the value changed, and keeps the bounds consistent with the data |
| `Heatmaps.ValidateWeightedRows` | gmaps/heatmap.py:172-179 | accepts iff every row's (lat, lon) is valid, whatever its weight; otherwise it reports the first such row |
| `Heatmaps.WeightedHeatmap.constructor` | gmaps/heatmap.py:169-170 | a new weighted heatmap has empty `data` and `data_bounds` and fresh options at their defaults |
| `Heatmaps.WeightedHeatmap.SetBounds` | gmaps/heatmap.py:60-74 | `data_bounds` comes from columns 0 and 1 of the rows only; only `data_bounds` changes |
| `Heatmaps.WeightedHeatmap.SetData` | gmaps/heatmap.py:172-184 | succeeds iff every row's (lat, lon) is valid; a failure names the whole first bad row and changes nothing; a success stores the rows and keeps the bounds consistent with them |
| `Heatmaps.WeightsNeverAffectBounds` | gmaps/heatmap.py:60-64 | two row lists with the same (lat, lon) columns give the same bounds |
| `Heatmaps.WeightsNeverAffectValidation` | gmaps/heatmap.py:174-177 | two row lists with the same (lat, lon) columns are rejected at the same row, or both accepted |
| `Heatmaps.NegativeWeightAccepted` | gmaps/heatmap.py:172-179 | a row with a negative weight and a valid location passes validation |
| `Maps.MapsGlobals.constructor` | gmaps/maps.py:12 | the initial default configuration is `{"api_key": None}` |
| `Maps.MapsGlobals.Configure` | gmaps/maps.py:15-24 | after `configure(k)` the default configuration is exactly `{"api_key": k}` |
| `Maps.StatusError` | gmaps/maps.py:152-156 | a status raises iff it is not "OK", and the message is "No directions returned: " followed by the status |
| `Maps.RouteBoxIsTight` | gmaps/maps.py:141-150 | every route point lies inside the Directions box, and each of its four corner components is attained by some point |
| `Maps.Directions.constructor` | gmaps/maps.py:127-130 | a new Directions layer has empty `data`, empty `data_bounds` and an empty status |
| `Maps.Directions.CalcBounds` | gmaps/maps.py:140-150 | `data_bounds` becomes the min/max box of the current data |
| `Maps.Directions.SetData` | gmaps/maps.py:127-150 | succeeds iff at least two points and all valid; fewer than two is a length error checked first; otherwise the first invalid point is named; a failure changes nothing; a success stores the data with its min/max box |
| `Maps.Directions.SetLayerStatus` | gmaps/maps.py:152-156 | the status is stored; when it changed to anything but "OK" the service exception is raised |
| `Maps.BoundsList` | gmaps/maps.py:70-72 | the list holds the `data_bounds` of every layer with bounds, and nothing else |
| `Maps.MergeKeepsBoundsIffNoBoundedLayer` | gmaps/maps.py:70-73 | the merge leaves the map's bounds alone exactly when no layer has bounds |
| `Maps.MergeIndexErrorIff` | gmaps/maps.py:70-75 | the merge raises IndexError exactly when some layer with bounds still has an empty `data_bounds` |
| `Maps.MergeBoxesLowerCorner` | gmaps/maps.py:74-75 | the merged lower corner is componentwise below every box's lower corner, and each component is attained |
| `Maps.MergeBoxesUpperCorner` | gmaps/maps.py:76-77 | as coded, the merged upper corner is componentwise below every box's upper corner, and each component is attained |
| `Maps.LayerBoxesAreMerged` | gmaps/maps.py:70-72 | every bounded layer's box is among the merged boxes |
| `Maps.MergedBoxesAreLayerBoxes` | gmaps/maps.py:70-72 | every merged box belongs to some bounded layer |
| `Maps.MergedLowerCornerIsMinimum` | gmaps/maps.py:74-75 | with a bounded layer, the map's lower corner is the componentwise minimum of the layers' lower corners |
| `Maps.MergedUpperCornerIsMinimum` | gmaps/maps.py:76-77 | with a bounded layer, the map's upper corner is, as coded, the componentwise minimum of the layers' upper corners |
| `Maps.MergedBoxMissesLayer` | gmaps/maps.py:76-77 | two layers with boxes ((0,0),(1,1)) and ((2,2),(3,3)) merge to ((0,0),(1,1)), which does not enclose the second |
| `Maps.MergeBoxesIntendedEncloses` | gmaps/maps.py:74-77 | with the maximum for the upper corner, the merged box encloses every box |
| `Maps.IntendedMergeEnclosesLayers` | gmaps/maps.py:70-81 | with the maximum for the upper corner, the map's box encloses every bounded layer's box |
| `Maps.Map.constructor` | gmaps/maps.py:27-58 | a new map has no layers, `data_bounds == DEFAULT_BOUNDS == [(46.2, 6.1), (47.2, 7.1)]`, and the module's current default configuration |
| `Maps.Map.AddLayer` | gmaps/maps.py:60-81 | the layers become the old layers plus the new one, last; the bounds become the merge of all layers' bounds, stay as they were when no layer has bounds, and stay as they were when the merge raises IndexError |
| `Maps.ConfigureThenCreateMap` | gmaps/maps.py:15-33 | a map created after `configure(k)` starts with exactly `{"api_key": k}` |

## Findings

| source | as written | input that shows it | evidently intended | confidence | as-written member | corrected member |
|---|---|---|---|---|---|---|
| gmaps/maps.py:76-77 | `max_latitude` and `max_longitude` are computed with `min` over the layers' upper corners | two layers with `data_bounds` `[(0, 0), (1, 1)]` and `[(2, 2), (3, 3)]`: the map's bounds become `[(0, 0), (1, 1)]`, leaving out the second layer | `max` over the upper corners, so that the map's box encloses every layer's box | high; not executed | `Maps.MergedBoxMissesLayer` | `Maps.IntendedMergeEnclosesLayers` |

`Map.AddLayer` uses the merge as written (`Maps.MergeBounds`), because that is what the program does. The corrected merge (`Maps.MergeBoundsIntended`) sits beside it with its enclosure property proved.

## Left out

- `gmaps.bounds.latitude_bounds` and `longitude_bounds` are not part of this model, including their antimeridian handling. Each heatmap carries them as two function values (`Geo.BoundsHelpers`). Whatever they do with an empty list is whatever those functions return.
- `gmaps.geotraitlets` is not part of this model. `is_valid_point` is taken as the documented ranges (latitude in [-90, 90], longitude in [-180, 180]). Rows that are not pairs, non-numeric values and NaN cannot be represented, because points are typed records of reals.
- The `ColorAlpha` check on each gradient colour is not modelled. Only the gradient's "None or at least one colour" rule is.
- Floating point is modelled as reals, with no rounding and no NaN.
- Widget machinery is not modelled: `.tag(sync=True)`, serialization, the `_view_name`/`_model_name`/`_view_module` strings, the default `Layout`, and `DEFAULT_CENTER`, which the core does not use.
- Constructor keyword arguments are not modelled. A layer built with `data=...` is modelled as construction followed by `SetData`. A map built with `layers=...` is left out.
- Assigning `Map.layers` directly, other than through `add_layer`, is not modelled.
- The Directions list's upper length bound (the platform's maximum size) is not modelled.
- A layer object without a `has_bounds` attribute would raise `AttributeError` in the merge. The model's `OtherLayer` stands for layers outside this core that do declare `has_bounds`.
- Aliasing of the configuration dictionary is not modelled. In the program, a new map shares the global dictionary object. The model copies its value.
- `layer_status` comes from the browser front end and the Google Directions service, which are outside this core. The status is a parameter of `SetLayerStatus`.
- Maps.Directions.SetLayerStatus: raises only when the status changes to something other than "OK". This follows the observer semantics: re-setting an unchanged non-"OK" status notifies nothing and raises nothing.

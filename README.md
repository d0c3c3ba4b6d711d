# OMScrollableChart core in Dafny

This project models the numeric core of OMScrollableChart, a scrollable chart control. The core turns a series of `Float` samples into drawable points and answers point and index lookups on the result. It has three parts:

- **`DiscreteScaledPointsGenerator`** (module `ScaledPoints`). It caches the minimum and maximum behind a dirty flag. Setting the `minimum` or `maximum` override marks the cache dirty, and `updateRangeLimits` recomputes the cache only when it is dirty. `makePoints` maps each sample to a point: x is evenly spaced and y is inverted and inset.
- **Renders** (module `Render`). `DataRender` is a value record that binds a series, its points and the transform that produced them. It has the exact-match and nearest-point lookups and the extreme-x points. `BaseRender` is a mutable render holding one record and its layers. `RenderManager` keeps the ordered list of renders, grows it with `update`, and reads and writes the renders' points, samples and layers column by column.
- **Rule marks** (module `Rules`). These are the rounded values on the leading rule: evenly stepped from the generator's minimum to its maximum, rounded, and drawn through the generator.

`Float` and `CGFloat` are modelled as `real`. `CGPoint`, `CGSize` and `UIEdgeInsets` become the datatypes of module `Geometry`. Swift's `T?` becomes `Wrappers.Option`.

Decisions worth knowing:

- **Zero range.** When the range is 0, `1 / range` is infinite, so every scaled value is infinite or NaN. The source then replaces the scaled value with 0, which puts y at `height - bottom inset`: a flat line at the bottom. So the flat line lies at the bottom inset, not the top (`BottomLine`).
- **Fresh generator.** `BaseRender.makePoints` uses a new generator whose limits are never updated. Both limits are therefore 0, and its output is exactly that bottom line.
- **Distances.** They are squared Euclidean distances. The source only compares `distance` values to pick the nearest point, and the square root does not change which point is nearest.
- **`.mini`.** This helper comes from a library that is not part of this model. `Render.Mini` is written as a first-minimum scan, but its contract promises only "an index of a least element, none for empty input". Every lookup built on it uses only that promise.
- **`rulesMarks`.** `makeRulesPoints` draws the points of `rulesMarks`, which is declared outside the files modelled here. The model takes it to be `internalRulesMarks`. `RuleMarksNonDecreasing` shows the marks are already in non-decreasing order over a positive range, so a sorted view of them would be the same there. A negative range is different: see `MakeRulesPoints` under "Left out".
- **`numberOfRuleMarks`.** Its declaration is not part of this model. It is modelled as a floating value that `Int(...)` truncates toward zero (`Rules.Trunc`).
- **`Index.bad`.** Its raw value is declared outside the modelled files. It is modelled as `-1`. Only the fact that it lies outside every valid section matters.
- **One manager.** The source's getters and setters go through the shared manager instance `RenderManager.shared`, and the default renders are static singletons. The model has one explicit manager object with distinct renders, and its getters and setters act on that object.

## Model

| member | source | states |
|---|---|---|
| `Geometry.SquaredDistance` | RenderManager.swift:101-112 | the distance used for nearest-point search is non-negative and is 0 from a point to itself |
| `ScaledPoints.SeqMin` | OMScrollableChart/DiscreteScaledPointsGenerator.swift:56-62 | `vDSP_minv` on non-empty data: returns an element of the data that is at most every element |
| `ScaledPoints.SeqMax` | OMScrollableChart/DiscreteScaledPointsGenerator.swift:63-69 | `vDSP_maxv` on non-empty data: returns an element of the data that is at least every element |
| `ScaledPoints.Normalized` | OMScrollableChart/DiscreteScaledPointsGenerator.swift:80-89 | the scaled value `(v - min) * (1 / range)` times the range gives back `v - min`; with a zero range the non-finite result is coerced to 0 |
| `ScaledPoints.ScaledPoint` | OMScrollableChart/DiscreteScaledPointsGenerator.swift:86-89 | the point of one sample: the first sample sits at x = 0, a normalised value of 0 sits on the bottom line (height - bottom inset) and a normalised value of 1 on the top inset |
| `ScaledPoints.ScalePoints` | OMScrollableChart/DiscreteScaledPointsGenerator.swift:72-91 | `makePoints` returns exactly one point per sample, in input order; point i depends only on sample i, i and the count |
| `ScaledPoints.NormalizedBetween` | OMScrollableChart/DiscreteScaledPointsGenerator.swift:80-85 | with a positive range, a sample between the limits scales into [0, 1] |
| `ScaledPoints.NormalizedMonotone` | OMScrollableChart/DiscreteScaledPointsGenerator.swift:80-85 | with a positive range, scaling preserves the order of samples |
| `ScaledPoints.ScaledX` | OMScrollableChart/DiscreteScaledPointsGenerator.swift:86-88 | point i of n has x = width * i / n (hScale = 1, horizontal insets unused), which lies in [0, width) when the width is positive |
| `ScaledPoints.ScaledY` | OMScrollableChart/DiscreteScaledPointsGenerator.swift:74-89 | with a positive range and a height of at least both insets, a sample within the limits gets a y between the top inset and height - bottom inset, and the maximum gets exactly the top inset |
| `ScaledPoints.ScaledYMonotone` | OMScrollableChart/DiscreteScaledPointsGenerator.swift:74-89 | with a positive range, a larger sample never gets a larger y, whatever the two positions |
| `ScaledPoints.XLayout` | OMScrollableChart/DiscreteScaledPointsGenerator.swift:75-88 | the first x is 0 and x_i = width * i / n; for a positive width every x is below the width and x strictly increases |
| `ScaledPoints.YLayout` | OMScrollableChart/DiscreteScaledPointsGenerator.swift:74-89 | the y bounds of `ScaledY` and the ordering of `ScaledYMonotone` hold for every point of the series; with a non-zero range the maximum maps to the top inset |
| `ScaledPoints.BottomLine` | OMScrollableChart/DiscreteScaledPointsGenerator.swift:39-89 | a sample equal to the minimum maps to height - bottom inset; with a zero range (including both limits 0) every sample does, so the line lies on the bottom, not the top |
| `ScaledPoints.DiscreteScaledPointsGenerator.constructor` | OMScrollableChart/DiscreteScaledPointsGenerator.swift:37-50 | a new generator is dirty, has both limits 0, no overrides and insets (20, 0, 40, 0) |
| `ScaledPoints.DiscreteScaledPointsGenerator.SetMinimum` | OMScrollableChart/DiscreteScaledPointsGenerator.swift:41-45 | assigning `minimum` stores it and sets the dirty flag; the cached limits, the other override and the insets are unchanged |
| `ScaledPoints.DiscreteScaledPointsGenerator.SetMaximum` | OMScrollableChart/DiscreteScaledPointsGenerator.swift:46-50 | assigning `maximum` stores it and sets the dirty flag; nothing else changes |
| `ScaledPoints.DiscreteScaledPointsGenerator.Range` | OMScrollableChart/DiscreteScaledPointsGenerator.swift:30-32 | `range` is the amount by which the cached maximum exceeds the cached minimum |
| `ScaledPoints.DiscreteScaledPointsGenerator.UpdateRangeLimits` | OMScrollableChart/DiscreteScaledPointsGenerator.swift:51-71 | when dirty: each limit becomes its override if present, else the data's min or max, and the flag is cleared; when clean: nothing changes; the overrides and insets are never touched; the data must be non-empty exactly when some limit is read from it |
| `ScaledPoints.DiscreteScaledPointsGenerator.MakePoints` | OMScrollableChart/DiscreteScaledPointsGenerator.swift:72-91 | one point per sample, computed from the cached limits without changing them or the flag; with a zero range every y is height - bottom inset; with a positive range and a tall enough size, samples within the limits stay between the insets |
| `ScaledPoints.UpdateTwice` | OMScrollableChart/DiscreteScaledPointsGenerator.swift:51-71 | under the same precondition as `updateRangeLimits`, a second call, even with different or empty data, keeps the limits the first call left; the overrides are untouched |
| `Render.RenderIdent.RawValue` | RenderManager.swift:26-31 | polyline, points, selected point and base renders have raw values 0 to 3 |
| `Render.FirstIndexOf` | RenderManager.swift:139-143 | `firstIndex(of:)`: none exactly when no point equals the query, else the first index holding an equal point |
| `Render.Distances` | RenderManager.swift:104 | one distance per point, in order |
| `Render.Mini` | RenderManager.swift:104 | `.mini`: none exactly for empty input, else an index of a least element |
| `Render.Nearest` | RenderManager.swift:101-112 | none exactly when there are no points, else an index whose point is nearest to the query |
| `Render.MinXIndex` | RenderManager.swift:81-83 | the `max(by: { $0.x > $1.x })` fold ends on the first index of least x |
| `Render.MaxXIndex` | RenderManager.swift:84-86 | the `max(by: { $0.x <= $1.x })` fold ends on the last index of greatest x |
| `Render.DataRender.Empty` | RenderManager.swift:51 | `DataRender.empty`: no minimum or maximum point, and no index lookup finds anything, for any query point |
| `Render.DataRender.FromPoints` | RenderManager.swift:61-65 | `init(points:)`: those points, no samples, discrete type |
| `Render.DataRender.FromData` | RenderManager.swift:66-70 | `init(data:)`: those samples, no points, discrete type |
| `Render.DataRender.Copy` | RenderManager.swift:72-76 | `copy` equals the original in samples, points and type |
| `Render.DataRender.MinPoint` | RenderManager.swift:81-83 | `minPoint` is nil exactly for no points, else the first point of least x |
| `Render.DataRender.MaxPoint` | RenderManager.swift:84-86 | `maxPoint` is nil exactly for no points, else the last point of greatest x |
| `Render.DataRender.PointWithIndex` | RenderManager.swift:92-95 | `point(withIndex:)` needs an index within the points and then returns that point, never nil |
| `Render.DataRender.IndexWithPoint` | RenderManager.swift:101-112 | `index(withPoint:)`, for every type: nil only without points, else an index of a nearest point |
| `Render.DataRender.DataWithPoint` | RenderManager.swift:116-137 | `data(withPoint:)`: for all but moving statistics, the sample at the first exactly equal point, nil when no point is equal; for moving statistics, the sample at a nearest point, nil only without points; the looked-up index must lie within the samples |
| `Render.DataRender.DataAtFirstMatch` | RenderManager.swift:118-121 | the sample at the first exactly equal point, nil when there is none |
| `Render.DataRender.DataIndexWithPoint` | RenderManager.swift:139-172 | `dataIndex(withPoint:)`: nil only without points; always an index of a nearest point; for all but moving statistics, the first exactly equal index when the query is one of the points |
| `Render.DataRender.FirstMatchElseNearest` | RenderManager.swift:141-146 | the first exact match if there is one, else the nearest index |
| `Render.FirstMatchUnique` | RenderManager.swift:142 | the first index of an equal point is unique |
| `Render.ExactMatchIsNearest` | RenderManager.swift:141-146 | an exactly equal point is a nearest point, so the exact-match answer agrees with the nearest-point search |
| `Render.TruncatingQuotient` | RenderManager.swift:265 | Swift's integer `/` truncates toward zero: the quotient is non-negative when dividend and divisor agree in sign, and 0 for a zero dividend |
| `Render.TruncatingRemainder` | RenderManager.swift:265 | Swift's `%`: the remainder has the dividend's sign, lies strictly within the divisor's magnitude, and satisfies a == (a / b) * b + a % b with Swift's quotient, which together fix it uniquely |
| `Render.SectionOf` | RenderManager.swift:264-265 | the section of a data index, floor(index / (count / sections)) taken with Swift's `%`: strictly within the magnitude of the section count, and 0 for data index 0 |
| `Render.SectionInRange` | RenderManager.swift:264-265 | with samples and a positive number of sections, every data index has a section in [0, sections) |
| `Render.SectionWithinSeries` | RenderManager.swift:264-265 | a data index inside the series needs no wrap: its section is floor(index * sections / count) |
| `Render.BaseRender.constructor` | RenderManager.swift:193-195 | `init(index:)`: that index, the empty record, no layers |
| `Render.BaseRender.Default` | RenderManager.swift:196-198 | `init()`: index 0, the empty record, no layers |
| `Render.BaseRender.IsEmpty` | RenderManager.swift:200-202 | `isEmpty` holds exactly when the record has neither samples nor points |
| `Render.BaseRender.AllOtherLayers` | RenderManager.swift:204-207 | an empty list when the layer is not one of the render's; otherwise no copy of it, fewer layers, and as multisets exactly the render's layers with that layer's copies removed (order from `WithoutDistributes`) |
| `Render.Without` | RenderManager.swift:206 | `filter { $0 != layer }`: no copy of the layer is left, every other layer keeps its number of copies, and a list without the layer comes back unchanged |
| `Render.WithoutDistributes` | RenderManager.swift:206 | filtering a concatenation filters each part and keeps the parts in order, so with the one-element cases `filter` keeps the order of what it leaves |
| `Render.BaseRender.MakePoints` | RenderManager.swift:255-258 | for a non-zero size: one point per sample, point i at x = width * i / n and y = height - 40, the default bottom inset of a fresh generator |
| `Render.BaseRender.SectionIndex` | RenderManager.swift:260-280 | `Index.bad` exactly when no data index is found (no points); with a positive number of sections, otherwise in [0, sections); the division and remainder need samples and a non-zero section count; for a data index inside the series and positive sections, the section is floor(index * sections / count) |
| `Render.OutputsOf` | RenderManager.swift:365 | the points of each render, in order |
| `Render.InputsOf` | RenderManager.swift:374 | the samples of each render, in order |
| `Render.LayersFold` | RenderManager.swift:355 | the `reduce` fold with `$0 + [$1.layers]` yields one more list per render than its initial value |
| `Render.LayersFoldAppends` | RenderManager.swift:355 | the `reduce` fold keeps its initial value and appends each render's layers after it, in order |
| `Render.ConcatMembers` | RenderManager.swift:389-390 | an element is in the `flatMap` result exactly when it is in one of the parts |
| `Render.Concat` | RenderManager.swift:389-391 | `flatMap { $0 }` is empty exactly when every part is empty |
| `Render.ConcatLength` | RenderManager.swift:389-390 | the `flatMap` result is as long as all the parts together |
| `Render.ConcatAppend` | RenderManager.swift:389-390 | a part added at the end contributes its elements after all earlier ones, so the `flatMap` keeps the renders' order and each part's order |
| `Render.RenderManager.constructor` | RenderManager.swift:339-341 | a new manager holds three distinct fresh, empty renders at indices 0, 1, 2 |
| `Render.RenderManager.ConfigureRenders` | RenderManager.swift:347 | the polyline, points and selected-point renders, with indices 0, 1 and 2 |
| `Render.RenderManager.Update` | RenderManager.swift:342-346 | needs a target no smaller than the count; afterwards the count is the target, the old renders are unchanged, each new render is fresh and empty, and every render's index still equals its position |
| `Render.RenderManager.Points` | RenderManager.swift:364-365 | the `points` getter: one list per render, render i's points |
| `Render.RenderManager.Data` | RenderManager.swift:373-374 | the `data` getter: one list per render, render i's samples |
| `Render.RenderManager.Layers` | RenderManager.swift:354-355 | the `layers` getter: one list more than there are renders, the first one empty, then render i's layers at position i + 1 |
| `Render.RenderManager.AllPointsRender` | RenderManager.swift:389 | every point of every render and nothing else; the length is the total point count |
| `Render.RenderManager.AllDataPointsRender` | RenderManager.swift:390 | every sample of every render and nothing else; the length is the total sample count |
| `Render.RenderManager.SetPoints` | RenderManager.swift:366-370 | needs at least one list per render; render i gets `newValue[i]` as its points and keeps its samples, type and layers; reading the points back gives the first `renders.count` lists set |
| `Render.RenderManager.SetData` | RenderManager.swift:375-379 | needs at least one list per render; render i gets `newValue[i]` as its samples and keeps its points, type and layers; reading the samples back gives what was set |
| `Render.RenderManager.SetLayers` | RenderManager.swift:356-361 | render i gets `newValue[i]` as its layers; reading the layers back gives an empty list followed by them, so with one list per render, set-then-get is not the identity |
| `Rules.Round` | Sources/OMScrollableChart/OMScrollableChart+Rules.swift:173-178 | `round` keeps the sign of its argument |
| `Rules.RoundNearest` | Sources/OMScrollableChart/OMScrollableChart+Rules.swift:173-178 | `round` gives the integer within 0.5, halfway cases away from zero |
| `Rules.RoundMonotone` | Sources/OMScrollableChart/OMScrollableChart+Rules.swift:173-178 | rounding never reverses the order of two values |
| `Rules.RoundIntegral` | Sources/OMScrollableChart/OMScrollableChart+Rules.swift:173-178 | an integer rounds to itself |
| `Rules.Mark` | Sources/OMScrollableChart/OMScrollableChart+Rules.swift:173-178 | the mark `appendRuleMark` records has the sign of its value |
| `Rules.MarkNearest` | Sources/OMScrollableChart/OMScrollableChart+Rules.swift:173-178 | above 10000 the mark is a multiple of 1000 within 500 of the value; otherwise it is within 0.5 of the value |
| `Rules.MarkMonotone` | Sources/OMScrollableChart/OMScrollableChart+Rules.swift:173-178 | marks never decrease as the value grows, including across the 10000 threshold |
| `Rules.Trunc` | Sources/OMScrollableChart/OMScrollableChart+Rules.swift:184 | `Int(x)` truncates toward zero |
| `Rules.RuleValues` | Sources/OMScrollableChart/OMScrollableChart+Rules.swift:184-190 | k + 1 values before rounding: the first is the minimum (when k > 0), the last is the maximum |
| `Rules.MarksOf` | Sources/OMScrollableChart/OMScrollableChart+Rules.swift:186-190 | one mark per value |
| `Rules.MarksOfAt` | Sources/OMScrollableChart/OMScrollableChart+Rules.swift:186-190 | the i-th mark is the mark of the i-th value, so the order is kept |
| `Rules.RuleMarks` | Sources/OMScrollableChart/OMScrollableChart+Rules.swift:184-190 | `internalCalcRules` produces N + 2 marks for N = `Int(numberOfRuleMarks)`: N + 1 stepped values and the maximum |
| `Rules.RuleMarksEnds` | Sources/OMScrollableChart/OMScrollableChart+Rules.swift:184-190 | N + 2 marks: the rounded minimum first (for N >= 0) and the rounded maximum last |
| `Rules.StepProduct` | Sources/OMScrollableChart/OMScrollableChart+Rules.swift:185-187 | with a positive step, one more step is higher, and count - 1 steps stay below count steps, that is, below the maximum |
| `Rules.RuleValuesIncrease` | Sources/OMScrollableChart/OMScrollableChart+Rules.swift:185-190 | with a positive range the values before rounding strictly increase |
| `Rules.RuleMarksNonDecreasing` | Sources/OMScrollableChart/OMScrollableChart+Rules.swift:173-190 | with a positive range the marks never decrease |
| `Rules.RuleMarksNegativeRange` | Sources/OMScrollableChart/OMScrollableChart+Rules.swift:233-240 | the guard only excludes a zero range, so a negative range goes through and gives decreasing marks: for N = 0, minimum 10 and maximum 5 the marks are [10, 5] |
| `Rules.ScrollableChart.constructor` | Sources/OMScrollableChart/OMScrollableChart+Rules.swift:36 | a chart starts with the given `numberOfRuleMarks`, no marks and no rule points (`rulesPoints = [CGPoint]()`) |
| `Rules.ScrollableChart.AppendRuleMark` | Sources/OMScrollableChart/OMScrollableChart+Rules.swift:155-179 | appends exactly one mark, the value's rounded mark; earlier marks are unchanged |
| `Rules.ScrollableChart.InternalCalcRules` | Sources/OMScrollableChart/OMScrollableChart+Rules.swift:181-192 | appends exactly the N + 2 marks of `RuleMarks` (N + 1 stepped values, then the maximum) after the existing ones; Swift's `0..<k` needs N >= -1 |
| `Rules.ScrollableChart.MakeRulesPoints` | Sources/OMScrollableChart/OMScrollableChart+Rules.swift:215-242 | returns false and leaves the marks and points untouched for simplified or regressed data, for `numberOfRuleMarks <= 0` or for a zero range; otherwise the marks are exactly the N + 2 fresh ones, the points are the generator's points for them (one per mark), and it returns true |

## Left out

- Layer and view operations: `locationToLayer`, `layerPointFromPoint`, `layerFrameFromPoint` and `removeAllLayers` act on `CALayer` frames and superlayers. `visibleLayers` and `invisibleLayers` filter layers by exact floating opacity. `allRendersLayers` flattens the `layers` getter of the shared manager into `CAShapeLayer`s; the same flattening is modelled for points and samples (`Concat`), and the `layers` getter itself is modelled. These are drawing-surface state, outside the numeric core.
- `PolylineRender`, `PointsRender`, `SelectedPointRender` and the static `RenderManager.shared`/`polyline`/`points`/`selectedPoint` singletons: they are modelled as one manager whose three default renders are distinct objects at indices 0, 1 and 2. The aliasing between managers that share these singletons is not captured.
- `DiscreteScaledPointsGenerator(data:)`, as called by `makeRulesPoints`, is declared outside the modelled files. `MakeRulesPoints` takes the generator as a parameter, with its limits already set. It also takes the polyline render's type and the drawable size as parameters.
- The constraint wiring, dash-line layers and `layoutRules` in the rules file, and the print-only rule flow: UI layout and logging.
- Floating point: rounding error, NaN and infinity propagation, and `isFinite` are not modelled beyond the zero-range case, whose non-finite result is modelled as 0. `vDSP_vasm` is modelled as the element-wise `(v - min) / range`, and `sectionIndex`'s floating division as exact real division. At exact section boundaries the floating result can differ.
- `ScaledPoints.SeqMin`, `ScaledPoints.SeqMax`: these model `vDSP_minv`/`vDSP_maxv` only on non-empty data, because their result on empty input is not visible here. `UpdateRangeLimits` therefore requires non-empty data whenever a limit is read from the data.
- `Render.Mini`: states only "an index of a least element", because the tie-break of the `.mini` library helper is not visible here.
- Distances: modelled as squared Euclidean distances, which pick the same nearest point. The `distance` helper itself belongs to a library that is not part of this model.
- `MakeRulesPoints`: the model does not promise ordered marks for a negative range. `makeRulesPoints` continues whenever the range is non-zero, and a `minimum` override above the `maximum` gives a negative one. The marks then decrease (`RuleMarksNegativeRange`). Such marks are drawn in that order, and whether `rulesMarks` would sort them is not visible here.
- `Render.BadIndex` (`Index.bad`) is taken to be -1, because its raw value is declared outside the modelled files.
- The `Int(floor(...))` conversion in `sectionIndex` can trap on values too large for `Int`. The model does not bound integers there.

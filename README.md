# Orographic enhancement of precipitation rates

A model of the `ApplyOrographicEnhancement` nowcasting plugin. The plugin
adjusts precipitation-rate fields by an orographic-enhancement field. For
each precipitation field it picks the enhancement grid nearest in time. It
then adds or subtracts that grid, in the precipitation field's unit, where
the input precipitation is not below the minimum rate. Finally it raises
combined values below the minimum rate to that rate, again only where the
input precipitation is not below it. It returns one adjusted field per
input, in input order.

The plugin's own module (`improver.nowcasting.utilities`) is not part of
this model. Its behaviour is taken from the test module
`lib/improver/tests/nowcasting/utilities/test_ApplyOrographicEnhancement.py`,
which fixes it through concrete grids and expected outputs.

Modules, in dependency order:

- `Fields` (fields.dfy): the pieces of gridded data.
  - Cells are a number, a NaN or a masked cell that keeps its underlying value.
  - Rate units are exact positive scale factors to mm/hr.
  - A field is one time, a unit, opaque metadata and a row-major grid.
  - An enhancement series is several timestamped grids.
- `Config` (config.dfy): the operation (`add` or `subtract`), the
  minimum rate, construction with its error, and the string form.
- `TimeSelection` (time_selection.dfy): the nearest-time selection of an
  enhancement grid.
- `Combination` (combination.dfy): the elementwise combination.
- `MinimumRate` (minimum_rate.dfy): the floor, written as an in-place loop
  over an array copy of the combined data.
- `Process` (process.dfy): the loop over the input list.
  - It also holds a reference definition of the whole adjustment computed
    in mm/hr.
  - A lemma shows the pipeline agrees with that reference, whatever the
    input units.
- `Scenarios` (scenarios.dfy): the test fixtures and the outputs the tests
  assert for them.
  - Fixtures are built in mm/hr and converted to m/s, as the tests do.
  - The minimum rate stays a parameter `minRate` with 0 < minRate < 1.

## Model

| member | source | states |
|---|---|---|
| Config.ParseOperation | lib/improver/tests/nowcasting/utilities/test_ApplyOrographicEnhancement.py:101-111 | "add" and "subtract" are accepted and read back under the same name; any other name is rejected with an error carrying that name |
| Config.ParseOperationName | lib/improver/tests/nowcasting/utilities/test_ApplyOrographicEnhancement.py:101-104 | every operation's name parses back to that operation |
| Config.NewPlugin | lib/improver/tests/nowcasting/utilities/test_ApplyOrographicEnhancement.py:101-111 | construction succeeds exactly for "add" and "subtract"; the plugin stores the requested operation and the minimum rate; otherwise the error names the requested operation |
| Config.ErrorMessage | lib/improver/tests/nowcasting/utilities/test_ApplyOrographicEnhancement.py:106-111 | the error text is "Operation '", then the rejected operation name, then "' not supported for" |
| Config.ConstructAdd | lib/improver/tests/nowcasting/utilities/test_ApplyOrographicEnhancement.py:101-122 | constructing with "add" stores Add, and the string form is `<ApplyOrographicEnhancement: operation: add>` |
| Config.ConstructMultiplyFails | lib/improver/tests/nowcasting/utilities/test_ApplyOrographicEnhancement.py:106-111 | constructing with "multiply" fails, with a message beginning "Operation 'multiply' not supported for" |
| Fields.ConvertValue | lib/improver/tests/nowcasting/utilities/test_ApplyOrographicEnhancement.py:56-57 | a converted value denotes the same rate in mm/hr |
| Fields.ConvertCell | lib/improver/tests/nowcasting/utilities/test_ApplyOrographicEnhancement.py:505-513 | conversion keeps the kind of a cell (number, NaN, masked) and the mm/hr value of numbers and of masked cells' underlying values |
| Fields.ConvertUnits | lib/improver/tests/nowcasting/utilities/test_ApplyOrographicEnhancement.py:54-57 | converting a field changes only its unit and rescales each cell to the same mm/hr rate |
| Fields.ConvertUnitsRoundTrip | lib/improver/tests/nowcasting/utilities/test_ApplyOrographicEnhancement.py:340-344 | converting a field to another unit and back gives the original field |
| Fields.ConvertUnitsKeepsMmh | lib/improver/tests/nowcasting/utilities/test_ApplyOrographicEnhancement.py:379-395 | a field converted into any unit reads the same in mm/hr |
| Fields.CompareInUnit | lib/improver/tests/nowcasting/utilities/test_ApplyOrographicEnhancement.py:291-295 | comparing two values after conversion into a common unit agrees with comparing them in mm/hr |
| Fields.BelowInUnit | lib/improver/tests/nowcasting/utilities/test_ApplyOrographicEnhancement.py:291-295 | a value is below the mm/hr threshold converted into its unit exactly when its mm/hr rate is below the threshold |
| TimeSelection.NearestIndex | lib/improver/tests/nowcasting/utilities/test_ApplyOrographicEnhancement.py:136-182 | the chosen timestamp is at least as near the target as every other, and strictly nearer than every earlier one, so ties go to the first listed |
| TimeSelection.SliceAt | lib/improver/tests/nowcasting/utilities/test_ApplyOrographicEnhancement.py:133-134 | a slice has its own timestamp as a scalar time and the enhancement's unit, metadata and grid at that index |
| TimeSelection.SelectEnhancementSlice | lib/improver/tests/nowcasting/utilities/test_ApplyOrographicEnhancement.py:136-182 | the selected slice is one of the enhancement's grids, with its time, unit and metadata; no timestamp is nearer to the target; every earlier timestamp is strictly farther |
| TimeSelection.NearestBetween | lib/improver/tests/nowcasting/utilities/test_ApplyOrographicEnhancement.py:159-182 | for ascending times and a target between two neighbours, the nearer neighbour is chosen, and the earlier one at the midpoint |
| TimeSelection.NearestOutside | lib/improver/tests/nowcasting/utilities/test_ApplyOrographicEnhancement.py:136-145 | a target at or before the first time takes the first grid; one at or after the last time takes the last grid |
| TimeSelection.SingleTimeServesAll | lib/improver/tests/nowcasting/utilities/test_ApplyOrographicEnhancement.py:578-592 | with one enhancement time, that grid is selected for every target |
| TimeSelection.FixtureSelection | lib/improver/tests/nowcasting/utilities/test_ApplyOrographicEnhancement.py:136-182 | targets 412227.0, .25 and .5 take the 412227.0 grid; 412227.75 and 412228.0 take the 412228.0 grid |
| Combination.Threshold | lib/improver/tests/nowcasting/utilities/test_ApplyOrographicEnhancement.py:291-294 | the minimum rate expressed in a unit is positive and equals the minimum rate in mm/hr |
| Combination.PromoteTime | lib/improver/tests/nowcasting/utilities/test_ApplyOrographicEnhancement.py:224-236 | the enhancement has a time dimension after promotion exactly when it or the precipitation had one; its time, unit, metadata and cells are unchanged |
| Combination.ApplyEnhancement | lib/improver/tests/nowcasting/utilities/test_ApplyOrographicEnhancement.py:196-222 | the combined field has the precipitation field's time, unit, metadata and grid size |
| Combination.ApplyEnhancementMeaning | lib/improver/tests/nowcasting/utilities/test_ApplyOrographicEnhancement.py:289-298 | where the input is not below the minimum, each cell is precipitation plus or minus enhancement in mm/hr; below it the input passes through; masked input stays masked with its own value; NaN stays NaN |
| Combination.ConvertCellTwice | lib/improver/tests/nowcasting/utilities/test_ApplyOrographicEnhancement.py:256-257 | converting a cell through an intermediate unit equals converting it directly |
| Combination.EnhancementUnitIrrelevant | lib/improver/tests/nowcasting/utilities/test_ApplyOrographicEnhancement.py:249-264 | the enhancement's unit (m/hr, m/s, ...) does not change the combined field |
| Combination.PrecipUnitIrrelevant | lib/improver/tests/nowcasting/utilities/test_ApplyOrographicEnhancement.py:249-264 | the precipitation's unit does not change the combined values in mm/hr |
| Combination.TimeDimensionIrrelevant | lib/improver/tests/nowcasting/utilities/test_ApplyOrographicEnhancement.py:224-247 | a scalar-time enhancement grid and the same grid with a length-1 time dimension give the same combined field |
| MinimumRate.MinimumRateFloor | lib/improver/tests/nowcasting/utilities/test_ApplyOrographicEnhancement.py:300-331 | the floored field keeps the combined field's time, unit, metadata and grid size |
| MinimumRate.FloorInPlace | lib/improver/tests/nowcasting/utilities/test_ApplyOrographicEnhancement.py:316-331 | the loop leaves the array holding the floored cells of its old contents |
| MinimumRate.ApplyMinimumPrecipRate | lib/improver/tests/nowcasting/utilities/test_ApplyOrographicEnhancement.py:300-331 | flooring a fresh copy of the combined data returns the floored field; the arguments are values and stay as they were |
| MinimumRate.MinimumRateFloorMeaning | lib/improver/tests/nowcasting/utilities/test_ApplyOrographicEnhancement.py:316-353 | exactly the numeric cells below the minimum in mm/hr, where the input is a number not below it, become the minimum; every other cell, NaN and masked ones included, is unchanged |
| MinimumRate.FloorLowerBound | lib/improver/tests/nowcasting/utilities/test_ApplyOrographicEnhancement.py:316-331 | after flooring, every numeric cell whose input is a number not below the minimum is at least the minimum |
| MinimumRate.FloorKeepsOthers | lib/improver/tests/nowcasting/utilities/test_ApplyOrographicEnhancement.py:333-377 | cells at or above the minimum, and cells whose input is not a number at or above it, are not changed by the floor |
| MinimumRate.FloorIdempotent | lib/improver/tests/nowcasting/utilities/test_ApplyOrographicEnhancement.py:316-331 | flooring twice gives the same field as flooring once |
| MinimumRate.FloorUnitIrrelevant | lib/improver/tests/nowcasting/utilities/test_ApplyOrographicEnhancement.py:379-416 | the combined field's unit (m/s, mm/hr, ft/s) does not change the floored values in mm/hr |
| MinimumRate.FloorPrecipUnitIrrelevant | lib/improver/tests/nowcasting/utilities/test_ApplyOrographicEnhancement.py:397-416 | the precipitation field's unit (km/hr, ...) does not change the floored field |
| Process.AsList | lib/improver/tests/nowcasting/utilities/test_ApplyOrographicEnhancement.py:562-576 | a single field becomes a one-element list and a list stays as it is |
| Process.Adjust | lib/improver/tests/nowcasting/utilities/test_ApplyOrographicEnhancement.py:450-468 | the adjusted field has its precipitation field's time, unit, metadata and grid size |
| Process.Process | lib/improver/tests/nowcasting/utilities/test_ApplyOrographicEnhancement.py:450-600 | one output per input in the same order; each is its input adjusted by the nearest grid and has its input's metadata, time and unit |
| Process.AdjustMeaning | lib/improver/tests/nowcasting/utilities/test_ApplyOrographicEnhancement.py:450-560 | each adjusted cell, where the input is not below the minimum, is the sum or difference in mm/hr raised to the minimum; elsewhere the input passes through; masked stays masked with its own value; NaN stays NaN |
| Process.MaskedCellsKept | lib/improver/tests/nowcasting/utilities/test_ApplyOrographicEnhancement.py:491-560 | masked input cells come out masked with their own value, neither enhanced nor floored |
| Process.StaticEnhancement | lib/improver/tests/nowcasting/utilities/test_ApplyOrographicEnhancement.py:578-600 | with a one-time enhancement, every field is combined with that one grid and then floored |
| Process.AdjustMmh | lib/improver/tests/nowcasting/utilities/test_ApplyOrographicEnhancement.py:450-489 | the reference adjustment of two mm/hr grids keeps the grid size |
| Process.AdjustInMmh | lib/improver/tests/nowcasting/utilities/test_ApplyOrographicEnhancement.py:450-600 | whatever the input units, the adjusted field in mm/hr equals the reference adjustment of the inputs in mm/hr |
| Scenarios.SelectFixtureSlices | lib/improver/tests/nowcasting/utilities/test_ApplyOrographicEnhancement.py:159-182 | a fixture field at 412227.5 takes the first grid and one at 412227.75 the second; the slice keeps the enhancement's time and metadata |
| Scenarios.CombineAddFixture | lib/improver/tests/nowcasting/utilities/test_ApplyOrographicEnhancement.py:196-208 | adding gives [[0,1,2],[1,2,7],[0,3,4]] mm/hr |
| Scenarios.CombineSubtractFixture | lib/improver/tests/nowcasting/utilities/test_ApplyOrographicEnhancement.py:210-222 | subtracting gives [[0,1,2],[1,2,-1],[0,1,0]] mm/hr, with no floor applied |
| Scenarios.FloorSubtractFixture | lib/improver/tests/nowcasting/utilities/test_ApplyOrographicEnhancement.py:316-331 | flooring the subtracted fixture gives [[0,1,2],[1,2,MIN],[0,1,MIN]] mm/hr |
| Scenarios.FloorSubtractAnyUnits | lib/improver/tests/nowcasting/utilities/test_ApplyOrographicEnhancement.py:379-416 | with the precipitation and combined fields in any units, the floored field keeps the combined unit and metadata and reads [[0,1,2],[1,2,MIN],[0,1,MIN]] mm/hr |
| Scenarios.FloorNoInputPrecip | lib/improver/tests/nowcasting/utilities/test_ApplyOrographicEnhancement.py:333-353 | where the input precipitation is 0, combined zeros stay 0: [[0,0,0],[0,0,1],[0,1,1]] |
| Scenarios.FloorNoNegativeRates | lib/improver/tests/nowcasting/utilities/test_ApplyOrographicEnhancement.py:355-377 | a combined field whose values are all at least 1 mm/hr comes back unchanged |
| Scenarios.FloorKeepsNaN | lib/improver/tests/nowcasting/utilities/test_ApplyOrographicEnhancement.py:418-438 | a NaN row stays NaN while the other rows are floored: [[0,1,2],[NaN,NaN,NaN],[0,1,MIN]] |
| Scenarios.FixturePairing | lib/improver/tests/nowcasting/utilities/test_ApplyOrographicEnhancement.py:48-89 | each fixture precipitation field is paired with the enhancement grid of its own time |
| Scenarios.FixturesInMmh | lib/improver/tests/nowcasting/utilities/test_ApplyOrographicEnhancement.py:48-89 | the fixture fields converted to m/s read back in mm/hr as the grids they were built from |
| Scenarios.AdjustAddFixture | lib/improver/tests/nowcasting/utilities/test_ApplyOrographicEnhancement.py:450-468 | adding gives [[0,1,2],[1,2,7],[0,3,4]] and [[9,9,6],[6,5,1],[6,5,1]] mm/hr |
| Scenarios.AdjustSubtractFixture | lib/improver/tests/nowcasting/utilities/test_ApplyOrographicEnhancement.py:470-489 | subtracting gives [[0,1,2],[1,2,MIN],[0,1,MIN]] and [[MIN,MIN,MIN],[2,3,1],[2,3,1]] mm/hr |
| Scenarios.AdjustAddMaskedFixture | lib/improver/tests/nowcasting/utilities/test_ApplyOrographicEnhancement.py:491-525 | with cells at or below 1 mm/hr masked, adding keeps those cells masked with their own values; the second field reads [[9,9,1],[6,5,1],[6,5,1]] |
| Scenarios.AdjustSubtractMaskedFixture | lib/improver/tests/nowcasting/utilities/test_ApplyOrographicEnhancement.py:527-560 | with cells at or below 1 mm/hr masked, subtracting gives [[MIN,MIN,1],[2,3,1],[2,3,1]] for the second field, its last column still masked |
| Scenarios.AdjustStaticFixture | lib/improver/tests/nowcasting/utilities/test_ApplyOrographicEnhancement.py:578-600 | one enhancement time serves both fields: [[0,1,2],[1,2,MIN],[0,1,MIN]] and [[4,4,1],[4,4,MIN],[3,3,MIN]] |
| Scenarios.ProcessBasicAdd | lib/improver/tests/nowcasting/utilities/test_ApplyOrographicEnhancement.py:450-468 | processing both fixture fields with "add" returns two fields with the precipitation metadata and the expected grids |
| Scenarios.ProcessBasicSubtract | lib/improver/tests/nowcasting/utilities/test_ApplyOrographicEnhancement.py:470-489 | processing both fixture fields with "subtract" returns two fields with the precipitation metadata and the expected grids |
| Scenarios.ProcessAddWithMask | lib/improver/tests/nowcasting/utilities/test_ApplyOrographicEnhancement.py:491-525 | processing the masked fields with "add" returns two fields with the precipitation metadata; masked cells keep their own values; the grids read [[0,1,2],[1,2,7],[0,3,4]] and [[9,9,1],[6,5,1],[6,5,1]] |
| Scenarios.ProcessSubtractWithMask | lib/improver/tests/nowcasting/utilities/test_ApplyOrographicEnhancement.py:527-560 | processing the masked fields with "subtract" returns two fields with the precipitation metadata; masked cells keep their own values; the grids read [[0,1,2],[1,2,MIN],[0,1,MIN]] and [[MIN,MIN,1],[2,3,1],[2,3,1]] |
| Scenarios.ProcessOneInputCube | lib/improver/tests/nowcasting/utilities/test_ApplyOrographicEnhancement.py:562-576 | a single precipitation field gives a one-element list holding [[0,1,2],[1,2,7],[0,3,4]] |
| Scenarios.ProcessOnlyOneEnhancementTime | lib/improver/tests/nowcasting/utilities/test_ApplyOrographicEnhancement.py:578-600 | a one-time enhancement adjusts both fields with its grid |

## Left out

- The gridded-field library (iris cubes, cf_units) is replaced by plain values.
  - Cube construction, concatenation, the library's slicing machinery and `new_axis` are not modelled. The slice that slicing produces is modelled (TimeSelection.SliceAt).
  - Coordinates other than time are not modelled.
  - A field's realization and time dimensions have length 1, so a grid is a flat row-major sequence.
  - Promoting a scalar time to a dimension is a flag on the field.
- Unit conversion is exact scaling by a positive factor to mm/hr, not the cf_units routine.
- Unit compatibility and matching grid shapes are preconditions. Their failures are errors raised by that library, not by the plugin.
- Floating point is not modelled. Values are exact reals, so the tests' almost-equal comparisons become equalities. NaN is an explicit cell kind, not IEEE arithmetic.
- The exact minimum rate is defined in the plugin's own module, which is not part of this model. It is the parameter `minRate`; the model assumes only 0 < minRate < 1, the range the fixtures need.
- Config.ErrorMessage: only the known start of the message is modelled, up to "not supported for". The rest of the text is not part of this model.
- Config.Repr has no contract of its own. Its one observed output is stated by Config.ConstructAdd.
- The comparison with the minimum rate is strict ("below" means `<`), following the fixture's own comparison (test line 295). A value exactly at the minimum is not exercised by the tests.
- Where the input precipitation is below the minimum, the enhancement counts as zero. A NaN or masked enhancement cell there is therefore not propagated.
- The floor acts only where the input precipitation cell is a number. Where the input is NaN or masked, the combined cell is already NaN or masked and is left alone.
- Processing of the input list is sequential. Parallelism across inputs is not modelled.
- The plugin leaves the caller's enhancement field untouched (test lines 266-274). In the model this holds only because fields are values; no member states it.
- MinimumRate.ApplyMinimumPrecipRate: the plugin writes the floor into the combined field it is handed and returns that same field. That is why the tests pass copies (test lines 306-307 and 322-323). The model floors a fresh copy and returns it, so the aliasing between argument and result is not captured; the in-place write itself is MinimumRate.FloorInPlace.
- The floor acts only where the input precipitation is not below the minimum. Where the input is 0, a combined 0 stays 0 (test lines 333-353).

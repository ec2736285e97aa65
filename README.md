# Concrete mix design (dosage) engine

A Dafny model of the engine that turns one input record into a concrete mix design.
The inputs are the target strength fck, the quality-control tier, the slump, the cement
class, the specific and unit masses of the materials, the sand moisture, the three
proportioning coefficients, the exposure and the structure type. The engine works in
nine steps:

1. It estimates the mean strength at 28 days as fc28 = fck + 1.65 sd.
2. It looks up the water demand in an 11 × 4 table. Each axis goes to its nearest
   entry, the earlier entry wins a tie, and an absent cell gives 200 L.
3. It takes the water/cement ratio as the smaller of the strength value A / (fc28 + B)
   and the durability ceiling.
4. It divides the water demand by that ratio to get the cement content.
5. It gets the total aggregate mass from a 1000 L volume balance.
6. It splits the aggregate into sand and gravel by the median of three proportioning
   methods.
7. It corrects each aggregate mass for its own specific mass against the mean one.
8. It corrects for the sand moisture: the water the wet sand carries comes off the
   water to add.
9. It reports quantities per cubic metre and for the whole volume, unitary traces by
   weight and by volume, and quantities per 50 kg sack with 18 L can counts.

Layout:

- `types.dfy` (module `Types`) holds the enumerations, the input record and the
  result records.
- `constants.dfy` (module `Constants`) holds the water table, the cement coefficients,
  the durability ceilings and the sack and can constants, with lemmas about their
  contents.
- `dosage_calculator.dfy` (module `DosageCalculator`) holds the nearest-match lookup,
  one function per pipeline stage, and `CalculateDosage`, which composes them.
- `worked_example.dfy` (module `WorkedExample`) takes the default input record of the
  application's form through the stages.

Quantities are exact `real`s. Every division of the source has its divisor under a
`requires`. For the whole pipeline these conditions are gathered in the predicate
`DosageCalculator.WellDefined`:

- the six specific and unit masses are positive;
- fc28 + B is positive, which makes the ratio positive;
- the total aggregate mass is non-zero.

Each stage function states what its result means: a product identity, a balance, or
the median property. `CalculateDosage` ties every field of the result to its stage.

The water table is modelled exactly as tabulated, including the slump-60 row, whose
last cell sits under the key 171 rather than 38. So the lookup at slump 60, diameter
38 falls back to 200 L (`DosageCalculator.Slump60Dmax38Fallback`).

## Model

| member | source | states |
|---|---|---|
| Types.CementClass | types.ts:1-5 | the three cement classes CP-25, CP-32 and CP-40 as a closed enumeration, so every table keyed on them is total |
| Types.ExposureCondition | types.ts:7-10 | the two exposure conditions, ordinary and aggressive |
| Types.StructureType | types.ts:12-15 | the two structure types, thin and ordinary; its ordinary case is a different value from the exposure's, so the durability key stays a pair |
| Types.StandardDeviationControl.Margin | types.ts:17-21 | each control tier stands for a standard deviation between 4.0 and 7.0 MPa |
| Types.DeviationTiers | types.ts:17-21 | the tiers carry 4.0, 5.5 and 7.0 MPa, in increasing order |
| Types.DosageInputs | types.ts:23-57 | the input record, field for field, without the unread optional swell coefficient |
| Types.MaterialAmounts | types.ts:86-99 | cement, wet sand, gravel and water, per cubic metre or for the whole volume |
| Types.Trace | types.ts:101-115 | a unitary trace with cement, sand, gravel and water parts, cement being the normaliser |
| Types.SackTrace | types.ts:118-127 | sacks for the whole volume and the per-sack sand, gravel and water volumes and can counts, without the never-computed rounded counts |
| Types.DosageResults | types.ts:66-127 | the result record, field for field, without the never-computed transport boxes |
| Constants.WaterRow | constants.ts:7-19 | one water-table row: a slump and its diameter-keyed cells |
| Constants.WATER_TABLE | constants.ts:7-19 | the water-demand table cell by cell, eleven slump rows each keyed by diameter, with the slump-60 row's last cell under 171 as tabulated; its contents are stated by the `Constants` lemmas below |
| Constants.CementCoefficients | constants.ts:22-26 | the coefficient pair A, B of one cement class |
| Constants.Slumps | constants.ts:7-19 | the slump column has one entry per table row, row by row |
| Constants.CementConstants | constants.ts:22-26 | the coefficient table is total over the three classes, and every A and B is positive |
| Constants.CementConstantsOrdering | constants.ts:22-26 | A and B both grow strictly from CP-25 to CP-32 to CP-40 |
| Constants.Durability | constants.ts:30-39 | the ceiling table is total over structure × exposure, and every ceiling lies in (0, 0.50] |
| Constants.DurabilityOrdering | constants.ts:30-39 | a thin element never allows more than an ordinary one, an aggressive environment never more than an ordinary one, and nothing exceeds Comum/Comum = 0.50 |
| Constants.DEFAULT_CEMENT_SPECIFIC_MASS | constants.ts:42 | the default cement specific mass, 3.1 kg/L |
| Constants.CEMENT_SACK_VOLUME_LITERS | constants.ts:43 | the volume of one cement sack, 35 L |
| Constants.CEMENT_SACK_WEIGHT_KG | constants.ts:44 | the weight of one cement sack, 50 kg |
| Constants.CAN_VOLUME_LITERS | constants.ts:45 | the volume of one can, 18 L |
| Constants.WaterTableRows | constants.ts:7-19 | eleven rows with strictly increasing slumps 10, 20, 30, 40, 50, 60, 80, 100, 120, 150, 180 |
| Constants.MalformedSlump60Row | constants.ts:8-18 | the slump-60 row has keys 9.5, 19, 25 and 171 and no 38; every other row has exactly 9.5, 19, 25 and 38 |
| Constants.WaterDemandRisesWithSlump | constants.ts:8-18 | within a column, where both cells exist, water demand strictly rises with the slump |
| Constants.WaterDemandFallsWithDmax | constants.ts:8-18 | within a row, water demand strictly falls as the diameter grows |
| Constants.WaterDemandBounds | constants.ts:8-18 | every tabulated demand lies between 143 and 244 L |
| DosageCalculator.Dist | utils/dosageCalculator.ts:8 | the distance is non-negative, and it is either x − q or q − x |
| DosageCalculator.ReduceNearest | utils/dosageCalculator.ts:7-9 | the fold leaves the kept position only for a strictly closer one, and its result is no farther than any later position and strictly closer than every skipped one |
| DosageCalculator.NearestIndex | utils/dosageCalculator.ts:7-15 | the reduce picks the first position whose key minimises the distance to the query |
| DosageCalculator.FirstNearestUnique | utils/dosageCalculator.ts:7-15 | at most one position is the first nearest, so the selection is well determined |
| DosageCalculator.ExactKeySelected | utils/dosageCalculator.ts:7-15 | on strictly increasing keys, a query equal to a key selects that key |
| DosageCalculator.MidpointSelectsLower | utils/dosageCalculator.ts:7-15 | a query exactly midway between two neighbouring keys selects the lower one, because replacement needs a strict < |
| DosageCalculator.GetWaterContent | utils/dosageCalculator.ts:5-19 | the result is the first-nearest row's cell for the first-nearest diameter column, or 200 where that cell is absent; so it is 200 or between 143 and 244 |
| DosageCalculator.CellOrFallback | utils/dosageCalculator.ts:18 | a present cell is read as it is, and an absent one gives the 200 L fallback |
| DosageCalculator.WATER_FALLBACK | utils/dosageCalculator.ts:18 | the 200 L returned when the selected cell is absent |
| DosageCalculator.DmaxKeysIncreasing | utils/dosageCalculator.ts:12 | the diameter columns 9.5, 19, 25, 38 are strictly increasing |
| DosageCalculator.DMAX_KEYS | utils/dosageCalculator.ts:12 | the four diameter columns 9.5, 19, 25, 38 in the order the column reduce visits them |
| DosageCalculator.TabulatedLookup | utils/dosageCalculator.ts:5-19 | a query at a tabulated slump and diameter reads exactly that row's cell, or 200 where the row lacks the diameter |
| DosageCalculator.TabulatedCellPresent | constants.ts:8-18 | a row has a cell for a diameter column unless it is the slump-60 row and the 38 column |
| DosageCalculator.Slump60Dmax38Fallback | utils/dosageCalculator.ts:18 | the lookup at slump 60, diameter 38 returns the 200 L fallback |
| DosageCalculator.MidpointRow | utils/dosageCalculator.ts:7-9 | slump 70, equidistant from the 60 and 80 rows, selects the 60 row |
| DosageCalculator.MidpointColumn | utils/dosageCalculator.ts:12-15 | diameter 22, equidistant from 19 and 25, selects the 19 column |
| DosageCalculator.Slump60Cell | constants.ts:13 | the slump-60 row holds 193 L for 19 mm |
| DosageCalculator.MidpointWaterContent | utils/dosageCalculator.ts:5-19 | the lookup at slump 70, diameter 22 returns 193 L |
| DosageCalculator.Fc28 | utils/dosageCalculator.ts:23 | fc28 exceeds fck by 1.65 times the tier's deviation, so by 6.6 to 11.55 MPa |
| DosageCalculator.StrengthRatio | utils/dosageCalculator.ts:30-31 | the ratio times (fc28 + B) is A, and it is positive when A and fc28 + B are |
| DosageCalculator.Min | utils/dosageCalculator.ts:37 | the result is at most both arguments and equal to one of them |
| DosageCalculator.WaterCementRatio | utils/dosageCalculator.ts:30-37 | the ratio is at most the strength ratio and the durability ceiling, equals one of them, and is positive when fc28 + B is |
| DosageCalculator.CementContent | utils/dosageCalculator.ts:40 | cement content × ratio = water demand, and the content is positive when both are |
| DosageCalculator.MeanSpecificMass | utils/dosageCalculator.ts:45 | twice the mean is the sum, and the mean is at least the smaller mass |
| DosageCalculator.TotalAggregateMass | utils/dosageCalculator.ts:46 | the aggregate volume at the mean specific mass, the cement volume and the water fill 1000 L |
| DosageCalculator.SandRatioA | utils/dosageCalculator.ts:52-54 | with that sand fraction, cement plus sand is alphaS % of cement plus aggregate |
| DosageCalculator.SandRatioB | utils/dosageCalculator.ts:58-60 | for a non-zero aggregate mass the fraction is exactly alphaM / 100 |
| DosageCalculator.SandRatioC | utils/dosageCalculator.ts:67-71 | with that sand fraction, cement, sand and water make up alphaR % of the concrete mass |
| DosageCalculator.Insert | utils/dosageCalculator.ts:74 | the insertion step of the ascending sort: the result is one element longer; InsertSorted states that it keeps the order and the elements |
| DosageCalculator.InsertSorted | utils/dosageCalculator.ts:74 | inserting into a sorted sequence keeps it sorted and adds exactly the new element |
| DosageCalculator.SortAscending | utils/dosageCalculator.ts:74 | the ascending sort keeps the length |
| DosageCalculator.SortAscendingCorrect | utils/dosageCalculator.ts:74 | the sort's result is sorted and a permutation of its input |
| DosageCalculator.InsertIntoSingle | utils/dosageCalculator.ts:74 | inserting into a one-element list puts the smaller value first, keeping the new value first on a tie |
| DosageCalculator.InsertIntoPair | utils/dosageCalculator.ts:74 | inserting into a sorted pair places the new value before the first element it does not exceed |
| DosageCalculator.MiddleOfThree | utils/dosageCalculator.ts:74-75 | the middle element of the sorted three-element list is their median |
| DosageCalculator.Median3 | utils/dosageCalculator.ts:74-75 | the result is one of the three fractions, and at least two of them lie on each side of it |
| DosageCalculator.MedianUnique | utils/dosageCalculator.ts:74-75 | the median of three values is unique |
| DosageCalculator.MedianSymmetric | utils/dosageCalculator.ts:74-75 | the median does not depend on the order of the three methods |
| DosageCalculator.SplitAggregate | utils/dosageCalculator.ts:45-79 | the total aggregate mass satisfies the volume balance and is non-zero; the dry sand is the total times the median of methods A, B, C; sand plus gravel is the total; and the sand fraction is the median of A, alphaM / 100 and C |
| DosageCalculator.CorrectMass | utils/dosageCalculator.ts:84-85 | corrected mass × mean specific mass = raw mass × own specific mass |
| DosageCalculator.EqualSpecificMassesNoCorrection | utils/dosageCalculator.ts:84-85 | equal sand and gravel specific masses leave both masses unchanged |
| DosageCalculator.MoistureCorrection | utils/dosageCalculator.ts:89-95 | wet minus dry sand is moisture % of the dry sand, and it equals the water taken off the demand |
| DosageCalculator.MoistureSigns | utils/dosageCalculator.ts:89-95 | non-negative moisture on non-negative dry sand never lowers the sand or raises the water, and zero moisture changes neither |
| DosageCalculator.CorrectAggregate | utils/dosageCalculator.ts:84-95 | both specific-mass corrections hold, the wet sand gains moisture % of the corrected sand, and that gain is exactly the water no longer added |
| DosageCalculator.BulkVolume | utils/dosageCalculator.ts:110-112 | volume × unit mass = mass, and a positive mass has a positive volume |
| DosageCalculator.ScaleToVolume | utils/dosageCalculator.ts:162-167 | every total quantity is the per-cubic-metre one times the volume |
| DosageCalculator.WeightTrace | utils/dosageCalculator.ts:125-130 | the cement part is 1 and the water part is the ratio; sand and gravel parts times the cement give the corrected masses back |
| DosageCalculator.VolumeTrace | utils/dosageCalculator.ts:110-121 | the cement part is 1; each part times the cement's bulk volume gives back the bulk volume of wet sand, gravel and corrected water |
| DosageCalculator.SackQuantities | utils/dosageCalculator.ts:134-142 | sacks × 50 kg = volume × cement content; per-sack volumes = trace × 35 L; cans × 18 L = per-sack volume; water per sack × cement content = corrected water × 50 |
| DosageCalculator.CalculateDosage | utils/dosageCalculator.ts:21-179 | fc28 exceeds fck by 1.65 deviations; the water is the table lookup; the ratio is the strength ratio or the ceiling, whichever is smaller; the cement content is positive; every later field is its stage applied to the earlier fields |
| DosageCalculator.CementContentMonotoneInFck | utils/dosageCalculator.ts:23-40 | with everything else fixed and non-negative water, raising fck never lowers the cement content |
| DosageCalculator.DosageMonotoneInFck | utils/dosageCalculator.ts:23-40 | for two well-defined inputs differing only in fck, the larger fck never gives the engine a smaller cement content |
| DosageCalculator.DosageVolumeBalance | utils/dosageCalculator.ts:43-46 | in the result, aggregate, cement and water volumes fill exactly 1000 L |
| DosageCalculator.DosageSandFraction | utils/dosageCalculator.ts:74-79 | in the result, dry sand plus dry gravel is the total aggregate, and the sand fraction is the median of the three methods' fractions |
| DosageCalculator.DosageMoistureBalance | utils/dosageCalculator.ts:89-95 | in the result, wet sand plus added water equals corrected dry sand plus the water demand |
| DosageCalculator.DosageDrySand | utils/dosageCalculator.ts:89-95 | at zero moisture, the wet sand is the corrected sand and the full water demand is added |
| DosageCalculator.DosageEqualSpecificMasses | utils/dosageCalculator.ts:84-85 | with equal sand and gravel specific masses, the corrected masses equal the dry ones |
| DosageCalculator.DosageTraces | utils/dosageCalculator.ts:116-130 | both traces are normalised to one part of cement, and the weight trace's water is the water/cement ratio |
| WorkedExample.IsDefault | App.tsx:10-29 | the form's default input record, field by field |
| WorkedExample.DefaultWaterDemand | utils/dosageCalculator.ts:5-19 | for the default slump 60 and diameter 19 the lookup gives 193 L |
| WorkedExample.DefaultStrengthGoverns | App.tsx:10-29 | for the default record, fc28 is 34.075 and the strength ratio 280/601 is below the 0.50 ceiling and governs |
| WorkedExample.DefaultCementContent | utils/dosageCalculator.ts:40 | 193 L at the ratio 280/601 needs 115993/280 kg of cement |
| WorkedExample.DefaultMedianIsMethodB | utils/dosageCalculator.ts:45-75 | for the defaults the aggregate mass is positive and method B's 40 % lies strictly between methods A and C, so it is the median |
| WorkedExample.DefaultWellDefined | App.tsx:10-29 | the default record meets every divisor condition of the engine |
| WorkedExample.DurabilityCeilingGoverns | utils/dosageCalculator.ts:30-37 | for CP-25 at fck 10 under rigorous control, on a thin element in an ordinary environment, fc28 is 16.6, the strength ratio exceeds the 0.45 ceiling, and the ratio is the ceiling |

## Left out

- Floating-point behaviour is not modelled. The source computes in IEEE doubles, where
  a zero divisor yields Infinity or NaN, and NaN upsets the `sort` comparator. The model
  uses exact reals, and `WellDefined` excludes every zero divisor.
- The `|| 200` fallback also treats a stored 0 as missing. No cell of the table is 0,
  so the model reads "absent gives 200".
- The slump-60 row keeps its key 171 exactly as tabulated, so the (60, 38) cell is
  absent. The table's comment hints at a fix applied "in usage", but the lookup applies
  none.
- The results record's `sandCansRounded`, `gravelCansRounded` and `padiolas` fields
  (types.ts:124-133) are declared but never computed. `SackTrace` and `DosageResults`
  leave them out, and so does the model of transport-box sizing and of rounding.
- The optional `sandSwell` input (types.ts:42) is never read by the engine, so
  `DosageInputs` omits it.
- The enumerations are modelled by their cases, not by their string or numeric
  encodings. The numeric value of a control tier, which the engine uses directly as
  MPa, is `StandardDeviationControl.Margin`.
- The user interface and the application shell are not part of this model: form
  state, formatting, alerts and scrolling. Only the form's default record is used, in
  `WorkedExample`.
- CalculateDosage: its own contract states fc28, the water lookup, the governing ratio
  and a positive cement content. Each later field is stated only as its stage function
  applied to the earlier fields. The meaning of those fields comes from the stages'
  contracts and from the `Dosage...` lemmas.
- MoistureSigns: the sign properties need a non-negative dry sand mass as well as
  non-negative moisture. The source does not state this.
- WorkedExample: the default record is taken through each stage separately rather
  than through `CalculateDosage` as a whole.

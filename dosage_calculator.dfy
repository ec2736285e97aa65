/** The dosage engine: the water-demand lookup and the full mix-design pipeline. */
module DosageCalculator {
  import opened Types
  import opened Constants

  // ---------------------------------------------------------------------------
  // Nearest-match selection
  // ---------------------------------------------------------------------------

  /** Absolute difference |x - q|. */
  function Dist(x: real, q: real): (d: real)
    ensures d >= 0.0
    ensures d == x - q || d == q - x
  {
    if x - q < 0.0 then q - x else x - q
  }

  /** `k` is the first position of `keys` whose key is closest to `q`: nothing is
      closer, and everything before it is strictly farther. */
  predicate IsFirstNearest(keys: seq<real>, q: real, k: nat)
  {
    && k < |keys|
    && (forall j :: 0 <= j < |keys| ==> Dist(keys[k], q) <= Dist(keys[j], q))
    && (forall j :: 0 <= j < k ==> Dist(keys[k], q) < Dist(keys[j], q))
  }

  /** The left fold of a `reduce` without initial value: `prev` is the position kept
      so far, `i` the next one to compare; the current entry replaces `prev` only
      when it is strictly closer. */
  function ReduceNearest(keys: seq<real>, q: real, prev: nat, i: nat): (r: nat)
    requires prev < i <= |keys|
    decreases |keys| - i
    ensures r < |keys|
    ensures r == prev || i <= r
    ensures Dist(keys[r], q) <= Dist(keys[prev], q)
    ensures forall j :: i <= j < |keys| ==> Dist(keys[r], q) <= Dist(keys[j], q)
    ensures r != prev ==> Dist(keys[r], q) < Dist(keys[prev], q)
    ensures forall j :: i <= j < r ==> Dist(keys[r], q) < Dist(keys[j], q)
  {
    if i == |keys| then prev
    else
      var next := if Dist(keys[i], q) < Dist(keys[prev], q) then i else prev;
      ReduceNearest(keys, q, next, i + 1)
  }

  /** Position of the entry of `keys` closest to `q`, the earliest one on a tie. */
  function NearestIndex(keys: seq<real>, q: real): (k: nat)
    requires |keys| > 0
    ensures IsFirstNearest(keys, q, k)
  {
    ReduceNearest(keys, q, 0, 1)
  }

  /** There is only one first nearest position. */
  lemma FirstNearestUnique(keys: seq<real>, q: real, k1: nat, k2: nat)
    requires IsFirstNearest(keys, q, k1) && IsFirstNearest(keys, q, k2)
    ensures k1 == k2
  {
    // each is at least as close as the other, so neither is strictly before
    assert Dist(keys[k1], q) == Dist(keys[k2], q);
  }

  /** A query equal to a key of a strictly increasing sequence selects that key. */
  lemma ExactKeySelected(keys: seq<real>, k: nat)
    requires Increasing(keys) && k < |keys|
    ensures NearestIndex(keys, keys[k]) == k
  {
    var r := NearestIndex(keys, keys[k]);
    assert Dist(keys[r], keys[k]) <= Dist(keys[k], keys[k]) == 0.0;
    assert keys[r] == keys[k];
  }

  /** A query exactly midway between two neighbouring keys selects the smaller one. */
  lemma MidpointSelectsLower(keys: seq<real>, k: nat)
    requires Increasing(keys) && k + 1 < |keys|
    ensures NearestIndex(keys, (keys[k] + keys[k + 1]) / 2.0) == k
  {
    var q := (keys[k] + keys[k + 1]) / 2.0;
    var h := Dist(keys[k], q);
    var r := NearestIndex(keys, q);
    assert h == Dist(keys[k + 1], q);
    forall j | 0 <= j < |keys| && j != k && j != k + 1
      ensures Dist(keys[j], q) > h
    {
      if j < k { assert keys[j] < keys[k]; } else { assert keys[k + 1] < keys[j]; }
    }
    assert r == k || r == k + 1;
    assert r != k + 1;
  }

  // ---------------------------------------------------------------------------
  // Water demand
  // ---------------------------------------------------------------------------

  /** The diameter columns of the water table. */
  const DMAX_KEYS: seq<real> := [9.5, 19.0, 25.0, 38.0]

  /** Water demand used when the selected cell is absent. */
  const WATER_FALLBACK: real := 200.0

  /** The water demand a row holds for a diameter, or the fallback. */
  function CellOrFallback(row: WaterRow, d: real): (w: real)
    ensures d in row.dmax ==> w == row.dmax[d]
    ensures d !in row.dmax ==> w == WATER_FALLBACK
  {
    if d in row.dmax then row.dmax[d] else WATER_FALLBACK
  }

  /** Water demand (L/m3): the cell at the nearest slump row and, independently, the
      nearest diameter column, or 200 L when that row has no such column. */
  function GetWaterContent(slump: real, dmax: real): (w: real)
    ensures forall i: nat, c: nat ::
      IsFirstNearest(Slumps(), slump, i) && IsFirstNearest(DMAX_KEYS, dmax, c) ==>
        w == CellOrFallback(WATER_TABLE[i], DMAX_KEYS[c])
    ensures w == WATER_FALLBACK || 143.0 <= w <= 244.0
  {
    var i := NearestIndex(Slumps(), slump);
    var row := WATER_TABLE[i];
    var closestDmax := DMAX_KEYS[NearestIndex(DMAX_KEYS, dmax)];
    if closestDmax in row.dmax then
      WaterDemandBounds(i, closestDmax);
      row.dmax[closestDmax]
    else WATER_FALLBACK
  }

  lemma DmaxKeysIncreasing()
    ensures Increasing(DMAX_KEYS)
  {
  }

  /** A query at a tabulated slump and diameter returns that row's cell for that
      diameter, or the fallback where the row lacks it. */
  lemma TabulatedLookup(i: nat, c: nat)
    requires i < |WATER_TABLE| && c < |DMAX_KEYS|
    ensures GetWaterContent(WATER_TABLE[i].slump, DMAX_KEYS[c]) == CellOrFallback(WATER_TABLE[i], DMAX_KEYS[c])
  {
    WaterTableRows();
    DmaxKeysIncreasing();
    ExactKeySelected(Slumps(), i);
    ExactKeySelected(DMAX_KEYS, c);
  }

  /** Every row has a cell for every diameter column except the slump-60 row for 38. */
  lemma TabulatedCellPresent(i: nat, c: nat)
    requires i < |WATER_TABLE| && c < |DMAX_KEYS|
    ensures DMAX_KEYS[c] in WATER_TABLE[i].dmax <==> (i, c) != (5, 3)
  {
    MalformedSlump60Row();
  }

  /** The slump-60 row has no entry for 38 mm, so that lookup falls back to 200 L. */
  lemma Slump60Dmax38Fallback()
    ensures GetWaterContent(60.0, 38.0) == 200.0
  {
    TabulatedLookup(5, 3);
    MalformedSlump60Row();
  }

  /** Slump 70, midway between the 60 and 80 rows, reads the earlier row. */
  lemma MidpointRow()
    ensures NearestIndex(Slumps(), 70.0) == 5
  {
    var s := Slumps();
    WaterTableRows();
    assert (s[5] + s[6]) / 2.0 == 70.0;
    MidpointSelectsLower(s, 5);
  }

  /** Diameter 22, midway between the 19 and 25 columns, reads the 19 column. */
  lemma MidpointColumn()
    ensures NearestIndex(DMAX_KEYS, 22.0) == 1
  {
    DmaxKeysIncreasing();
    assert (DMAX_KEYS[1] + DMAX_KEYS[2]) / 2.0 == 22.0;
    MidpointSelectsLower(DMAX_KEYS, 1);
  }

  /** The slump-60 row holds 193 L for 19 mm. */
  lemma Slump60Cell()
    ensures CellOrFallback(WATER_TABLE[5], DMAX_KEYS[1]) == 193.0
  {
    assert DMAX_KEYS[1] == 19.0;
  }

  /** A query midway in both directions, slump 70 and diameter 22, reads the cell at
      slump 60 and 19 mm. */
  lemma MidpointWaterContent(slump: real, dmax: real)
    requires slump == 70.0 && dmax == 22.0
    ensures GetWaterContent(slump, dmax) == 193.0
  {
    MidpointRow();
    MidpointColumn();
    Slump60Cell();
  }

  // ---------------------------------------------------------------------------
  // Strength, water/cement ratio and cement content
  // ---------------------------------------------------------------------------

  /** Target mean strength at 28 days: fck plus 1.65 standard deviations. */
  function Fc28(fck: real, sd: StandardDeviationControl): (r: real)
    ensures r - fck == 1.65 * sd.Margin()
    ensures fck + 6.6 <= r <= fck + 11.55
  {
    fck + 1.65 * sd.Margin()
  }

  /** Strength-based water/cement ratio A / (fc28 + B). */
  function StrengthRatio(k: CementCoefficients, fc28: real): (x: real)
    requires fc28 + k.b != 0.0
    ensures x * (fc28 + k.b) == k.a
    ensures k.a > 0.0 && fc28 + k.b > 0.0 ==> x > 0.0
  {
    k.a / (fc28 + k.b)
  }

  /** `Math.min`. */
  function Min(a: real, b: real): (r: real)
    ensures r <= a && r <= b
    ensures r == a || r == b
  {
    if a <= b then a else b
  }

  /** Cement content (kg/m3): the water demand divided by the ratio. */
  function CementContent(water: real, ratio: real): (c: real)
    requires ratio != 0.0
    ensures c * ratio == water
    ensures water > 0.0 && ratio > 0.0 ==> c > 0.0
  {
    water / ratio
  }

  // ---------------------------------------------------------------------------
  // Aggregate mass and its split
  // ---------------------------------------------------------------------------

  /** Mean of the sand and gravel specific masses. */
  function MeanSpecificMass(sand: real, gravel: real): (gm: real)
    ensures gm + gm == sand + gravel
    ensures Min(sand, gravel) <= gm
  {
    (sand + gravel) / 2.0
  }

  /** Total aggregate mass (kg/m3) from the volume balance: with the aggregate's
      solid volume taken at the mean specific mass, cement, water and aggregate fill
      1000 L. */
  function TotalAggregateMass(cement: real, cementSpecificMass: real, water: real, gm: real): (m: real)
    requires cementSpecificMass != 0.0
    ensures gm != 0.0 ==> m / gm + cement / cementSpecificMass + water == 1000.0
  {
    (1000.0 - cement / cementSpecificMass - water) * gm
  }

  /** Method A, dry-mortar content: the sand fraction for which cement plus sand is
      alphaS % of cement plus aggregate. */
  function SandRatioA(alphaS: real, cement: real, m: real): (r: real)
    requires m != 0.0
    ensures cement + r * m == alphaS / 100.0 * (cement + m)
  {
    var m1 := (alphaS / 100.0 * (cement + m)) - cement;
    m1 / m
  }

  /** Method B, fine-to-total ratio: alphaM % of the aggregate is sand. */
  function SandRatioB(alphaM: real, m: real): (r: real)
    requires m != 0.0
    ensures r == alphaM / 100.0
  {
    var m1 := alphaM / 100.0 * m;
    m1 / m
  }

  /** Method C, real-mortar content: the sand fraction for which everything but the
      gravel (cement, sand, water) is alphaR % of the concrete mass. */
  function SandRatioC(alphaR: real, cement: real, m: real, water: real): (r: real)
    requires m != 0.0
    ensures cement + r * m + water == alphaR / 100.0 * (cement + m + water)
  {
    var concreteMass := cement + m + water;
    var m2 := (1.0 - alphaR / 100.0) * concreteMass;
    var m1 := m - m2;
    m1 / m
  }

  /** Ascending order. */
  predicate Sorted(s: seq<real>)
  {
    forall i, j :: 0 <= i < j < |s| ==> s[i] <= s[j]
  }

  /** Inserts `x` before the first element of `s` that is not smaller. */
  function Insert(x: real, s: seq<real>): (r: seq<real>)
    ensures |r| == |s| + 1
  {
    if s == [] || x <= s[0] then [x] + s
    else [s[0]] + Insert(x, s[1..])
  }

  /** Inserting into an ascending list keeps it ascending and adds exactly `x`; the
      result starts with `x` or with the old first element. */
  lemma {:induction false} InsertSorted(x: real, s: seq<real>)
    requires Sorted(s)
    ensures Sorted(Insert(x, s))
    ensures multiset(Insert(x, s)) == multiset(s) + multiset{x}
    ensures Insert(x, s)[0] == x || (|s| > 0 && Insert(x, s)[0] == s[0])
  {
    if s == [] || x <= s[0] {
      assert Insert(x, s) == [x] + s;
    } else {
      var tail := Insert(x, s[1..]);
      assert Sorted(s[1..]);
      InsertSorted(x, s[1..]);
      assert s == [s[0]] + s[1..];
      assert Insert(x, s) == [s[0]] + tail;
      assert s[0] <= tail[0] by {
        if |s| > 1 { assert tail[0] == x || tail[0] == s[1]; }
      }
    }
  }

  /** `Array.prototype.sort` with the comparator `(a, b) => a - b`, as an insertion
      sort. */
  function SortAscending(s: seq<real>): (r: seq<real>)
    ensures |r| == |s|
  {
    if s == [] then [] else Insert(s[0], SortAscending(s[1..]))
  }

  /** Sorting yields the same values in ascending order. */
  lemma {:induction false} SortAscendingCorrect(s: seq<real>)
    ensures Sorted(SortAscending(s))
    ensures multiset(SortAscending(s)) == multiset(s)
  {
    if s != [] {
      SortAscendingCorrect(s[1..]);
      InsertSorted(s[0], SortAscending(s[1..]));
      assert s == [s[0]] + s[1..];
    }
  }

  /** `r` is a median of a, b, c: one of them, with at least two of the three at or
      below it and at least two at or above it. */
  predicate IsMedianOf(r: real, a: real, b: real, c: real)
  {
    && (r == a || r == b || r == c)
    && ((a <= r && b <= r) || (a <= r && c <= r) || (b <= r && c <= r))
    && ((a >= r && b >= r) || (a >= r && c >= r) || (b >= r && c >= r))
  }

  /** A median of three values is determined by them. */
  lemma MedianUnique(r1: real, r2: real, a: real, b: real, c: real)
    requires IsMedianOf(r1, a, b, c) && IsMedianOf(r2, a, b, c)
    ensures r1 == r2
  {
  }

  /** Inserting into a one-element list. */
  lemma InsertIntoSingle(a: real, v: real)
    ensures Insert(a, [v]) == if a <= v then [a, v] else [v, a]
  {
    assert [v][1..] == [];
    if v < a {
      assert Insert(a, [v]) == [v] + Insert(a, []);
    }
  }

  /** Inserting into an ascending pair. */
  lemma InsertIntoPair(a: real, u: real, v: real)
    requires u <= v
    ensures Insert(a, [u, v]) == if a <= u then [a, u, v] else if a <= v then [u, a, v] else [u, v, a]
  {
    if u < a {
      assert [u, v][1..] == [v];
      var tail := Insert(a, [v]);
      InsertIntoSingle(a, v);
      assert Insert(a, [u, v]) == [u] + tail;
    }
  }

  /** Sorting three values inserts the first into the sorted pair of the other two,
      so the middle of the result is the median. */
  lemma MiddleOfThree(a: real, b: real, c: real)
    ensures IsMedianOf(SortAscending([a, b, c])[1], a, b, c)
  {
    assert [a, b, c][1..] == [b, c] && [b, c][1..] == [c] && [c][1..] == [];
    assert SortAscending([c]) == [c];
    InsertIntoSingle(b, c);
    var bc := SortAscending([b, c]);
    assert bc == if b <= c then [b, c] else [c, b];
    InsertIntoPair(a, bc[0], bc[1]);
  }

  /** The middle element of the three once sorted. */
  function Median3(a: real, b: real, c: real): (r: real)
    ensures IsMedianOf(r, a, b, c)
  {
    var ratios := SortAscending([a, b, c]);
    MiddleOfThree(a, b, c);
    ratios[1]
  }

  /** The median does not depend on the order of its three arguments. */
  lemma MedianSymmetric(a: real, b: real, c: real)
    ensures Median3(a, b, c) == Median3(b, a, c) == Median3(a, c, b)
    ensures Median3(a, b, c) == Median3(b, c, a) == Median3(c, a, b) == Median3(c, b, a)
  {
    var m := Median3(a, b, c);
    MedianUnique(m, Median3(b, a, c), a, b, c);
    MedianUnique(m, Median3(a, c, b), a, b, c);
    MedianUnique(m, Median3(b, c, a), a, b, c);
    MedianUnique(m, Median3(c, a, b), a, b, c);
    MedianUnique(m, Median3(c, b, a), a, b, c);
  }

  /** Mass corrected for the aggregate's own specific mass against the mean. */
  function CorrectMass(raw: real, ownSpecificMass: real, gm: real): (r: real)
    requires gm != 0.0
    ensures r * gm == raw * ownSpecificMass
  {
    (raw * ownSpecificMass) / gm
  }

  /** Equal sand and gravel specific masses leave both masses uncorrected. */
  lemma EqualSpecificMassesNoCorrection(sandRaw: real, gravelRaw: real, g: real)
    requires g != 0.0
    ensures CorrectMass(sandRaw, g, MeanSpecificMass(g, g)) == sandRaw
    ensures CorrectMass(gravelRaw, g, MeanSpecificMass(g, g)) == gravelRaw
  {
    assert MeanSpecificMass(g, g) == g;
  }

  // ---------------------------------------------------------------------------
  // Moisture correction
  // ---------------------------------------------------------------------------

  /** Wet sand mass at `moisture` % and the water still to add: the water the wet
      sand carries is moisture % of its dry mass and comes off the water demand. */
  function MoistureCorrection(sandDry: real, moisture: real, water: real): (r: (real, real))
    ensures r.0 - sandDry == sandDry * moisture / 100.0
    ensures r.0 - sandDry == water - r.1
  {
    var sandWet := sandDry * (1.0 + moisture / 100.0);
    var waterCarriedBySand := sandWet - sandDry;
    (sandWet, water - waterCarriedBySand)
  }

  /** Non-negative moisture on a non-negative dry mass only adds to the sand and only
      takes from the water; zero moisture leaves both as they were. */
  lemma MoistureSigns(sandDry: real, moisture: real, water: real)
    requires sandDry >= 0.0 && moisture >= 0.0
    ensures var (wet, wc) := MoistureCorrection(sandDry, moisture, water);
      wet >= sandDry && wc <= water
    ensures moisture == 0.0 ==> MoistureCorrection(sandDry, moisture, water) == (sandDry, water)
  {
    var (wet, wc) := MoistureCorrection(sandDry, moisture, water);
    assert sandDry * moisture >= 0.0;
  }

  // ---------------------------------------------------------------------------
  // The pipeline
  // ---------------------------------------------------------------------------

  /** The water/cement ratio of an input: the smaller of the strength and durability
      ratios. */
  function WaterCementRatio(inputs: DosageInputs): (x: real)
    requires Fc28(inputs.fck, inputs.sdControl) + CementConstants(inputs.cementClass).b != 0.0
    ensures x <= StrengthRatio(CementConstants(inputs.cementClass), Fc28(inputs.fck, inputs.sdControl))
    ensures x <= Durability(inputs.structureType, inputs.exposure)
    ensures x == StrengthRatio(CementConstants(inputs.cementClass), Fc28(inputs.fck, inputs.sdControl))
         || x == Durability(inputs.structureType, inputs.exposure)
    ensures Fc28(inputs.fck, inputs.sdControl) + CementConstants(inputs.cementClass).b > 0.0 ==> x > 0.0
  {
    var acResistence := StrengthRatio(CementConstants(inputs.cementClass), Fc28(inputs.fck, inputs.sdControl));
    var acDurability := Durability(inputs.structureType, inputs.exposure);
    Min(acResistence, acDurability)
  }

  /** (x * y) / x == y for non-zero x. */
  lemma ProductQuotient(x: real, y: real)
    requires x != 0.0
    ensures (x * y) / x == y
  {
  }

  /** The total aggregate mass per cubic metre and its dry split into sand and gravel. */
  datatype AggregateSplit = AggregateSplit(total: real, sandDry: real, gravelDry: real)

  /** Steps 5-6 for a cement content and a water demand: the total aggregate mass from
      the volume balance, split by the median of the three proportioning methods. */
  function SplitAggregate(inputs: DosageInputs, cement: real, water: real): (s: AggregateSplit)
    requires inputs.cementSpecificMass > 0.0
    requires inputs.sandSpecificMass > 0.0 && inputs.gravelSpecificMass > 0.0
    requires TotalAggregateMass(cement, inputs.cementSpecificMass, water,
      MeanSpecificMass(inputs.sandSpecificMass, inputs.gravelSpecificMass)) != 0.0
    ensures var gm := MeanSpecificMass(inputs.sandSpecificMass, inputs.gravelSpecificMass);
      s.total / gm + cement / inputs.cementSpecificMass + water == 1000.0
    ensures s.total != 0.0
    ensures s.sandDry == s.total * Median3(
      SandRatioA(inputs.alphaS, cement, s.total),
      SandRatioB(inputs.alphaM, s.total),
      SandRatioC(inputs.alphaR, cement, s.total, water))
    ensures s.sandDry + s.gravelDry == s.total
    ensures IsMedianOf(s.sandDry / s.total,
      SandRatioA(inputs.alphaS, cement, s.total),
      inputs.alphaM / 100.0,
      SandRatioC(inputs.alphaR, cement, s.total, water))
  {
    // 5. total aggregate mass
    var gm := MeanSpecificMass(inputs.sandSpecificMass, inputs.gravelSpecificMass);
    var totalAggregateMass := TotalAggregateMass(cement, inputs.cementSpecificMass, water, gm);
    // 6. median of the three proportioning methods
    var sandRatioA := SandRatioA(inputs.alphaS, cement, totalAggregateMass);
    var sandRatioB := SandRatioB(inputs.alphaM, totalAggregateMass);
    var sandRatioC := SandRatioC(inputs.alphaR, cement, totalAggregateMass, water);
    var medianRatio := Median3(sandRatioA, sandRatioB, sandRatioC);
    ProductQuotient(totalAggregateMass, medianRatio);
    AggregateSplit(totalAggregateMass, totalAggregateMass * medianRatio,
      totalAggregateMass * (1.0 - medianRatio))
  }

  /** The sand and gravel masses after both corrections, and the water still to add. */
  datatype CorrectedMasses = CorrectedMasses(sandCorrected: real, gravelCorrected: real,
    sandWet: real, waterCorrected: real)

  /** Steps 7-8: each dry mass corrected by its own specific mass against the mean,
      then the sand wetted to its moisture and that water taken off the demand. */
  function CorrectAggregate(inputs: DosageInputs, sandDry: real, gravelDry: real, water: real): (c: CorrectedMasses)
    requires inputs.sandSpecificMass > 0.0 && inputs.gravelSpecificMass > 0.0
    ensures var gm := MeanSpecificMass(inputs.sandSpecificMass, inputs.gravelSpecificMass);
      && c.sandCorrected * gm == sandDry * inputs.sandSpecificMass
      && c.gravelCorrected * gm == gravelDry * inputs.gravelSpecificMass
    ensures c.sandWet - c.sandCorrected == c.sandCorrected * inputs.sandMoisture / 100.0
    ensures c.sandWet - c.sandCorrected == water - c.waterCorrected
  {
    // 7. specific-mass correction
    var gm := MeanSpecificMass(inputs.sandSpecificMass, inputs.gravelSpecificMass);
    var sandMassDryCorrected := CorrectMass(sandDry, inputs.sandSpecificMass, gm);
    var gravelMassDryCorrected := CorrectMass(gravelDry, inputs.gravelSpecificMass, gm);
    // 8. moisture correction
    var moisture := MoistureCorrection(sandMassDryCorrected, inputs.sandMoisture, water);
    CorrectedMasses(sandMassDryCorrected, gravelMassDryCorrected, moisture.0, moisture.1)
  }

  /** Every quantity the engine divides by is non-zero: positive specific and unit
      masses, a positive fc28 + B (which makes the ratio positive) and a non-zero
      total aggregate mass. */
  predicate WellDefined(inputs: DosageInputs)
  {
    && inputs.cementSpecificMass > 0.0 && inputs.cementUnitMass > 0.0
    && inputs.sandSpecificMass > 0.0 && inputs.sandUnitMass > 0.0
    && inputs.gravelSpecificMass > 0.0 && inputs.gravelUnitMass > 0.0
    && Fc28(inputs.fck, inputs.sdControl) + CementConstants(inputs.cementClass).b > 0.0
    && var water := GetWaterContent(inputs.slump, inputs.dmc);
       TotalAggregateMass(CementContent(water, WaterCementRatio(inputs)), inputs.cementSpecificMass,
         water, MeanSpecificMass(inputs.sandSpecificMass, inputs.gravelSpecificMass)) != 0.0
  }

  /** Bulk volume (L) of a mass (kg) at a unit mass (kg/L). */
  function BulkVolume(mass: real, unitMass: real): (v: real)
    requires unitMass > 0.0
    ensures v * unitMass == mass
    ensures mass > 0.0 ==> v > 0.0
  {
    mass / unitMass
  }

  /** The per-cubic-metre quantities scaled to the whole volume. */
  function ScaleToVolume(perM3: MaterialAmounts, volumeTotal: real): (t: MaterialAmounts)
    ensures t.cement == perM3.cement * volumeTotal && t.sandWet == perM3.sandWet * volumeTotal
    ensures t.gravel == perM3.gravel * volumeTotal && t.water == perM3.water * volumeTotal
  {
    MaterialAmounts(perM3.cement * volumeTotal, perM3.sandWet * volumeTotal,
      perM3.gravel * volumeTotal, perM3.water * volumeTotal)
  }

  /** The unitary trace by weight: corrected dry masses per kilogram of cement, and the
      water/cement ratio (not the moisture-corrected water). */
  function WeightTrace(cement: real, sandCorrected: real, gravelCorrected: real, ratio: real): (t: Trace)
    requires cement != 0.0
    ensures t.cement == 1.0 && t.water == ratio
    ensures t.sand * cement == sandCorrected && t.gravel * cement == gravelCorrected
  {
    Trace(1.0, sandCorrected / cement, gravelCorrected / cement, ratio)
  }

  /** The unitary trace by volume: bulk volumes of wet sand, gravel and corrected water
      per litre of bulk cement. */
  function VolumeTrace(amounts: MaterialAmounts, cementUnitMass: real, sandUnitMass: real,
                       gravelUnitMass: real): (t: Trace)
    requires amounts.cement > 0.0 && cementUnitMass > 0.0 && sandUnitMass > 0.0 && gravelUnitMass > 0.0
    ensures var volCement := BulkVolume(amounts.cement, cementUnitMass);
      && t.cement == 1.0
      && t.sand * volCement * sandUnitMass == amounts.sandWet
      && t.gravel * volCement * gravelUnitMass == amounts.gravel
      && t.water * volCement == amounts.water
  {
    var volCement := BulkVolume(amounts.cement, cementUnitMass);
    var volSand := BulkVolume(amounts.sandWet, sandUnitMass);
    var volGravel := BulkVolume(amounts.gravel, gravelUnitMass);
    var volWater := amounts.water;
    Trace(1.0, volSand / volCement, volGravel / volCement, volWater / volCement)
  }

  /** Quantities per 50 kg sack: the number of sacks for the whole volume, the sand
      and gravel volumes that go with one sack (35 L of cement), the water per sack,
      and those aggregate volumes in 18 L cans. */
  function SackQuantities(volumeTotal: real, cement: real, water: real, traceRatio: Trace): (s: SackTrace)
    requires cement != 0.0
    ensures s.cementSacks * CEMENT_SACK_WEIGHT_KG == volumeTotal * cement
    ensures s.sandVolumePerSack == traceRatio.sand * CEMENT_SACK_VOLUME_LITERS
    ensures s.gravelVolumePerSack == traceRatio.gravel * CEMENT_SACK_VOLUME_LITERS
    ensures s.sandCansPerSack * CAN_VOLUME_LITERS == s.sandVolumePerSack
    ensures s.gravelCansPerSack * CAN_VOLUME_LITERS == s.gravelVolumePerSack
    ensures s.waterVolumePerSack * cement == water * CEMENT_SACK_WEIGHT_KG
  {
    var cementSacksTotal := (volumeTotal * cement) / CEMENT_SACK_WEIGHT_KG;
    var sandVolPerSack := traceRatio.sand * CEMENT_SACK_VOLUME_LITERS;
    var gravelVolPerSack := traceRatio.gravel * CEMENT_SACK_VOLUME_LITERS;
    var waterPerSack := (water / cement) * CEMENT_SACK_WEIGHT_KG;
    SackTrace(cementSacksTotal, sandVolPerSack, gravelVolPerSack, waterPerSack,
      sandVolPerSack / CAN_VOLUME_LITERS, gravelVolPerSack / CAN_VOLUME_LITERS)
  }

  /** The complete mix design for one input record. */
  function CalculateDosage(inputs: DosageInputs): (r: DosageResults)
    requires WellDefined(inputs)
    // 1-4: strength, water demand, governing ratio, cement
    ensures r.fc28 - inputs.fck == 1.65 * inputs.sdControl.Margin()
    ensures r.waterConsumption == GetWaterContent(inputs.slump, inputs.dmc)
    ensures r.waterCementRatio == WaterCementRatio(inputs)
    ensures var strength := StrengthRatio(CementConstants(inputs.cementClass), Fc28(inputs.fck, inputs.sdControl));
      var ceiling := Durability(inputs.structureType, inputs.exposure);
      && (ceiling <= strength ==> r.waterCementRatio == ceiling)
      && (strength < ceiling ==> r.waterCementRatio == strength)
    ensures r.cementContent == CementContent(r.waterConsumption, r.waterCementRatio)
    ensures r.waterCementRatio > 0.0 && r.cementContent > 0.0
    // 5-8: the aggregate masses
    ensures AggregateSplit(r.totalAggregateMass, r.sandMassDry, r.gravelMassDry)
      == SplitAggregate(inputs, r.cementContent, r.waterConsumption)
    ensures CorrectedMasses(r.sandMassDryCorrected, r.gravelMassDryCorrected, r.sandMassWet, r.waterCorrected)
      == CorrectAggregate(inputs, r.sandMassDry, r.gravelMassDry, r.waterConsumption)
    // 9: output forms
    ensures r.perM3 == MaterialAmounts(r.cementContent, r.sandMassWet, r.gravelMassDryCorrected, r.waterCorrected)
    ensures r.total == ScaleToVolume(r.perM3, inputs.volumeTotal)
    ensures r.weightTrace == WeightTrace(r.cementContent, r.sandMassDryCorrected, r.gravelMassDryCorrected,
      r.waterCementRatio)
    ensures r.traceRatio == VolumeTrace(r.perM3, inputs.cementUnitMass, inputs.sandUnitMass, inputs.gravelUnitMass)
    ensures r.sackTrace == SackQuantities(inputs.volumeTotal, r.cementContent, r.waterCorrected, r.traceRatio)
  {
    // 1. strength
    var fc28 := Fc28(inputs.fck, inputs.sdControl);
    // 2. water demand
    var waterConsumption := GetWaterContent(inputs.slump, inputs.dmc);
    // 3. water/cement ratio
    var waterCementRatio := WaterCementRatio(inputs);
    // 4. cement content
    var cementContent := CementContent(waterConsumption, waterCementRatio);
    // 5-6. aggregate mass and its split
    var s := SplitAggregate(inputs, cementContent, waterConsumption);
    // 7-8. corrections
    var c := CorrectAggregate(inputs, s.sandDry, s.gravelDry, waterConsumption);
    // 9. output forms
    var perM3 := MaterialAmounts(cementContent, c.sandWet, c.gravelCorrected, c.waterCorrected);
    var traceRatio := VolumeTrace(perM3, inputs.cementUnitMass, inputs.sandUnitMass, inputs.gravelUnitMass);
    DosageResults(
      fc28, waterConsumption, waterCementRatio, cementContent,
      s.total, s.sandDry, s.gravelDry, c.sandCorrected, c.gravelCorrected, c.sandWet, c.waterCorrected,
      perM3,
      ScaleToVolume(perM3, inputs.volumeTotal),
      WeightTrace(cementContent, c.sandCorrected, c.gravelCorrected, waterCementRatio),
      traceRatio,
      SackQuantities(inputs.volumeTotal, cementContent, c.waterCorrected, traceRatio))
  }

  // ---------------------------------------------------------------------------
  // Properties relating several calculations
  // ---------------------------------------------------------------------------

  /** a / y <= a / x for a >= 0 and 0 < x <= y. */
  lemma DivAntitone(a: real, x: real, y: real)
    requires a >= 0.0 && 0.0 < x <= y
    ensures a / y <= a / x
  {
    var p, q := a / x, a / y;
    assert p * x == a && q * y == a;
    assert q >= 0.0;
    assert q * x <= q * y;
    assert q * x <= p * x;
  }


  /** Raising fck, all else equal, never lowers the cement content: a stronger
      concrete needs a smaller ratio and so more cement for the same water. */
  lemma CementContentMonotoneInFck(inputs: DosageInputs, fck2: real, water: real)
    requires Fc28(inputs.fck, inputs.sdControl) + CementConstants(inputs.cementClass).b > 0.0
    requires inputs.fck <= fck2 && water >= 0.0
    ensures Fc28(fck2, inputs.sdControl) + CementConstants(inputs.cementClass).b > 0.0
    ensures CementContent(water, WaterCementRatio(inputs))
         <= CementContent(water, WaterCementRatio(inputs.(fck := fck2)))
  {
    var k := CementConstants(inputs.cementClass);
    var d1 := Fc28(inputs.fck, inputs.sdControl) + k.b;
    var d2 := Fc28(fck2, inputs.sdControl) + k.b;
    DivAntitone(k.a, d1, d2);
    var x1, x2 := WaterCementRatio(inputs), WaterCementRatio(inputs.(fck := fck2));
    assert x2 <= x1;
    DivAntitone(water, x2, x1);
  }

  /** The cement, water and aggregate of one cubic metre fill exactly 1000 L, with the
      aggregate's solid volume taken at the mean specific mass. */
  lemma DosageVolumeBalance(inputs: DosageInputs)
    requires WellDefined(inputs)
    ensures var r := CalculateDosage(inputs);
      var gm := MeanSpecificMass(inputs.sandSpecificMass, inputs.gravelSpecificMass);
      r.totalAggregateMass / gm + r.cementContent / inputs.cementSpecificMass + r.waterConsumption == 1000.0
  {
  }

  /** The dry sand and gravel make up the total aggregate, and the sand fraction is the
      median of the three methods' fractions. */
  lemma DosageSandFraction(inputs: DosageInputs)
    requires WellDefined(inputs)
    ensures var r := CalculateDosage(inputs);
      && r.sandMassDry + r.gravelMassDry == r.totalAggregateMass
      && IsMedianOf(r.sandMassDry / r.totalAggregateMass,
           SandRatioA(inputs.alphaS, r.cementContent, r.totalAggregateMass),
           inputs.alphaM / 100.0,
           SandRatioC(inputs.alphaR, r.cementContent, r.totalAggregateMass, r.waterConsumption))
  {
  }

  /** The water the wet sand carries is exactly the water no longer added: wet sand
      plus added water equals corrected dry sand plus the water demand. */
  lemma DosageMoistureBalance(inputs: DosageInputs)
    requires WellDefined(inputs)
    ensures var r := CalculateDosage(inputs);
      r.sandMassWet + r.waterCorrected == r.sandMassDryCorrected + r.waterConsumption
  {
  }

  /** Dry sand wetted to zero moisture is unchanged and the full demand is added. */
  lemma DosageDrySand(inputs: DosageInputs)
    requires WellDefined(inputs) && inputs.sandMoisture == 0.0
    ensures var r := CalculateDosage(inputs);
      r.sandMassWet == r.sandMassDryCorrected && r.waterCorrected == r.waterConsumption
  {
  }

  /** Equal sand and gravel specific masses leave the dry masses uncorrected. */
  lemma DosageEqualSpecificMasses(inputs: DosageInputs)
    requires WellDefined(inputs) && inputs.sandSpecificMass == inputs.gravelSpecificMass
    ensures var r := CalculateDosage(inputs);
      r.sandMassDryCorrected == r.sandMassDry && r.gravelMassDryCorrected == r.gravelMassDry
  {
    var r := CalculateDosage(inputs);
    EqualSpecificMassesNoCorrection(r.sandMassDry, r.gravelMassDry, inputs.sandSpecificMass);
  }

  /** Both unitary traces are normalised to one part of cement, and the weight trace
      carries the water/cement ratio as its water part. */
  lemma DosageTraces(inputs: DosageInputs)
    requires WellDefined(inputs)
    ensures var r := CalculateDosage(inputs);
      && r.weightTrace.cement == r.traceRatio.cement == 1.0
      && r.weightTrace.water == r.waterCementRatio
  {
  }

  /** Raising fck, all else equal, never lowers the engine's cement content. */
  lemma DosageMonotoneInFck(inputs: DosageInputs, fck2: real)
    requires WellDefined(inputs) && WellDefined(inputs.(fck := fck2)) && inputs.fck <= fck2
    ensures CalculateDosage(inputs).cementContent <= CalculateDosage(inputs.(fck := fck2)).cementContent
  {
    CementContentMonotoneInFck(inputs, fck2, GetWaterContent(inputs.slump, inputs.dmc));
  }
}

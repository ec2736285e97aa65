/** The static tables and numeric constants the dosage engine reads. */
module Constants {
  import opened Types

  /** One row of the water-demand table: a slump (mm) and, keyed by the maximum
      aggregate diameter (mm), the water demand in litres per cubic metre. */
  datatype WaterRow = WaterRow(slump: real, dmax: map<real, real>)

  /** The water-demand table exactly as tabulated, including the slump-60 row whose
      last entry sits under the key 171 instead of 38. */
  const WATER_TABLE: seq<WaterRow> := [
    WaterRow(10.0, map[9.5 := 183.0, 19.0 := 162.0, 25.0 := 154.0, 38.0 := 143.0]),
    WaterRow(20.0, map[9.5 := 196.0, 19.0 := 173.0, 25.0 := 165.0, 38.0 := 153.0]),
    WaterRow(30.0, map[9.5 := 204.0, 19.0 := 180.0, 25.0 := 172.0, 38.0 := 159.0]),
    WaterRow(40.0, map[9.5 := 210.0, 19.0 := 186.0, 25.0 := 177.0, 38.0 := 164.0]),
    WaterRow(50.0, map[9.5 := 215.0, 19.0 := 190.0, 25.0 := 181.0, 38.0 := 167.0]),
    WaterRow(60.0, map[9.5 := 219.0, 19.0 := 193.0, 25.0 := 184.0, 171.0 := 171.0]),
    WaterRow(80.0, map[9.5 := 225.0, 19.0 := 199.0, 25.0 := 189.0, 38.0 := 176.0]),
    WaterRow(100.0, map[9.5 := 230.0, 19.0 := 203.0, 25.0 := 194.0, 38.0 := 180.0]),
    WaterRow(120.0, map[9.5 := 235.0, 19.0 := 207.0, 25.0 := 197.0, 38.0 := 183.0]),
    WaterRow(150.0, map[9.5 := 240.0, 19.0 := 212.0, 25.0 := 202.0, 38.0 := 187.0]),
    WaterRow(180.0, map[9.5 := 244.0, 19.0 := 216.0, 25.0 := 205.0, 38.0 := 190.0])
  ]

  /** The slump column of the water table, row by row. */
  function Slumps(): (s: seq<real>)
    ensures |s| == |WATER_TABLE|
    ensures forall i :: 0 <= i < |s| ==> s[i] == WATER_TABLE[i].slump
  {
    seq(|WATER_TABLE|, i requires 0 <= i < |WATER_TABLE| => WATER_TABLE[i].slump)
  }

  /** Strength-formula coefficients A and B of a cement class. */
  datatype CementCoefficients = CementCoefficients(a: real, b: real)

  /** The coefficient table, total over the three classes; every coefficient is
      positive, so A / (fc28 + B) is defined whenever fc28 >= 0. */
  function CementConstants(c: CementClass): (k: CementCoefficients)
    ensures k.a > 0.0 && k.b > 0.0
  {
    match c
    case CP25 => CementCoefficients(17.0, 9.0)
    case CP32 => CementCoefficients(21.0, 11.0)
    case CP40 => CementCoefficients(26.0, 14.0)
  }

  /** The durability ceiling on the water/cement ratio, total over structure type
      and exposure; every ceiling is positive and at most 0.50. */
  function Durability(s: StructureType, e: ExposureCondition): (x: real)
    ensures 0.0 < x <= 0.50
  {
    match s
    case Delgada =>
      (match e
       case Comum => 0.45
       case AmbienteAgressivo => 0.40)
    case Comum =>
      (match e
       case Comum => 0.50
       case AmbienteAgressivo => 0.45)
  }

  const DEFAULT_CEMENT_SPECIFIC_MASS: real := 3.1
  const CEMENT_SACK_VOLUME_LITERS: real := 35.0
  const CEMENT_SACK_WEIGHT_KG: real := 50.0
  const CAN_VOLUME_LITERS: real := 18.0

  /** A thinner element or a harsher environment never allows a larger ratio. */
  lemma DurabilityOrdering(s: StructureType, e: ExposureCondition)
    ensures Durability(StructureType.Delgada, e) <= Durability(StructureType.Comum, e)
    ensures Durability(s, ExposureCondition.AmbienteAgressivo) <= Durability(s, ExposureCondition.Comum)
    ensures Durability(s, e) <= Durability(StructureType.Comum, ExposureCondition.Comum) == 0.50
  {
  }

  /** Every coefficient pair grows with the cement class. */
  lemma CementConstantsOrdering()
    ensures CementConstants(CP25).a < CementConstants(CP32).a < CementConstants(CP40).a
    ensures CementConstants(CP25).b < CementConstants(CP32).b < CementConstants(CP40).b
  {
  }

  predicate Increasing(s: seq<real>)
  {
    forall a, b :: 0 <= a < b < |s| ==> s[a] < s[b]
  }

  /** Eleven rows with strictly increasing slumps 10, 20, ..., 180. */
  lemma WaterTableRows()
    ensures Slumps() == [10.0, 20.0, 30.0, 40.0, 50.0, 60.0, 80.0, 100.0, 120.0, 150.0, 180.0]
    ensures Increasing(Slumps())
  {
    var s := Slumps();
    assert s == [10.0, 20.0, 30.0, 40.0, 50.0, 60.0, 80.0, 100.0, 120.0, 150.0, 180.0];
  }

  /** Every row but the slump-60 one is keyed by exactly the four diameters; that row
      holds 9.5, 19, 25 and 171, so it has no entry for 38. */
  lemma MalformedSlump60Row()
    ensures WATER_TABLE[5].slump == 60.0
    ensures WATER_TABLE[5].dmax.Keys == {9.5, 19.0, 25.0, 171.0}
    ensures 38.0 !in WATER_TABLE[5].dmax
    ensures forall i :: 0 <= i < |WATER_TABLE| && i != 5 ==> WATER_TABLE[i].dmax.Keys == {9.5, 19.0, 25.0, 38.0}
  {
  }

  /** Within every column, where both cells are present, water demand strictly
      grows with the slump. */
  lemma WaterDemandRisesWithSlump(i: nat, j: nat, d: real)
    requires i < j < |WATER_TABLE|
    requires d in WATER_TABLE[i].dmax && d in WATER_TABLE[j].dmax
    ensures WATER_TABLE[i].dmax[d] < WATER_TABLE[j].dmax[d]
  {
  }

  /** Within every row, water demand strictly falls as the diameter grows. */
  lemma WaterDemandFallsWithDmax(i: nat, d1: real, d2: real)
    requires i < |WATER_TABLE|
    requires d1 in WATER_TABLE[i].dmax && d2 in WATER_TABLE[i].dmax && d1 < d2
    ensures WATER_TABLE[i].dmax[d1] > WATER_TABLE[i].dmax[d2]
  {
  }

  /** Every tabulated water demand lies between 143 and 244 L. */
  lemma WaterDemandBounds(i: nat, d: real)
    requires i < |WATER_TABLE| && d in WATER_TABLE[i].dmax
    ensures 143.0 <= WATER_TABLE[i].dmax[d] <= 244.0
  {
  }
}

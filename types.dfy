/** The closed enumerations and the input and result records of the dosage engine. */
module Types {

  /** Cement strength classes; each carries its own strength-formula coefficients. */
  datatype CementClass = CP25 | CP32 | CP40

  /** Severity of the environment the concrete is exposed to. */
  datatype ExposureCondition = Comum | AmbienteAgressivo

  /** Thinness class of the structural element.  Its `Comum` is a different value
      from `ExposureCondition.Comum`, so the durability key stays a pair. */
  datatype StructureType = Delgada | Comum

  /** Quality-control tiers of the concrete production. */
  datatype StandardDeviationControl = Rigoroso | Razoavel | Regular
  {
    /** The standard deviation, in MPa, that the tier stands for. */
    function Margin(): (m: real)
      ensures 4.0 <= m <= 7.0
    {
      match this
      case Rigoroso => 4.0
      case Razoavel => 5.5
      case Regular => 7.0
    }
  }

  /** The caller-supplied record for one calculation.  Masses are in kg/L,
      the slump and the maximum diameter in mm, moisture and the three
      proportioning coefficients in percent. */
  datatype DosageInputs = DosageInputs(
    volumeTotal: real,
    fck: real,
    sdControl: StandardDeviationControl,
    slump: real,
    cementClass: CementClass,
    cementSpecificMass: real,
    cementUnitMass: real,
    dmc: real,
    sandSpecificMass: real,
    sandUnitMass: real,
    sandMoisture: real,
    gravelSpecificMass: real,
    gravelUnitMass: real,
    alphaS: real,
    alphaM: real,
    alphaR: real,
    exposure: ExposureCondition,
    structureType: StructureType)

  /** Quantities of the four materials, per cubic metre or for the whole volume. */
  datatype MaterialAmounts = MaterialAmounts(cement: real, sandWet: real, gravel: real, water: real)

  /** A unitary trace 1 : sand : gravel : water, normalised to cement = 1. */
  datatype Trace = Trace(cement: real, sand: real, gravel: real, water: real)

  /** Quantities per 50 kg cement sack. */
  datatype SackTrace = SackTrace(
    cementSacks: real,
    sandVolumePerSack: real,
    gravelVolumePerSack: real,
    waterVolumePerSack: real,
    sandCansPerSack: real,
    gravelCansPerSack: real)

  /** The record the engine returns. */
  datatype DosageResults = DosageResults(
    fc28: real,
    waterConsumption: real,
    waterCementRatio: real,
    cementContent: real,
    totalAggregateMass: real,
    sandMassDry: real,
    gravelMassDry: real,
    sandMassDryCorrected: real,
    gravelMassDryCorrected: real,
    sandMassWet: real,
    waterCorrected: real,
    perM3: MaterialAmounts,
    total: MaterialAmounts,
    weightTrace: Trace,
    traceRatio: Trace,
    sackTrace: SackTrace)

  /** The three tiers carry 4.0, 5.5 and 7.0 MPa, in increasing order of margin. */
  lemma DeviationTiers()
    ensures Rigoroso.Margin() == 4.0 && Razoavel.Margin() == 5.5 && Regular.Margin() == 7.0
    ensures Rigoroso.Margin() < Razoavel.Margin() < Regular.Margin()
  {
  }
}

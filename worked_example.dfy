/** The default input record of the application's form, worked through the engine. */
module WorkedExample {
  import opened Types
  import opened Constants
  import opened DosageCalculator

  /** fck 25 MPa with reasonable control, slump 60 mm, CP-32 cement at 3.1 kg/L,
      19 mm gravel, sand at 3 % moisture, alphas 50/40/60 %, ordinary structure and
      exposure, 10 m3. */
  predicate IsDefault(inputs: DosageInputs)
  {
    && inputs.volumeTotal == 10.0 && inputs.fck == 25.0 && inputs.sdControl == Razoavel
    && inputs.slump == 60.0 && inputs.cementClass == CP32
    && inputs.cementSpecificMass == DEFAULT_CEMENT_SPECIFIC_MASS && inputs.cementUnitMass == 1.4
    && inputs.dmc == 19.0
    && inputs.sandSpecificMass == 2.63 && inputs.sandUnitMass == 1.5 && inputs.sandMoisture == 3.0
    && inputs.gravelSpecificMass == 2.65 && inputs.gravelUnitMass == 1.45
    && inputs.alphaS == 50.0 && inputs.alphaM == 40.0 && inputs.alphaR == 60.0
    && inputs.exposure == ExposureCondition.Comum && inputs.structureType == StructureType.Comum
  }

  /** Slump 60 mm and 19 mm gravel are tabulated: 193 L. */
  lemma DefaultWaterDemand(slump: real, dmax: real)
    requires slump == 60.0 && dmax == 19.0
    ensures GetWaterContent(slump, dmax) == 193.0
  {
    assert WATER_TABLE[5].slump == slump && DMAX_KEYS[1] == dmax;
    TabulatedLookup(5, 1);
    Slump60Cell();
  }

  /** For the defaults, fc28 is 34.075 MPa and the strength ratio 21 / 45.075 = 280/601
      lies below the 0.50 ceiling and governs. */
  lemma DefaultStrengthGoverns(inputs: DosageInputs)
    requires IsDefault(inputs)
    ensures Fc28(inputs.fck, inputs.sdControl) == 34.075
    ensures WaterCementRatio(inputs) == 280.0 / 601.0 < Durability(inputs.structureType, inputs.exposure)
  {
    assert StrengthRatio(CementConstants(CP32), 34.075) == 280.0 / 601.0;
  }

  /** 193 L at the ratio 280/601 needs 115993/280 kg (about 414.26 kg) of cement. */
  lemma DefaultCementContent(water: real, ratio: real)
    requires water == 193.0 && ratio == 280.0 / 601.0
    ensures CementContent(water, ratio) == 115993.0 / 280.0
  {
    assert (115993.0 / 280.0) * ratio == water;
  }

  /** With that cement and water, the aggregate mass is positive and method B's 40 %
      lies strictly between methods A and C, so it is the median sand fraction. */
  lemma DefaultMedianIsMethodB(inputs: DosageInputs, cement: real, water: real)
    requires IsDefault(inputs) && cement == 115993.0 / 280.0 && water == 193.0
    ensures var m := TotalAggregateMass(cement, inputs.cementSpecificMass, water,
      MeanSpecificMass(inputs.sandSpecificMass, inputs.gravelSpecificMass));
      && m > 0.0
      && SandRatioA(inputs.alphaS, cement, m) < 0.4 < SandRatioC(inputs.alphaR, cement, m, water)
      && Median3(SandRatioA(inputs.alphaS, cement, m), SandRatioB(inputs.alphaM, m),
           SandRatioC(inputs.alphaR, cement, m, water)) == 0.4
  {
  }

  /** The defaults are well defined: every divisor of the engine is non-zero. */
  lemma DefaultWellDefined(inputs: DosageInputs)
    requires IsDefault(inputs)
    ensures WellDefined(inputs)
  {
    DefaultWaterDemand(inputs.slump, inputs.dmc);
    DefaultStrengthGoverns(inputs);
    DefaultCementContent(193.0, 280.0 / 601.0);
    DefaultMedianIsMethodB(inputs, 115993.0 / 280.0, 193.0);
  }

  /** CP-25 cement at fck 10 MPa under rigorous control, for a thin element in an
      ordinary environment: fc28 is 16.6 MPa, the strength ratio 17 / 25.6 exceeds the
      0.45 ceiling, and the ceiling governs. */
  lemma DurabilityCeilingGoverns(inputs: DosageInputs)
    requires inputs.cementClass == CP25 && inputs.fck == 10.0 && inputs.sdControl == Rigoroso
    requires inputs.structureType == Delgada && inputs.exposure == ExposureCondition.Comum
    ensures Fc28(inputs.fck, inputs.sdControl) == 16.6
    ensures Durability(inputs.structureType, inputs.exposure)
         < StrengthRatio(CementConstants(inputs.cementClass), Fc28(inputs.fck, inputs.sdControl))
    ensures WaterCementRatio(inputs) == 0.45
  {
  }
}

/** `calculateGoldPurity`: re-alloying a mass of gold from one karat to
    another while keeping its pure-gold content. */
module Purity {
  import opened Common
  import opened StandardTable

  /** `MixCalculation`: the record the conversion returns (grams). */
  datatype MixCalculation = MixCalculation(goldWeight: real, copperWeight: real, silverWeight: real, totalWeight: real)

  /** The message of the `Error` thrown for a karat missing from the table. */
  const InvalidKaratMessage: string := "Invalid karat value"

  /** The straight-line arithmetic of the conversion, for the percentages of
      the two karats: the pure gold of the input, the total at which that gold
      makes up `desiredPercentage`, and the difference between that total and
      the input weight, split evenly between copper and silver. */
  function Convert(weight: real, currentPercentage: real, desiredPercentage: real): (m: MixCalculation)
    requires desiredPercentage > 0.0
    ensures m.goldWeight == weight * currentPercentage / 100.0
    // the pure gold is the desired percentage of the new total
    ensures m.totalWeight * desiredPercentage / 100.0 == m.goldWeight
    ensures m.copperWeight == m.silverWeight
    ensures m.copperWeight + m.silverWeight == m.totalWeight - weight
  {
    var pureGold := (weight * currentPercentage) / 100.0;
    var totalWeight := (pureGold * 100.0) / desiredPercentage;
    var additionalWeight := totalWeight - weight;
    MixCalculation(pureGold, additionalWeight * 0.5, additionalWeight * 0.5, totalWeight)
  }

  /** `calculateGoldPurity`: converts `weight` grams at `currentKarat` into
      the blend at `desiredKarat` that holds the same pure gold. No weight is
      rejected: the only failure is a karat the table does not list. */
  function CalculateGoldPurity(weight: real, currentKarat: int, desiredKarat: int): (r: Result<MixCalculation>)
    ensures r.Err? <==> currentKarat !in Karats || desiredKarat !in Karats
    ensures r.Err? ==> r.message == InvalidKaratMessage
    ensures r.Ok? ==> r.value == Convert(weight, PercentageOf(currentKarat), PercentageOf(desiredKarat))
  {
    var current := Find(GoldStandards(), currentKarat);
    var desired := Find(GoldStandards(), desiredKarat);
    FindResolvesExactlyTheKarats(currentKarat);
    FindResolvesExactlyTheKarats(desiredKarat);
    if current.None? || desired.None? then
      Err(InvalidKaratMessage)
    else
      Ok(Convert(weight, current.value.percentage, desired.value.percentage))
  }

  /** The new total is the input weight scaled by the ratio of the two
      percentages. */
  lemma TotalIsScaledWeight(weight: real, currentPercentage: real, desiredPercentage: real)
    requires desiredPercentage > 0.0
    ensures Convert(weight, currentPercentage, desiredPercentage).totalWeight
         == weight * currentPercentage / desiredPercentage
  {
    var m := Convert(weight, currentPercentage, desiredPercentage);
    assert m.totalWeight * desiredPercentage == weight * currentPercentage;
    calc {
      m.totalWeight;
      (m.totalWeight * desiredPercentage) / desiredPercentage;
      (weight * currentPercentage) / desiredPercentage;
    }
  }

  /** Converting the total of a conversion back to the first percentage
      recovers the input weight. */
  lemma ConvertRoundTrip(weight: real, percentageA: real, percentageB: real)
    requires percentageA > 0.0 && percentageB > 0.0
    ensures Convert(Convert(weight, percentageA, percentageB).totalWeight, percentageB, percentageA).totalWeight == weight
  {
    var there := Convert(weight, percentageA, percentageB).totalWeight;
    TotalIsScaledWeight(weight, percentageA, percentageB);
    TotalIsScaledWeight(there, percentageB, percentageA);
    calc {
      there * percentageB / percentageA;
      (weight * percentageA / percentageB) * percentageB / percentageA;
      weight;
    }
  }

  /** Converting the total of an A-to-B conversion back from B to A gives a
      total equal to the original weight. */
  lemma RoundTrip(weight: real, karatA: int, karatB: int)
    requires karatA in Karats && karatB in Karats
    ensures CalculateGoldPurity(weight, karatA, karatB).Ok?
    ensures CalculateGoldPurity(CalculateGoldPurity(weight, karatA, karatB).value.totalWeight, karatB, karatA)
         .Ok?
    ensures CalculateGoldPurity(CalculateGoldPurity(weight, karatA, karatB).value.totalWeight, karatB, karatA)
         .value.totalWeight == weight
  {
    ConvertRoundTrip(weight, PercentageOf(karatA), PercentageOf(karatB));
  }

  /** Converting to the same percentage keeps the weight and adds no
      alloy. */
  lemma ConvertSamePercentage(weight: real, percentage: real)
    requires percentage > 0.0
    ensures Convert(weight, percentage, percentage).totalWeight == weight
    ensures Convert(weight, percentage, percentage).copperWeight == 0.0
    ensures Convert(weight, percentage, percentage).silverWeight == 0.0
  {
    TotalIsScaledWeight(weight, percentage, percentage);
    assert weight * percentage / percentage == weight;
  }

  /** Converting to the same karat changes nothing: the total is the input
      weight and no copper or silver is added. */
  lemma SameKaratIsIdentity(weight: real, karat: int)
    requires karat in Karats
    ensures CalculateGoldPurity(weight, karat, karat).Ok?
    ensures CalculateGoldPurity(weight, karat, karat).value.totalWeight == weight
    ensures CalculateGoldPurity(weight, karat, karat).value.copperWeight == 0.0
    ensures CalculateGoldPurity(weight, karat, karat).value.silverWeight == 0.0
  {
    ConvertSamePercentage(weight, PercentageOf(karat));
  }

  /** The total moves away from the input weight in the direction opposite
      to the change of percentage, for a non-negative weight. */
  lemma TotalAgainstPercentage(weight: real, currentPercentage: real, desiredPercentage: real)
    requires desiredPercentage > 0.0 && weight >= 0.0
    ensures desiredPercentage <= currentPercentage ==> Convert(weight, currentPercentage, desiredPercentage).totalWeight >= weight
    ensures currentPercentage <= desiredPercentage ==> Convert(weight, currentPercentage, desiredPercentage).totalWeight <= weight
  {
    TotalIsScaledWeight(weight, currentPercentage, desiredPercentage);
    if desiredPercentage <= currentPercentage {
      assert weight * currentPercentage >= weight * desiredPercentage;
      assert weight * currentPercentage / desiredPercentage >= weight * desiredPercentage / desiredPercentage;
    } else {
      assert weight * currentPercentage <= weight * desiredPercentage;
      assert weight * currentPercentage / desiredPercentage <= weight * desiredPercentage / desiredPercentage;
    }
  }

  /** A lower karat never has a higher percentage. */
  lemma PercentageFollowsKarat(lower: int, higher: int)
    requires lower in Karats && higher in Karats && lower <= higher
    ensures PercentageOf(lower) <= PercentageOf(higher)
  {
    var t := GoldStandards();
    var i :| 0 <= i < |t| && t[i].karat == lower && t[i].percentage == PercentageOf(lower);
    var j :| 0 <= j < |t| && t[j].karat == higher && t[j].percentage == PercentageOf(higher);
    KaratOrderIsPercentageOrder(i, j);
  }

  /** Lowering the karat of a non-negative weight adds alloy: the total grows
      and both alloy masses are non-negative. */
  lemma DilutionAddsAlloy(weight: real, currentKarat: int, desiredKarat: int)
    requires currentKarat in Karats && desiredKarat in Karats
    requires desiredKarat <= currentKarat && weight >= 0.0
    ensures CalculateGoldPurity(weight, currentKarat, desiredKarat).Ok?
    ensures CalculateGoldPurity(weight, currentKarat, desiredKarat).value.totalWeight >= weight
    ensures CalculateGoldPurity(weight, currentKarat, desiredKarat).value.copperWeight >= 0.0
    ensures CalculateGoldPurity(weight, currentKarat, desiredKarat).value.silverWeight >= 0.0
  {
    PercentageFollowsKarat(desiredKarat, currentKarat);
    TotalAgainstPercentage(weight, PercentageOf(currentKarat), PercentageOf(desiredKarat));
  }

  /** Raising the karat of a non-negative weight removes alloy: the total
      shrinks and both alloy masses are at most zero. */
  lemma EnrichmentRemovesAlloy(weight: real, currentKarat: int, desiredKarat: int)
    requires currentKarat in Karats && desiredKarat in Karats
    requires currentKarat <= desiredKarat && weight >= 0.0
    ensures CalculateGoldPurity(weight, currentKarat, desiredKarat).Ok?
    ensures CalculateGoldPurity(weight, currentKarat, desiredKarat).value.totalWeight <= weight
    ensures CalculateGoldPurity(weight, currentKarat, desiredKarat).value.copperWeight <= 0.0
    ensures CalculateGoldPurity(weight, currentKarat, desiredKarat).value.silverWeight <= 0.0
  {
    PercentageFollowsKarat(currentKarat, desiredKarat);
    TotalAgainstPercentage(weight, PercentageOf(currentKarat), PercentageOf(desiredKarat));
  }

  /** The three parts of the record do not add up to its total: since the
      alloy is measured from the input weight rather than from the pure gold,
      the parts fall short of the total by the input's non-gold mass. */
  lemma PartsMissTotalByNonGoldInput(weight: real, currentKarat: int, desiredKarat: int)
    requires currentKarat in Karats && desiredKarat in Karats
    ensures CalculateGoldPurity(weight, currentKarat, desiredKarat).Ok?
    ensures var m := CalculateGoldPurity(weight, currentKarat, desiredKarat).value;
            m.goldWeight + m.copperWeight + m.silverWeight == m.totalWeight - (weight - m.goldWeight)
    ensures var m := CalculateGoldPurity(weight, currentKarat, desiredKarat).value;
            weight != 0.0 ==> m.goldWeight + m.copperWeight + m.silverWeight != m.totalWeight
  {
    PercentageBelowPure(currentKarat);
    if weight != 0.0 {
      ConvertPartsMissTotal(weight, PercentageOf(currentKarat), PercentageOf(desiredKarat));
    }
  }

  /** No karat of the table is pure gold: every percentage is below 100. */
  lemma PercentageBelowPure(k: int)
    requires k in Karats
    ensures PercentageOf(k) < 100.0
  {
    var t := GoldStandards();
    var i :| 0 <= i < |t| && t[i].karat == k && t[i].percentage == PercentageOf(k);
    assert t[i].percentage <= 99.99;
  }

  /** From a percentage below 100, a non-zero weight holds non-gold mass, so
      the three parts of the record miss its total. */
  lemma ConvertPartsMissTotal(weight: real, currentPercentage: real, desiredPercentage: real)
    requires desiredPercentage > 0.0 && currentPercentage < 100.0 && weight != 0.0
    ensures var m := Convert(weight, currentPercentage, desiredPercentage);
            m.goldWeight + m.copperWeight + m.silverWeight != m.totalWeight
  {
    assert weight * currentPercentage / 100.0 != weight;
  }

  /** 10 g of 24K taken to 18K: 9.999 g of gold in 13.332 g, with 1.666 g
      each of copper and silver. The parts add up to 13.331 g, not 13.332 g. */
  lemma Example24KTo18K()
    ensures CalculateGoldPurity(10.0, 24, 18) == Ok(MixCalculation(9.999, 1.666, 1.666, 13.332))
  {
    PercentageOfRow(0);
    PercentageOfRow(6);
  }

  /** 10 g of 18K taken to 24K: 7.5 g of gold in 7.5 * 100 / 99.99 g, so the
      alloy masses are negative. */
  lemma Example18KTo24K()
    ensures CalculateGoldPurity(10.0, 18, 24).Ok?
    ensures CalculateGoldPurity(10.0, 18, 24).value.goldWeight == 7.5
    ensures CalculateGoldPurity(10.0, 18, 24).value.totalWeight == 7.5 * 100.0 / 99.99
    ensures CalculateGoldPurity(10.0, 18, 24).value.copperWeight < 0.0
  {
    PercentageOfRow(0);
    PercentageOfRow(6);
  }

  /** 13K is not in the table, so the conversion fails. */
  lemma UnknownKaratFails()
    ensures CalculateGoldPurity(10.0, 13, 24) == Err(InvalidKaratMessage)
  {
  }

  /** A negative weight is not rejected: it yields a record of negative
      masses. */
  lemma NegativeWeightAccepted()
    ensures CalculateGoldPurity(-5.0, 18, 24).Ok?
    ensures CalculateGoldPurity(-5.0, 18, 24).value.goldWeight == -3.75
  {
    PercentageOfRow(6);
  }
}

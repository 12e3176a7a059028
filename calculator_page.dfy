/** The gold calculator page: its form state and the two click handlers that
    run the purity conversion and the mix classification and store what they
    compute. */
module CalculatorPage {
  import opened Common
  import opened StandardTable
  import opened Purity
  import opened ClosestKarat

  /** The alert shown when a handler catches an error. */
  const CalculationFailedMessage: string := "Gagal menghitung. Periksa kembali input Anda."

  /** The alert shown when the mix percentages do not add up to 100. */
  const MixSumMessage: string := "Total campuran harus 100%"

  /** The five metal fields of the mix form, each as `parseFloat` reads it:
      `None` for text that does not parse as a number (an empty field
      included). */
  datatype MixInputs = MixInputs(gold: Option<real>, copper: Option<real>, silver: Option<real>,
                                 platinum: Option<real>, paladium: Option<real>)
  {
    /** The field of one metal. */
    function Get(metal: Metal): Option<real>
    {
      match metal
      case Gold => gold
      case Copper => copper
      case Silver => silver
      case Platinum => platinum
      case Paladium => paladium
    }

    /** The inputs with the field of one metal replaced. */
    function With(metal: Metal, v: Option<real>): (m: MixInputs)
      ensures m.Get(metal) == v
      ensures forall other :: other != metal ==> m.Get(other) == Get(other)
    {
      match metal
      case Gold => this.(gold := v)
      case Copper => this.(copper := v)
      case Silver => this.(silver := v)
      case Platinum => this.(platinum := v)
      case Paladium => this.(paladium := v)
    }
  }

  datatype Metal = Gold | Copper | Silver | Platinum | Paladium

  /** `parseFloat(field) || 0`: a field that does not parse counts as 0. */
  function OrZero(v: Option<real>): (x: real)
    ensures v.None? ==> x == 0.0
    ensures v.Some? ==> x == v.value
  {
    if v.Some? then v.value else 0.0
  }

  /** The sum of the five fields, each read with `OrZero`: a form with no
      parsed field totals 0, and when no field is negative the total is at
      least each field's value. */
  function MixTotal(m: MixInputs): (total: real)
    ensures (forall metal :: m.Get(metal).None?) ==> total == 0.0
    ensures (forall metal :: OrZero(m.Get(metal)) >= 0.0) ==>
              forall metal :: OrZero(m.Get(metal)) <= total
  {
    assert m.Get(Gold) == m.gold && m.Get(Copper) == m.copper && m.Get(Silver) == m.silver;
    assert m.Get(Platinum) == m.platinum && m.Get(Paladium) == m.paladium;
    OrZero(m.gold) + OrZero(m.copper) + OrZero(m.silver) + OrZero(m.platinum) + OrZero(m.paladium)
  }

  /** The tolerance check: a total passes unless it is more than 0.1 away
      from 100, so exactly the totals from 99.9 to 100.1 inclusive pass. */
  function MixAccepted(total: real): (ok: bool)
    ensures ok <==> 99.9 <= total <= 100.1
  {
    !(Abs(total - 100.0) > 0.1)
  }

  /** A field that does not parse adds exactly what a field holding 0 adds,
      and every other field adds its parsed value. */
  lemma UnparsedFieldCountsAsZero(m: MixInputs, metal: Metal)
    ensures MixTotal(m.With(metal, None)) == MixTotal(m.With(metal, Some(0.0)))
    ensures MixTotal(m.With(metal, None)) + OrZero(m.Get(metal)) == MixTotal(m)
  {
  }

  /** Gold 60, silver 20 and copper 19 add up to 99, which is rejected. */
  lemma NinetyNinePercentRejected()
    ensures !MixAccepted(MixTotal(MixInputs(Some(60.0), Some(19.0), Some(20.0), None, None)))
  {
  }

  /** The closest-karat scan that `handleMixCalculate` writes out inline: the
      same loop as `CalculateWeightByMix`, returning the row rather than its
      karat. */
  method ScanForClosestKarat(goldPercentage: real) returns (closestKarat: GoldStandard)
    ensures IsNearestKarat(goldPercentage, closestKarat.karat)
  {
    var standards := GoldStandards();
    closestKarat := standards[0];
    var minDiff := Abs(standards[0].percentage - goldPercentage);
    ghost var at: nat := 0;
    for i := 0 to |standards|
      invariant at < |standards| && closestKarat == standards[at]
      invariant minDiff == Distance(closestKarat, goldPercentage)
      invariant at == ClosestIndex(standards, goldPercentage, if i == 0 then 1 else i)
    {
      var diff := Abs(standards[i].percentage - goldPercentage);
      if diff < minDiff {
        minDiff := diff;
        closestKarat := standards[i];
        at := i;
      }
    }
  }

  /** The page's state: the purity form, the last purity result, the mix form
      and the last mix result (`None` where the page holds `null`). */
  class Calculator {
    var weight: real
    var currentKarat: int
    var desiredKarat: int
    var purityResult: Option<MixCalculation>
    var mixInputs: MixInputs
    var mixResult: Option<int>

    /** The form has no control for the current karat, so it keeps its
        initial value of 18: every purity calculation converts from 18K. */
    ghost predicate Valid()
      reads this
    {
      currentKarat == 18
    }

    /** The page as first rendered: empty fields, karats 18 and 24, no
        results. */
    constructor ()
      ensures Valid()
      ensures weight == 0.0 && currentKarat == 18 && desiredKarat == 24
      ensures purityResult == None && mixResult == None
      ensures mixInputs == MixInputs(None, None, None, None, None)
    {
      weight := 0.0;
      currentKarat := 18;
      desiredKarat := 24;
      purityResult := None;
      mixInputs := MixInputs(None, None, None, None, None);
      mixResult := None;
    }

    /** Typing into the weight field. */
    method SetWeight(w: real)
      requires Valid()
      modifies this`weight
      ensures Valid() && weight == w
    {
      weight := w;
    }

    /** Choosing a karat in the desired-karat select. */
    method SetDesiredKarat(k: int)
      requires Valid()
      modifies this`desiredKarat
      ensures Valid() && desiredKarat == k
    {
      desiredKarat := k;
    }

    /** Typing into one of the mix fields. */
    method SetMixInput(metal: Metal, v: Option<real>)
      requires Valid()
      modifies this`mixInputs
      ensures Valid() && mixInputs == old(mixInputs).With(metal, v)
    {
      mixInputs := mixInputs.With(metal, v);
    }

    /** `handlePurityCalculate`: converts the weight from 18K to the desired
        karat. On success the result is stored; when the conversion throws,
        the error is caught, an alert is shown and the last result stays. */
    method HandlePurityCalculate() returns (alert: Option<string>)
      requires Valid()
      modifies this`purityResult
      ensures Valid()
      ensures alert.Some? <==> desiredKarat !in Karats
      ensures alert.Some? ==> alert.value == CalculationFailedMessage && purityResult == old(purityResult)
      ensures alert.None? ==> purityResult == Some(CalculateGoldPurity(weight, 18, desiredKarat).value)
    {
      var result := CalculateGoldPurity(weight, currentKarat, desiredKarat);
      if result.Ok? {
        purityResult := Some(result.value);
        alert := None;
      } else {
        alert := Some(CalculationFailedMessage);
      }
    }

    /** `handleMixCalculate`: checks that the five percentages add up to 100
        within 0.1 and, if they do, stores the karat nearest to the gold
        percentage. */
    method HandleMixCalculate() returns (alert: Option<string>)
      requires Valid()
      modifies this`mixResult
      ensures Valid()
      ensures alert.Some? <==> !MixAccepted(MixTotal(mixInputs))
      ensures alert.Some? ==> alert.value == MixSumMessage && mixResult == old(mixResult)
      ensures alert.None? ==> mixResult == Some(NearestKarat(OrZero(mixInputs.gold)))
    {
      var inputs := mixInputs;
      var goldPercentage := OrZero(inputs.gold);
      var totalPercentage := goldPercentage + OrZero(inputs.copper) + OrZero(inputs.silver)
                             + OrZero(inputs.platinum) + OrZero(inputs.paladium);
      assert totalPercentage == MixTotal(inputs);
      if !MixAccepted(totalPercentage) {
        alert := Some(MixSumMessage);
        return;
      }

      var closestKarat := ScanForClosestKarat(goldPercentage);
      NearestKaratIsTheOnly(goldPercentage, closestKarat.karat);
      mixResult := Some(closestKarat.karat);
      alert := None;
    }
  }
}

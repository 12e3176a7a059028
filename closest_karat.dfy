/** `calculateWeightByMix`: classifying a gold percentage to the karat of the
    table whose nominal percentage is closest to it. */
module ClosestKarat {
  import opened Common
  import opened StandardTable

  /** How far a row's nominal percentage is from `goldPercentage`. */
  function Distance(standard: GoldStandard, goldPercentage: real): (d: real)
    ensures d >= 0.0
    ensures d == 0.0 <==> standard.percentage == goldPercentage
  {
    Abs(standard.percentage - goldPercentage)
  }

  /** Among the first `n` rows of `t`, row `i` is at minimal distance from
      `goldPercentage`, and every row before it is strictly farther: the
      earliest of the closest rows. */
  ghost predicate IsClosest(t: seq<GoldStandard>, goldPercentage: real, n: nat, i: nat)
  {
    i < n <= |t| &&
    (forall j :: 0 <= j < n ==> Distance(t[i], goldPercentage) <= Distance(t[j], goldPercentage)) &&
    (forall j :: 0 <= j < i ==> Distance(t[j], goldPercentage) > Distance(t[i], goldPercentage))
  }

  /** At most one row is the earliest closest one. */
  lemma ClosestIsUnique(t: seq<GoldStandard>, goldPercentage: real, n: nat, i: nat, j: nat)
    requires IsClosest(t, goldPercentage, n, i) && IsClosest(t, goldPercentage, n, j)
    ensures i == j
  {
    // Both rows are at minimal distance, so their distances are equal; the
    // later of two distinct indices would then not be strictly closer.
    assert Distance(t[i], goldPercentage) == Distance(t[j], goldPercentage);
  }

  /** The index the scan over the first `n` rows ends on: a later row
      replaces the current choice only when it is strictly closer. */
  function ClosestIndex(t: seq<GoldStandard>, goldPercentage: real, n: nat): (i: nat)
    requires 0 < n <= |t|
    ensures IsClosest(t, goldPercentage, n, i)
    decreases n
  {
    if n == 1 then 0
    else
      var i := ClosestIndex(t, goldPercentage, n - 1);
      if Distance(t[n - 1], goldPercentage) < Distance(t[i], goldPercentage) then n - 1 else i
  }

  /** `k` is the karat of the earliest row of the table closest to
      `goldPercentage`. */
  ghost predicate IsNearestKarat(goldPercentage: real, k: int)
  {
    exists i: nat :: IsClosest(GoldStandards(), goldPercentage, |GoldStandards()|, i) && GoldStandards()[i].karat == k
  }

  /** The karat the classification returns for `goldPercentage`. */
  function NearestKarat(goldPercentage: real): (k: int)
    ensures k in Karats
    ensures IsNearestKarat(goldPercentage, k)
  {
    var i := ClosestIndex(GoldStandards(), goldPercentage, |GoldStandards()|);
    GoldStandards()[i].karat
  }

  /** The nearest karat is well defined: a karat is the earliest closest one
      exactly when it is the one `NearestKarat` returns. */
  lemma NearestKaratIsTheOnly(goldPercentage: real, k: int)
    ensures IsNearestKarat(goldPercentage, k) <==> k == NearestKarat(goldPercentage)
  {
    var t := GoldStandards();
    var n := ClosestIndex(t, goldPercentage, |t|);
    if IsNearestKarat(goldPercentage, k) {
      var i: nat :| IsClosest(t, goldPercentage, |t|, i) && t[i].karat == k;
      ClosestIsUnique(t, goldPercentage, |t|, i, n);
    }
  }

  /** `calculateWeightByMix`: the scan of the table that keeps the first row
      at minimal distance from `goldPercentage`. The other percentages are
      accepted and play no part in the result. */
  method CalculateWeightByMix(goldPercentage: real, copperPercentage: real, silverPercentage: real,
                              platinumPercentage: real := 0.0, paladiumPercentage: real := 0.0)
    returns (karat: int)
    ensures IsNearestKarat(goldPercentage, karat)
  {
    var standards := GoldStandards();
    var closestKarat := standards[0];
    var minDiff := Abs(standards[0].percentage - goldPercentage);
    ghost var at: nat := 0;
    for i := 0 to |standards|
      invariant at < |standards| && closestKarat == standards[at]
      invariant minDiff == Distance(closestKarat, goldPercentage)
      invariant at == ClosestIndex(standards, goldPercentage, if i == 0 then 1 else i)
    {
      var diff := Abs(standards[i].percentage - goldPercentage);
      if diff < minDiff {
        minDiff := diff;
        closestKarat := standards[i];
        at := i;
      }
    }
    karat := closestKarat.karat;
  }

  /** The classification of `goldPercentage` is the karat of any row that is
      the earliest closest one. */
  lemma NearestKaratAt(goldPercentage: real, i: nat)
    requires IsClosest(GoldStandards(), goldPercentage, |GoldStandards()|, i)
    ensures NearestKarat(goldPercentage) == GoldStandards()[i].karat
  {
    var t := GoldStandards();
    ClosestIsUnique(t, goldPercentage, |t|, i, ClosestIndex(t, goldPercentage, |t|));
  }

  /** 75.0 is exactly 18K. */
  lemma ExactMatchIs18K()
    ensures NearestKarat(75.0) == 18
  {
    NearestKaratAt(75.0, 6);
  }

  /** 99.0 is 0.99 from 24K and 3.2 from 23K. */
  lemma NinetyNineIs24K()
    ensures NearestKarat(99.0) == 24
  {
    NearestKaratAt(99.0, 0);
  }

  /** 0 lies below the whole table and goes to its last row, 8K. */
  lemma ZeroIs8K()
    ensures NearestKarat(0.0) == 8
  {
    NearestKaratAt(0.0, 13);
  }

  /** 97.895 is 2.095 from both 24K and 23K; the earlier row, 24K, wins. */
  lemma TieGoesToEarlierRow()
    ensures Distance(GoldStandards()[0], 97.895) == Distance(GoldStandards()[1], 97.895)
    ensures NearestKarat(97.895) == 24
  {
    NearestKaratAt(97.895, 0);
  }
}

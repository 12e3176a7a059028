/** The reference table of gold karats (Indonesian national standard
    SNI 13-3487-2005) and the lookup by karat that the calculator uses. */
module StandardTable {
  import opened Common

  /** One row of the table: a karat, its nominal gold percentage and, for
      18K and above, the acceptance range of the standard (both bounds are 0
      where the standard defines no range). */
  datatype GoldStandard = GoldStandard(karat: int, percentage: real, sniMin: real, sniMax: real)

  /** The karat values of the table, in the order the table lists them. */
  const Karats: seq<int> := [24, 23, 22, 21, 20, 19, 18, 17, 16, 15, 14, 10, 9, 8]

  /** Number of leading rows that carry an acceptance range (24K down to 18K). */
  const RangedRows: nat := 7

  /** Each entry has strictly smaller karat and strictly smaller percentage
      than the entry listed before it. */
  ghost predicate StrictlyDescending(t: seq<GoldStandard>)
  {
    forall i :: 0 < i < |t| ==> t[i - 1].karat > t[i].karat && t[i - 1].percentage > t[i].percentage
  }

  /** Descending step by step means descending between any two positions. */
  lemma {:induction false} DescendingBetween(t: seq<GoldStandard>, i: nat, j: nat)
    requires StrictlyDescending(t)
    requires i < j < |t|
    ensures t[i].karat > t[j].karat && t[i].percentage > t[j].percentage
    decreases j - i
  {
    if i + 1 < j {
      DescendingBetween(t, i, j - 1);
    }
  }

  /** The rows with a range have a positive lower bound and each range ends
      below the start of the range of the row above it; the remaining rows
      have both bounds 0. */
  ghost predicate RangesWellFormed(t: seq<GoldStandard>)
  {
    RangedRows <= |t| &&
    (forall i :: 0 <= i < RangedRows ==> 0.0 < t[i].sniMin <= t[i].sniMax) &&
    (forall i :: 0 < i < RangedRows ==> t[i].sniMax < t[i - 1].sniMin) &&
    (forall i :: RangedRows <= i < |t| ==> t[i].sniMin == 0.0 && t[i].sniMax == 0.0)
  }

  /** `GOLD_STANDARDS`: the fourteen rows, from 24K down to 8K. */
  function GoldStandards(): (t: seq<GoldStandard>)
    ensures |t| == 14
    ensures t[0].percentage == 99.99 && t[13].percentage == 33.3
    ensures forall i :: 0 <= i < |t| ==> t[i].karat == Karats[i] && 0.0 < t[i].percentage <= 100.0
  {
    [ GoldStandard(24, 99.99, 99.00, 99.99),
      GoldStandard(23, 95.8, 94.80, 98.89),
      GoldStandard(22, 91.6, 90.60, 94.79),
      GoldStandard(21, 87.5, 86.50, 90.59),
      GoldStandard(20, 83.3, 82.30, 86.49),
      GoldStandard(19, 79.1, 78.20, 82.29),
      GoldStandard(18, 75.0, 75.40, 78.19),
      GoldStandard(17, 70.8, 0.0, 0.0),
      GoldStandard(16, 66.6, 0.0, 0.0),
      GoldStandard(15, 62.5, 0.0, 0.0),
      GoldStandard(14, 58.5, 0.0, 0.0),
      GoldStandard(10, 41.7, 0.0, 0.0),
      GoldStandard(9, 37.5, 0.0, 0.0),
      GoldStandard(8, 33.3, 0.0, 0.0) ]
  }

  /** Karats and percentages strictly decrease in the order the table lists
      them. */
  lemma StandardsDescending()
    ensures StrictlyDescending(GoldStandards())
  {
    var t := GoldStandards();
    forall i | 0 < i < |t|
      ensures t[i - 1].karat > t[i].karat && t[i - 1].percentage > t[i].percentage
    {
      assert t[i - 1].karat == Karats[i - 1] && t[i].karat == Karats[i];
    }
  }

  /** The acceptance ranges are well formed for 24K down to 18K and absent
      below. */
  lemma StandardRanges()
    ensures RangesWellFormed(GoldStandards())
  {
    var t := GoldStandards();
    forall i | 0 <= i < RangedRows
      ensures 0.0 < t[i].sniMin <= t[i].sniMax
    {
    }
    forall i | 0 < i < RangedRows
      ensures t[i].sniMax < t[i - 1].sniMin
    {
    }
    forall i | RangedRows <= i < |t|
      ensures t[i].sniMin == 0.0 && t[i].sniMax == 0.0
    {
    }
  }

  /** 24K down to 19K contain their nominal percentage, while 18K's nominal
      75.0 lies below its range's start of 75.40. */
  lemma NominalAgainstRange()
    ensures forall i :: 0 <= i < RangedRows - 1 ==>
              GoldStandards()[i].sniMin <= GoldStandards()[i].percentage <= GoldStandards()[i].sniMax
    ensures GoldStandards()[RangedRows - 1].karat == 18
    ensures GoldStandards()[RangedRows - 1].percentage < GoldStandards()[RangedRows - 1].sniMin
  {
    var t := GoldStandards();
    forall i | 0 <= i < RangedRows - 1
      ensures t[i].sniMin <= t[i].percentage <= t[i].sniMax
    {
    }
  }

  /** `Array.prototype.find` with the predicate `s => s.karat === k`: the
      first row whose karat is `k`, or `None` when there is none. */
  function Find(t: seq<GoldStandard>, k: int): (r: Option<GoldStandard>)
    ensures r.None? <==> forall i :: 0 <= i < |t| ==> t[i].karat != k
    ensures r.Some? ==> exists i :: 0 <= i < |t| && t[i] == r.value && r.value.karat == k
                                    && forall j :: 0 <= j < i ==> t[j].karat != k
    decreases |t|
  {
    if t == [] then None
    else if t[0].karat == k then Some(t[0])
    else
      var r := Find(t[1..], k);
      assert forall i :: 1 <= i < |t| ==> t[i] == t[1..][i - 1];
      r
  }

  /** A karat resolves in the table exactly when it is one of the fourteen
      karat values. */
  lemma FindResolvesExactlyTheKarats(k: int)
    ensures Find(GoldStandards(), k).Some? <==> k in Karats
  {
    var t := GoldStandards();
    if k in Karats {
      var i :| 0 <= i < |Karats| && Karats[i] == k;
      assert t[i].karat == k;
    }
  }

  /** The nominal gold percentage of a karat of the table: that of the row
      `Find` resolves it to. */
  function PercentageOf(k: int): (p: real)
    requires k in Karats
    ensures 0.0 < p <= 100.0
    ensures exists i :: 0 <= i < |GoldStandards()| && GoldStandards()[i].karat == k && GoldStandards()[i].percentage == p
  {
    FindResolvesExactlyTheKarats(k);
    Find(GoldStandards(), k).value.percentage
  }

  /** The percentage `PercentageOf` gives a row's karat is that row's own
      percentage. */
  lemma PercentageOfRow(i: nat)
    requires i < |GoldStandards()|
    ensures GoldStandards()[i].karat in Karats
    ensures PercentageOf(GoldStandards()[i].karat) == GoldStandards()[i].percentage
  {
    var t := GoldStandards();
    var j :| 0 <= j < |t| && t[j].karat == t[i].karat && t[j].percentage == PercentageOf(t[i].karat);
    if j != i {
      KaratsDistinct(i, j);
    }
  }

  /** In the table, the order of karats is the order of percentages. */
  lemma {:induction false} KaratOrderIsPercentageOrder(i: nat, j: nat)
    requires i < |GoldStandards()| && j < |GoldStandards()|
    ensures GoldStandards()[i].karat <= GoldStandards()[j].karat
        <==> GoldStandards()[i].percentage <= GoldStandards()[j].percentage
  {
    var t := GoldStandards();
    StandardsDescending();
    if i < j {
      DescendingBetween(t, i, j);
    } else if j < i {
      DescendingBetween(t, j, i);
    }
  }

  /** Karat values are pairwise distinct, so `Find` returns the only row with
      that karat. */
  lemma KaratsDistinct(i: nat, j: nat)
    requires i < |GoldStandards()| && j < |GoldStandards()| && i != j
    ensures GoldStandards()[i].karat != GoldStandards()[j].karat
  {
    var t := GoldStandards();
    StandardsDescending();
    if i < j {
      DescendingBetween(t, i, j);
    } else {
      DescendingBetween(t, j, i);
    }
  }
}

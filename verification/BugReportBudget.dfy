/** The division of a byte budget among files by weight, with one redistribution of what small files leave. */
module BudgetShares {
  import opened Collections

  /** A trimmable file: its size in bytes and its weight. */
  datatype Item = Item(size: real, weight: real)

  /** What the two passes accumulate. */
  datatype Totals = Totals(budget: real, weight: real, unused: real, oversize: real)

  predicate Positive(items: seq<Item>) {
    forall i :: 0 <= i < |items| ==> items[i].weight > 0.0 && items[i].size >= 0.0
  }

  function Share(item: Item, budget: real, weight: real): real {
    if weight > 0.0 then budget * item.weight / weight else 0.0
  }

  function WeightSum(items: seq<Item>): real {
    if items == [] then 0.0 else WeightSum(Front(items)) + Last(items).weight
  }

  function SizeSum(items: seq<Item>): real {
    if items == [] then 0.0 else SizeSum(Front(items)) + Last(items).size
  }

  /** The budget that files below their share do not need. */
  function UnusedSum(items: seq<Item>, budget: real, weight: real): real {
    if items == [] then 0.0
    else
      var share := Share(Last(items), budget, weight);
      UnusedSum(Front(items), budget, weight) + if Last(items).size <= share then share - Last(items).size else 0.0
  }

  /** The weight of the files above their share. */
  function OversizeSum(items: seq<Item>, budget: real, weight: real): real {
    if items == [] then 0.0
    else
      OversizeSum(Front(items), budget, weight)
      + if Last(items).size <= Share(Last(items), budget, weight) then 0.0 else Last(items).weight
  }

  function TotalsOf(items: seq<Item>, budget: real): Totals {
    var weight := WeightSum(items);
    Totals(budget, weight, UnusedSum(items, budget, weight), OversizeSum(items, budget, weight))
  }

  function FirstPass(item: Item, t: Totals): real {
    var share := Share(item, t.budget, t.weight);
    if item.size <= share then item.size else share
  }

  predicate Redistributes(t: Totals) { t.unused > 0.0 && t.oversize > 0.0 }

  function Allocation(item: Item, t: Totals): real {
    var first := FirstPass(item, t);
    if Redistributes(t) && item.size > first then first + t.unused * (item.weight / t.oversize) else first
  }

  function AllocationSum(items: seq<Item>, t: Totals): real {
    if items == [] then 0.0 else AllocationSum(Front(items), t) + Allocation(Last(items), t)
  }

  function FirstPassSum(items: seq<Item>, t: Totals): real {
    if items == [] then 0.0 else FirstPassSum(Front(items), t) + FirstPass(Last(items), t)
  }

  predicate Oversize(item: Item, t: Totals) { item.size > Share(item, t.budget, t.weight) }

  /** The bytes of the files that are within their share. */
  function FittingSum(items: seq<Item>, t: Totals): real {
    if items == [] then 0.0
    else FittingSum(Front(items), t) + if Oversize(Last(items), t) then 0.0 else Last(items).size
  }

  // ----- sums

  lemma {:induction false} DivideSum(b: real, x: real, y: real, w: real)
    requires w > 0.0
    ensures b * x / w + b * y / w == b * (x + y) / w
  {
    assert b * x + b * y == b * (x + y);
  }

  /** Both passes before redistribution hand out the whole budget: allocated or unused. */
  lemma {:induction false} FirstPassSplits(items: seq<Item>, t: Totals)
    requires t.weight > 0.0
    ensures FirstPassSum(items, t) + UnusedSum(items, t.budget, t.weight) == t.budget * WeightSum(items) / t.weight
  {
    if items == [] {
      assert t.budget * 0.0 == 0.0;
    } else {
      FirstPassSplits(Front(items), t);
      DivideSum(t.budget, WeightSum(Front(items)), Last(items).weight, t.weight);
    }
  }

  lemma {:induction false} ScaleSum(u: real, x: real, y: real, r: real)
    requires r > 0.0
    ensures u * (x / r) + u * (y / r) == u * ((x + y) / r)
  {
    assert x / r + y / r == (x + y) / r;
    assert u * (x / r) + u * (y / r) == u * (x / r + y / r);
  }

  lemma {:induction false} SecondPassAdds(items: seq<Item>, t: Totals)
    requires Redistributes(t)
    ensures AllocationSum(items, t)
            == FirstPassSum(items, t) + t.unused * (OversizeSum(items, t.budget, t.weight) / t.oversize)
  {
    if items == [] {
      assert t.unused * (0.0 / t.oversize) == 0.0;
    } else {
      SecondPassAdds(Front(items), t);
      ScaleSum(t.unused, OversizeSum(Front(items), t.budget, t.weight), Last(items).weight, t.oversize);
    }
  }

  lemma {:induction false} NoSecondPass(items: seq<Item>, t: Totals)
    requires !Redistributes(t)
    ensures AllocationSum(items, t) == FirstPassSum(items, t)
  {
    if items != [] {
      NoSecondPass(Front(items), t);
    }
  }

  lemma {:induction false} SumsAreNonNegative(items: seq<Item>, budget: real, weight: real)
    requires Positive(items)
    ensures WeightSum(items) >= 0.0 && (items != [] ==> WeightSum(items) > 0.0)
    ensures UnusedSum(items, budget, weight) >= 0.0
    ensures OversizeSum(items, budget, weight) >= 0.0
  {
    if items != [] {
      SumsAreNonNegative(Front(items), budget, weight);
    }
  }

  /** The weight of oversize files is zero exactly when there is none. */
  lemma {:induction false} OversizeMeans(items: seq<Item>, t: Totals)
    requires Positive(items)
    ensures OversizeSum(items, t.budget, t.weight) > 0.0 <==> exists i :: 0 <= i < |items| && Oversize(items[i], t)
    ensures OversizeSum(items, t.budget, t.weight) == 0.0 ==> FirstPassSum(items, t) == SizeSum(items)
  {
    if items != [] {
      OversizeMeans(Front(items), t);
      SumsAreNonNegative(Front(items), t.budget, t.weight);
      if exists i :: 0 <= i < |Front(items)| && Oversize(Front(items)[i], t) {
        var i :| 0 <= i < |Front(items)| && Oversize(Front(items)[i], t);
        assert Oversize(items[i], t);
      }
      assert items[|items| - 1] == Last(items);
    }
  }

  // ----- conservation

  /** t holds the sums over the items. */
  predicate Counts(items: seq<Item>, t: Totals) {
    && t.weight == WeightSum(items)
    && t.unused == UnusedSum(items, t.budget, t.weight)
    && t.oversize == OversizeSum(items, t.budget, t.weight)
  }

  lemma {:induction false} Cancel(b: real, w: real)
    requires w > 0.0
    ensures b * w / w == b && b * (w / w) == b
  {
    assert w / w == 1.0;
  }

  lemma {:induction false} WholeBudget(items: seq<Item>, t: Totals)
    requires items != [] && Positive(items) && Counts(items, t)
    ensures FirstPassSum(items, t) + t.unused == t.budget
    ensures t.weight > 0.0 && t.unused >= 0.0 && t.oversize >= 0.0
  {
    SumsAreNonNegative(items, t.budget, t.weight);
    FirstPassSplits(items, t);
    Cancel(t.budget, t.weight);
  }

  lemma {:induction false} BothPasses(items: seq<Item>, t: Totals)
    requires Counts(items, t)
    ensures AllocationSum(items, t) == FirstPassSum(items, t) + if Redistributes(t) then t.unused else 0.0
  {
    if Redistributes(t) {
      SecondPassAdds(items, t);
      Cancel(t.unused, t.oversize);
    } else {
      NoSecondPass(items, t);
    }
  }

  lemma {:induction false} Conserved(items: seq<Item>, t: Totals)
    requires items != [] && Positive(items) && Counts(items, t)
    ensures AllocationSum(items, t) <= t.budget
    ensures (exists i :: 0 <= i < |items| && Oversize(items[i], t)) ==> AllocationSum(items, t) == t.budget
    ensures (forall i :: 0 <= i < |items| ==> !Oversize(items[i], t)) ==> AllocationSum(items, t) == SizeSum(items)
  {
    WholeBudget(items, t);
    BothPasses(items, t);
    OversizeMeans(items, t);
  }

  /** Some file is above its share: the allocations use up the budget exactly. None is: each file keeps its size. */
  lemma {:induction false} BudgetIsConserved(items: seq<Item>, budget: real)
    requires items != [] && Positive(items)
    ensures var t := TotalsOf(items, budget);
            && AllocationSum(items, t) <= budget
            && ((exists i :: 0 <= i < |items| && Oversize(items[i], t)) ==> AllocationSum(items, t) == budget)
            && ((forall i :: 0 <= i < |items| ==> !Oversize(items[i], t)) ==>
                  AllocationSum(items, t) == SizeSum(items))
  {
    Conserved(items, TotalsOf(items, budget));
  }

  /** Redistribution lowers no allocation, and gives no file less than nothing. */
  lemma {:induction false} RedistributionNeverLowers(item: Item, t: Totals)
    requires item.weight > 0.0 && item.size >= 0.0 && t.budget >= 0.0 && t.weight > 0.0
    ensures Allocation(item, t) >= FirstPass(item, t) >= 0.0
    ensures !Oversize(item, t) ==> Allocation(item, t) == item.size
  {
    assert t.budget * item.weight >= 0.0;
    assert Share(item, t.budget, t.weight) >= 0.0;
    if Redistributes(t) {
      assert item.weight / t.oversize > 0.0;
      assert t.unused * (item.weight / t.oversize) > 0.0;
    }
  }

  // ----- what an oversize file gets

  lemma {:induction false} FittingAndShares(items: seq<Item>, t: Totals)
    requires t.weight > 0.0
    ensures FirstPassSum(items, t)
            == FittingSum(items, t) + t.budget * OversizeSum(items, t.budget, t.weight) / t.weight
  {
    if items == [] {
      assert t.budget * 0.0 == 0.0;
    } else {
      FittingAndShares(Front(items), t);
      DivideSum(t.budget, OversizeSum(Front(items), t.budget, t.weight), Last(items).weight, t.weight);
    }
  }

  lemma {:induction false} Proportional(b: real, w: real, u: real, r: real, x: real)
    requires w > 0.0 && r > 0.0
    ensures (b * x / w + u * (x / r)) * r == x * (b * r / w + u)
  {
    assert x / r * r == x;
    assert u * (x / r) * r == u * x;
    assert b * x / w == b / w * x && b * r / w == b / w * r;
    assert b / w * x * r == x * (b / w * r);
  }

  /** The shares of the oversize files and the unused budget make up what the fitting files leave. */
  lemma {:induction false} WhatIsLeft(items: seq<Item>, t: Totals)
    requires items != [] && Positive(items) && Counts(items, t)
    ensures t.weight > 0.0 && t.budget * t.oversize / t.weight + t.unused == t.budget - FittingSum(items, t)
  {
    hide FirstPassSum, OversizeSum, UnusedSum, FittingSum, WeightSum;
    WholeBudget(items, t);
    FittingAndShares(items, t);
  }

  lemma {:induction false} OversizeAllocation(item: Item, t: Totals)
    requires Oversize(item, t) && t.weight > 0.0 && t.oversize > 0.0 && t.unused >= 0.0
    ensures Allocation(item, t) * t.oversize == item.weight * (t.budget * t.oversize / t.weight + t.unused)
  {
    var share, extra := t.budget * item.weight / t.weight, t.unused * (item.weight / t.oversize);
    assert t.unused == 0.0 ==> extra == 0.0;
    assert Allocation(item, t) == share + extra;
    Proportional(t.budget, t.weight, t.unused, t.oversize, item.weight);
  }

  lemma {:induction false} SharesTheRest(items: seq<Item>, t: Totals, i: nat)
    requires Positive(items) && Counts(items, t) && i < |items| && Oversize(items[i], t)
    ensures t.oversize > 0.0
    ensures Allocation(items[i], t) * t.oversize == items[i].weight * (t.budget - FittingSum(items, t))
  {
    hide FirstPassSum, OversizeSum, UnusedSum, FittingSum, WeightSum, Allocation;
    OversizeMeans(items, t);
    WholeBudget(items, t);
    WhatIsLeft(items, t);
    OversizeAllocation(items[i], t);
  }

  /**
   * An oversize file gets its part, by weight among the oversize files, of the budget that the files within
   * their share leave.
   */
  lemma {:induction false} OversizeFilesShareTheRest(items: seq<Item>, budget: real, i: nat)
    requires Positive(items) && i < |items| && Oversize(items[i], TotalsOf(items, budget))
    ensures var t := TotalsOf(items, budget);
            && t.oversize > 0.0
            && Allocation(items[i], t) * t.oversize == items[i].weight * (budget - FittingSum(items, t))
  {
    SharesTheRest(items, TotalsOf(items, budget), i);
  }

  // ----- when nothing is trimmed

  ghost predicate NothingIsTrimmed(items: seq<Item>, t: Totals) {
    forall i :: 0 <= i < |items| ==> items[i].size <= Allocation(items[i], t)
  }

  ghost predicate FitsTheRest(items: seq<Item>, t: Totals, i: nat)
    requires i < |items|
  {
    items[i].size * t.oversize <= items[i].weight * (t.budget - FittingSum(items, t))
  }

  lemma {:induction false} FitsWhen(items: seq<Item>, t: Totals, i: nat)
    requires Positive(items) && Counts(items, t) && t.budget >= 0.0 && i < |items|
    ensures items[i].size <= Allocation(items[i], t) <==> !Oversize(items[i], t) || FitsTheRest(items, t, i)
  {
    hide FirstPassSum, OversizeSum, UnusedSum, FittingSum, WeightSum, Allocation, Share;
    WholeBudget(items, t);
    if Oversize(items[i], t) {
      SharesTheRest(items, t, i);
      Scaled(items[i].size, Allocation(items[i], t), t.oversize);
    } else {
      RedistributionNeverLowers(items[i], t);
    }
  }

  /**
   * Nothing is trimmed exactly when each file is within its share, or within its part of what the files
   * within their share leave.
   */
  lemma {:induction false} NothingTrimmedExactlyWhen(items: seq<Item>, budget: real)
    requires Positive(items) && budget >= 0.0
    ensures var t := TotalsOf(items, budget);
            NothingIsTrimmed(items, t) <==>
            forall i :: 0 <= i < |items| && Oversize(items[i], t) ==> FitsTheRest(items, t, i)
  {
    var t := TotalsOf(items, budget);
    forall i | 0 <= i < |items|
      ensures items[i].size <= Allocation(items[i], t) <==> !Oversize(items[i], t) || FitsTheRest(items, t, i)
    {
      FitsWhen(items, t, i);
    }
  }

  lemma {:induction false} Scaled(a: real, b: real, r: real)
    requires r > 0.0
    ensures a <= b <==> a * r <= b * r
  {
    if a > b {
      assert (a - b) * r > 0.0;
    }
    if a <= b {
      assert (b - a) * r >= 0.0;
    }
  }

  lemma {:induction false} OneOversize(items: seq<Item>, t: Totals, j: nat)
    requires j < |items| && forall i :: 0 <= i < |items| ==> (Oversize(items[i], t) <==> i == j)
    ensures OversizeSum(items, t.budget, t.weight) == items[j].weight
    ensures FittingSum(items, t) == SizeSum(items) - items[j].size
  {
    if j == |items| - 1 {
      NoneOversize(Front(items), t);
    } else {
      OneOversize(Front(items), t, j);
      assert Last(items) == items[|items| - 1];
    }
  }

  lemma {:induction false} NoneOversize(items: seq<Item>, t: Totals)
    requires forall i :: 0 <= i < |items| ==> !Oversize(items[i], t)
    ensures OversizeSum(items, t.budget, t.weight) == 0.0
    ensures FittingSum(items, t) == SizeSum(items)
  {
    if items != [] {
      NoneOversize(Front(items), t);
      assert Last(items) == items[|items| - 1];
    }
  }

  lemma {:induction false} OneFits(items: seq<Item>, t: Totals, j: nat)
    requires Positive(items) && Counts(items, t) && t.budget >= 0.0 && j < |items|
    requires forall i :: 0 <= i < |items| ==> (Oversize(items[i], t) <==> i == j)
    ensures FitsTheRest(items, t, j) <==> SizeSum(items) <= t.budget
  {
    hide OversizeSum, UnusedSum, FittingSum, WeightSum, SizeSum, Oversize;
    OneOversize(items, t, j);
    Scaled(items[j].size, t.budget - FittingSum(items, t), items[j].weight);
  }

  /** With at most one file above its share, nothing is trimmed exactly when the files fit the budget. */
  lemma {:induction false} OneOversizeFile(items: seq<Item>, budget: real, j: nat)
    requires Positive(items) && budget >= 0.0 && j < |items|
    requires forall i :: 0 <= i < |items| && i != j ==> !Oversize(items[i], TotalsOf(items, budget))
    ensures NothingIsTrimmed(items, TotalsOf(items, budget)) <==> SizeSum(items) <= budget
  {
    var t := TotalsOf(items, budget);
    NothingTrimmedExactlyWhen(items, budget);
    if Oversize(items[j], t) {
      OneFits(items, t, j);
    } else {
      Conserved(items, t);
    }
  }

  /** Files that fit the budget together may still be trimmed when several are above their share. */
  lemma {:induction false} FittingFilesMayBeTrimmed()
    ensures var items := [Item(0.0, 0.8), Item(900.0, 0.2), Item(210.0, 0.2)];
            && SizeSum(items) <= 1200.0
            && !NothingIsTrimmed(items, TotalsOf(items, 1200.0))
  {
    var a, b, c := Item(0.0, 0.8), Item(900.0, 0.2), Item(210.0, 0.2);
    var items := [a, b, c];
    assert Front(items) == [a, b] && Front([a, b]) == [a] && Front([a]) == [];
    assert WeightSum([a]) == 0.8 && WeightSum([a, b]) == 1.0 && WeightSum(items) == 1.2;
    assert Share(a, 1200.0, 1.2) == 800.0 && Share(b, 1200.0, 1.2) == 200.0 == Share(c, 1200.0, 1.2);
    assert UnusedSum([a], 1200.0, 1.2) == 800.0 && UnusedSum([a, b], 1200.0, 1.2) == 800.0;
    assert OversizeSum([a], 1200.0, 1.2) == 0.0 && OversizeSum([a, b], 1200.0, 1.2) == 0.2;
    var t := TotalsOf(items, 1200.0);
    assert t == Totals(1200.0, 1.2, 800.0, 0.4);
    assert Allocation(b, t) == 600.0;
    assert items[1].size > Allocation(items[1], t);
    assert SizeSum([a]) == 0.0 && SizeSum([a, b]) == 900.0;
  }
}

/** optimizeUpsWithPlates: sorts the rows by quantity, fills plates with
    batches of up to four rows while the plate budget lasts, puts every row
    left over on a plate of its own, and sums up sheets, units and waste. */
module Optimizer {
  import opened Wrappers
  import opened CompositionGenerator
  import opened Items
  import opened Batching
  import opened Allocation

  /** The OptimizationSummary record, fields in the order they are declared. */
  datatype Summary = Summary(
    totalSheets: int, totalProduced: int, totalExcess: int, wastePercentage: real,
    totalPlates: int, totalItems: int, upsCapacity: int)

  /** excess / produced x 100, and 0 when nothing is produced. */
  function WastePercentage(excess: int, produced: int): (w: real)
    ensures produced == 0 ==> w == 0.0
    ensures produced != 0 ==> w * (produced as real) == 100.0 * (excess as real)
  {
    if produced == 0 then 0.0 else (excess as real / produced as real) * 100.0
  }

  /** With non-negative excess that does not exceed what is produced, the
      waste is a percentage between 0 and 100. */
  lemma WastePercentageBounds(excess: int, produced: int)
    requires 0 <= excess <= produced
    ensures 0.0 <= WastePercentage(excess, produced) <= 100.0
  {
    if produced != 0 {
      var p := produced as real;
      var q := excess as real / p;
      assert q * p == excess as real;
      assert (1.0 - q) * p == p - excess as real;
    }
  }

  lemma RecordsCons(p: Plate, plates: seq<Plate>)
    requires WellFormed(p) && forall q :: q in plates ==> WellFormed(q)
    ensures Records([p] + plates) == PlateRecords(p) + Records(plates)
    ensures TotalSheets([p] + plates) == p.sheets + TotalSheets(plates)
  {
    assert ([p] + plates)[1..] == plates;
  }

  lemma AppendAssoc<T>(a: seq<T>, b: seq<T>, c: seq<T>)
    ensures (a + b) + c == a + (b + c)
  {
  }

  /** Printing x more sheets of capacity cap adds x * cap units. */
  lemma AddSheets(cap: int, sheets: int, produced: int, x: int, sheets': int, produced': int)
    requires produced == cap * sheets && sheets' == sheets + x && produced' == produced + x * cap
    ensures produced' == cap * sheets'
  {
  }

  /** The plate the while-loop fills from the first rows of `remaining`, and
      the plan for the rest. */
  lemma PlanStep(remaining: seq<Item>, cap: int, plateCount: int, plateIndex: nat)
    requires cap >= 1 && remaining != [] && plateIndex < plateCount
    requires BestCombo(Compositions(cap, 4), remaining[..BatchSize(|remaining|)], 0).Some?
    ensures var batch := remaining[..BatchSize(|remaining|)];
      var best := BestCombo(Compositions(cap, 4), batch, 0).value;
      var plate := Plate(Batched, plateIndex, batch, best.combo, best.sheets);
      && WellFormed(plate)
      && Records(Plan(remaining, cap, plateCount, plateIndex))
         == PlateRecords(plate) + Records(Plan(remaining[|batch|..], cap, plateCount, plateIndex + 1))
      && TotalSheets(Plan(remaining, cap, plateCount, plateIndex))
         == best.sheets + TotalSheets(Plan(remaining[|batch|..], cap, plateCount, plateIndex + 1))
  {
    var batch := remaining[..BatchSize(|remaining|)];
    var best := BestCombo(Compositions(cap, 4), batch, 0).value;
    var plate := Plate(Batched, plateIndex, batch, best.combo, best.sheets);
    RecordsCons(plate, Plan(remaining[|batch|..], cap, plateCount, plateIndex + 1));
  }

  /** One step of the leftover loop. */
  lemma LeftoversStep(remaining: seq<Item>, j: nat, cap: int, plateIndex: nat)
    requires cap >= 1 && j < |remaining|
    ensures var plate := Plate(Leftover, plateIndex, [remaining[j]], [cap], CeilDiv(remaining[j].qty, cap));
      && WellFormed(plate)
      && Records(Leftovers(remaining[j..], cap, plateIndex))
         == PlateRecords(plate) + Records(Leftovers(remaining[j + 1..], cap, plateIndex + 1))
      && TotalSheets(Leftovers(remaining[j..], cap, plateIndex))
         == plate.sheets + TotalSheets(Leftovers(remaining[j + 1..], cap, plateIndex + 1))
  {
    var plate := Plate(Leftover, plateIndex, [remaining[j]], [cap], CeilDiv(remaining[j].qty, cap));
    assert remaining[j..][1..] == remaining[j + 1..];
    RecordsCons(plate, Leftovers(remaining[j + 1..], cap, plateIndex + 1));
  }

  /** The for-loop that pushes one record per row of a batched plate, all
      labelled with the plate's label and printing on its sheets. */
  method PushPlateRecords(results0: seq<OptimizationResult>, plateItems: seq<Item>, combo: seq<int>,
                          sheets: int, ghost plateIndex: nat, plateLabel: nat)
    returns (results: seq<OptimizationResult>)
    requires |combo| == |plateItems| && plateLabel == PlateLabel(plateIndex)
    ensures results == results0 + PlateRecords(Plate(Batched, plateIndex, plateItems, combo, sheets))
  {
    ghost var plate := Plate(Batched, plateIndex, plateItems, combo, sheets);
    results := results0;
    var i := 0;
    while i < |plateItems|
      invariant 0 <= i <= |plateItems|
      invariant results == results0 + PlateRecords(plate)[..i]
    {
      var item := plateItems[i];
      var ups := combo[i];
      var sheetsNeeded := sheets;
      var produced := sheetsNeeded * ups;
      var excess := produced - item.qty;
      results := results + [OptimizationResult(item.color, item.size, item.qty, plateLabel,
                                               ups, sheetsNeeded, produced, excess)];
      assert PlateRecords(plate)[..i + 1] == PlateRecords(plate)[..i] + [PlateRecords(plate)[i]];
      i := i + 1;
    }
    assert PlateRecords(plate)[..i] == PlateRecords(plate);
  }

  /** What the plan for the sorted rows adds up to: its records list the
      sorted rows, each record prints at least its quantity, and the records
      print capacity x sheets units, at least the total quantity. */
  lemma PlanFacts(items: seq<Item>, cap: int, plateCount: int)
    requires cap >= 1
    ensures var rs := Records(Plan(SortByQtyDesc(items), cap, plateCount, 0));
      && ItemsOf(rs) == SortByQtyDesc(items)
      && (forall r :: r in rs ==>
            && r.optimalUps >= 1
            && r.qtyProduced == r.sheetsNeeded * r.optimalUps
            && r.excess == r.qtyProduced - r.qty >= 0)
      && SumProduced(rs) == cap * TotalSheets(Plan(SortByQtyDesc(items), cap, plateCount, 0))
      && SumProduced(rs) >= SumQty(items)
  {
    var sorted := SortByQtyDesc(items);
    var rs := Records(Plan(sorted, cap, plateCount, 0));
    SortByQtyDescSpec(items);
    PlanCoversItems(sorted, cap, plateCount, 0);
    PlanRecordsBalanced(sorted, cap, plateCount, 0);
    PlanProduced(sorted, cap, plateCount, 0);
    ProducedCoversQty(rs);
  }

  /** The while-loop: as long as rows remain and the plate budget lasts,
      the next (up to) four rows go on a plate with their best composition;
      it stops early when no composition has the batch's length. What it
      leaves is exactly what the plan puts on leftover plates. */
  method PlaceBatches(sortedItems: seq<Item>, upsCombos: seq<seq<int>>, upsPerPlate: int, plateCount: int,
                      results0: seq<OptimizationResult>, summary0: Summary)
    returns (results: seq<OptimizationResult>, summary: Summary, remainingItems: seq<Item>, plateIndex: nat)
    requires upsPerPlate >= 1 && upsCombos == Compositions(upsPerPlate, 4)
    requires summary0.totalProduced == upsPerPlate * summary0.totalSheets
    ensures Plan(remainingItems, upsPerPlate, plateCount, plateIndex) == Leftovers(remainingItems, upsPerPlate, plateIndex)
    ensures results + Records(Leftovers(remainingItems, upsPerPlate, plateIndex))
         == results0 + Records(Plan(sortedItems, upsPerPlate, plateCount, 0))
    ensures summary.totalSheets + TotalSheets(Leftovers(remainingItems, upsPerPlate, plateIndex))
         == summary0.totalSheets + TotalSheets(Plan(sortedItems, upsPerPlate, plateCount, 0))
    ensures summary.totalProduced == upsPerPlate * summary.totalSheets
    ensures summary == summary0.(totalSheets := summary.totalSheets, totalProduced := summary.totalProduced)
  {
    results := results0;
    summary := summary0;
    plateIndex := 0;
    remainingItems := sortedItems;
    while |remainingItems| > 0 && plateIndex < plateCount
      invariant results + Records(Plan(remainingItems, upsPerPlate, plateCount, plateIndex))
             == results0 + Records(Plan(sortedItems, upsPerPlate, plateCount, 0))
      invariant summary.totalSheets + TotalSheets(Plan(remainingItems, upsPerPlate, plateCount, plateIndex))
             == summary0.totalSheets + TotalSheets(Plan(sortedItems, upsPerPlate, plateCount, 0))
      invariant summary.totalProduced == upsPerPlate * summary.totalSheets
      invariant summary == summary0.(totalSheets := summary.totalSheets, totalProduced := summary.totalProduced)
      decreases |remainingItems|
    {
      var plateItems := remainingItems[..BatchSize(|remainingItems|)];
      var bestCombo := BestCombo(upsCombos, plateItems, 0);
      if bestCombo.None? {
        assert Plan(remainingItems, upsPerPlate, plateCount, plateIndex)
            == Leftovers(remainingItems, upsPerPlate, plateIndex);
        return;
      }
      var best := bestCombo.value;
      var plateLabel := PlateLabel(plateIndex);
      PlanStep(remainingItems, upsPerPlate, plateCount, plateIndex);
      ghost var before := results;
      results := PushPlateRecords(results, plateItems, best.combo, best.sheets, plateIndex, plateLabel);
      AppendAssoc(before, PlateRecords(Plate(Batched, plateIndex, plateItems, best.combo, best.sheets)),
                  Records(Plan(remainingItems[|plateItems|..], upsPerPlate, plateCount, plateIndex + 1)));
      var totalSheets := summary.totalSheets + best.sheets;
      var totalProduced := summary.totalProduced + best.sheets * upsPerPlate;
      AddSheets(upsPerPlate, summary.totalSheets, summary.totalProduced, best.sheets, totalSheets, totalProduced);
      summary := summary.(totalSheets := totalSheets, totalProduced := totalProduced);
      remainingItems := remainingItems[|plateItems|..];
      plateIndex := plateIndex + 1;
    }
  }

  /** The loop over the rows left: each on a plate of its own at full
      capacity, with consecutive labels. */
  method PlaceLeftovers(remainingItems: seq<Item>, upsPerPlate: int, plateIndex0: nat,
                        results0: seq<OptimizationResult>, summary0: Summary)
    returns (results: seq<OptimizationResult>, summary: Summary)
    requires upsPerPlate >= 1 && summary0.totalProduced == upsPerPlate * summary0.totalSheets
    ensures results == results0 + Records(Leftovers(remainingItems, upsPerPlate, plateIndex0))
    ensures summary.totalSheets == summary0.totalSheets + TotalSheets(Leftovers(remainingItems, upsPerPlate, plateIndex0))
    ensures summary.totalProduced == upsPerPlate * summary.totalSheets
    ensures summary == summary0.(totalSheets := summary.totalSheets, totalProduced := summary.totalProduced)
  {
    results := results0;
    summary := summary0;
    var plateIndex := plateIndex0;
    var j := 0;
    while j < |remainingItems|
      invariant 0 <= j <= |remainingItems| && plateIndex == plateIndex0 + j
      invariant results + Records(Leftovers(remainingItems[j..], upsPerPlate, plateIndex))
             == results0 + Records(Leftovers(remainingItems, upsPerPlate, plateIndex0))
      invariant summary.totalSheets + TotalSheets(Leftovers(remainingItems[j..], upsPerPlate, plateIndex))
             == summary0.totalSheets + TotalSheets(Leftovers(remainingItems, upsPerPlate, plateIndex0))
      invariant summary.totalProduced == upsPerPlate * summary.totalSheets
      invariant summary == summary0.(totalSheets := summary.totalSheets, totalProduced := summary.totalProduced)
    {
      var item := remainingItems[j];
      var ups := upsPerPlate;
      var sheets := CeilDiv(item.qty, ups);
      var produced := sheets * ups;
      var excess := produced - item.qty;
      var plateLabel := PlateLabel(plateIndex);
      LeftoversStep(remainingItems, j, upsPerPlate, plateIndex);
      ghost var plate := Plate(Leftover, plateIndex, [item], [ups], sheets);
      var record := OptimizationResult(item.color, item.size, item.qty, plateLabel, ups, sheets, produced, excess);
      assert PlateRecords(plate) == [record];
      AppendAssoc(results, [record], Records(Leftovers(remainingItems[j + 1..], upsPerPlate, plateIndex + 1)));
      results := results + [record];
      var totalSheets := summary.totalSheets + sheets;
      var totalProduced := summary.totalProduced + produced;
      AddSheets(upsPerPlate, summary.totalSheets, summary.totalProduced, sheets, totalSheets, totalProduced);
      summary := summary.(totalSheets := totalSheets, totalProduced := totalProduced);
      plateIndex := plateIndex + 1;
      j := j + 1;
    }
    assert remainingItems[j..] == [];
  }

  /** optimizeUpsWithPlates. The records are those of the plan over the rows
      sorted by descending quantity: every row exactly once, in that order;
      every record prints at least its quantity; the summary adds up the
      plates' sheets, the units they print (capacity x sheets), the excess
      over the total quantity and its percentage of the units printed. */
  method OptimizeUpsWithPlates(items: seq<Item>, upsPerPlate: int, plateCount: int)
    returns (results: seq<OptimizationResult>, summary: Summary)
    requires upsPerPlate >= 1
    ensures results == Records(Plan(SortByQtyDesc(items), upsPerPlate, plateCount, 0))
    ensures ItemsOf(results) == SortByQtyDesc(items)
    ensures forall r :: r in results ==>
      && r.optimalUps >= 1
      && r.qtyProduced == r.sheetsNeeded * r.optimalUps
      && r.excess == r.qtyProduced - r.qty >= 0
    ensures summary.totalItems == SumQty(items)
    ensures summary.totalSheets == TotalSheets(Plan(SortByQtyDesc(items), upsPerPlate, plateCount, 0))
    ensures summary.totalProduced == SumProduced(results) == upsPerPlate * summary.totalSheets
    ensures summary.totalExcess == summary.totalProduced - summary.totalItems >= 0
    ensures summary.wastePercentage == WastePercentage(summary.totalExcess, summary.totalProduced)
    ensures summary.totalPlates == plateCount && summary.upsCapacity == upsPerPlate
    ensures (forall x :: x in items ==> x.qty >= 0) ==> 0.0 <= summary.wastePercentage <= 100.0
    ensures items == [] ==> results == [] && summary.totalProduced == 0 && summary.wastePercentage == 0.0
  {
    var sortedItems := SortByQtyDesc(items);
    var totalItems := SumQty(sortedItems);
    var upsCombos := GetUPSCombinations(upsPerPlate, 4);

    results := [];
    summary := Summary(0, 0, 0, 0.0, plateCount, totalItems, upsPerPlate);

    var remainingItems, plateIndex;
    results, summary, remainingItems, plateIndex :=
      PlaceBatches(sortedItems, upsCombos, upsPerPlate, plateCount, results, summary);
    results, summary := PlaceLeftovers(remainingItems, upsPerPlate, plateIndex, results, summary);
    ghost var plan := Plan(sortedItems, upsPerPlate, plateCount, 0);
    assert [] + Records(plan) == Records(plan);
    assert results == Records(plan);
    assert summary.totalSheets == TotalSheets(plan);

    summary := summary.(totalExcess := summary.totalProduced - summary.totalItems);
    summary := summary.(wastePercentage :=
      if summary.totalProduced != 0
      then (summary.totalExcess as real / summary.totalProduced as real) * 100.0
      else 0.0);

    SortByQtyDescSpec(items);
    PlanFacts(items, upsPerPlate, plateCount);
    if forall x :: x in items ==> x.qty >= 0 {
      WastePercentageBounds(summary.totalExcess, summary.totalProduced);
    }
  }
}

/** What optimizeUpsWithPlates produces, as a specification: the sorted rows
    are grouped onto plates — batches of up to four while the plate budget
    lasts and a composition of the batch's length exists, then one row per
    plate at full capacity — and every plate row becomes one result record. */
module Allocation {
  import opened Wrappers
  import opened CompositionGenerator
  import opened Items
  import opened Batching

  datatype Phase = Batched | Leftover

  /** One plate: its 0-based index (the label is PlateLabel(index)), the rows
      on it, the units per sheet of each row, and the sheets it prints. */
  datatype Plate = Plate(phase: Phase, index: nat, items: seq<Item>, ups: seq<int>, sheets: int)

  /** One OptimizationResult record. `plate` is the UTF-16 code of the label. */
  datatype OptimizationResult = OptimizationResult(
    color: string, size: string, qty: int, plate: nat,
    optimalUps: int, sheetsNeeded: int, qtyProduced: int, excess: int)

  function MakeRecord(item: Item, plateIndex: nat, ups: int, sheets: int): OptimizationResult
  {
    var produced := sheets * ups;
    OptimizationResult(item.color, item.size, item.qty, PlateLabel(plateIndex), ups, sheets, produced, produced - item.qty)
  }

  predicate WellFormed(p: Plate)
  {
    |p.ups| == |p.items|
  }

  /** The records the plate's rows produce, in row order. */
  function PlateRecords(p: Plate): seq<OptimizationResult>
    requires WellFormed(p)
  {
    seq(|p.items|, i requires 0 <= i < |p.items| => MakeRecord(p.items[i], p.index, p.ups[i], p.sheets))
  }

  function Records(plates: seq<Plate>): seq<OptimizationResult>
    requires forall p :: p in plates ==> WellFormed(p)
  {
    if plates == [] then [] else PlateRecords(plates[0]) + Records(plates[1..])
  }

  /** The input row a record was made from. */
  function ItemsOf(rs: seq<OptimizationResult>): seq<Item>
  {
    seq(|rs|, i requires 0 <= i < |rs| => Item(rs[i].color, rs[i].size, rs[i].qty))
  }

  function SumProduced(rs: seq<OptimizationResult>): int
  {
    if rs == [] then 0 else rs[0].qtyProduced + SumProduced(rs[1..])
  }

  function TotalSheets(plates: seq<Plate>): int
  {
    if plates == [] then 0 else plates[0].sheets + TotalSheets(plates[1..])
  }

  /** remainingItems.slice(0, 4) takes this many rows. */
  function BatchSize(n: nat): nat
  {
    if n < 4 then n else 4
  }

  /** The leftover loop: each remaining row on its own plate at full capacity. */
  function Leftovers(remaining: seq<Item>, cap: int, plateIndex: nat): (plates: seq<Plate>)
    requires cap >= 1
    ensures |plates| == |remaining|
    ensures forall p :: p in plates ==> WellFormed(p)
    decreases |remaining|
  {
    if remaining == [] then []
    else
      [Plate(Leftover, plateIndex, [remaining[0]], [cap], CeilDiv(remaining[0].qty, cap))]
      + Leftovers(remaining[1..], cap, plateIndex + 1)
  }

  /** The plates optimizeUpsWithPlates fills, starting from plate plateIndex
      with the (sorted) rows still to place. */
  function Plan(remaining: seq<Item>, cap: int, plateCount: int, plateIndex: nat): (plates: seq<Plate>)
    requires cap >= 1
    ensures forall p :: p in plates ==> WellFormed(p)
    decreases |remaining|
  {
    if remaining == [] then []
    else if plateIndex < plateCount then
      var batch := remaining[..BatchSize(|remaining|)];
      var best := BestCombo(Compositions(cap, 4), batch, 0);
      if best.None? then Leftovers(remaining, cap, plateIndex)
      else
        [Plate(Batched, plateIndex, batch, best.value.combo, best.value.sheets)]
        + Plan(remaining[|batch|..], cap, plateCount, plateIndex + 1)
    else Leftovers(remaining, cap, plateIndex)
  }

  /** A batched plate: 1..4 rows, a composition of the capacity of that length,
      the sheets it needs, no more than any other composition of that length
      needs, and strictly fewer than every one that precedes it in the
      enumeration order. */
  ghost predicate IsBatchedPlate(p: Plate, cap: int)
  {
    && 1 <= |p.items| <= 4
    && |p.ups| == |p.items|
    && IsComposition(p.ups, cap, 4)
    && p.sheets == SheetsNeeded(p.items, p.ups)
    && (forall c :: IsComposition(c, cap, 4) && |c| == |p.items| ==> p.sheets <= SheetsNeeded(p.items, c))
    && (forall c :: IsComposition(c, cap, 4) && |c| == |p.items| && LexLess(c, p.ups) ==>
          p.sheets < SheetsNeeded(p.items, c))
  }

  /** A leftover plate: one row at the full capacity. */
  predicate IsLeftoverPlate(p: Plate, cap: int)
  {
    cap >= 1 && |p.items| == 1 && p.ups == [cap] && p.sheets == CeilDiv(p.items[0].qty, cap)
  }

  // ---------------------------------------------------------------------------
  // Every row is placed exactly once, in the order given

  lemma ItemsOfConcat(a: seq<OptimizationResult>, b: seq<OptimizationResult>)
    ensures ItemsOf(a + b) == ItemsOf(a) + ItemsOf(b)
  {
  }

  lemma PlateRecordsItems(p: Plate)
    requires WellFormed(p)
    ensures ItemsOf(PlateRecords(p)) == p.items
  {
    assert forall i :: 0 <= i < |p.items| ==> Item(p.items[i].color, p.items[i].size, p.items[i].qty) == p.items[i];
  }

  lemma {:induction false} LeftoversCover(remaining: seq<Item>, cap: int, plateIndex: nat)
    requires cap >= 1
    ensures ItemsOf(Records(Leftovers(remaining, cap, plateIndex))) == remaining
    decreases |remaining|
  {
    if remaining != [] {
      var plates := Leftovers(remaining, cap, plateIndex);
      LeftoversCover(remaining[1..], cap, plateIndex + 1);
      PlateRecordsItems(plates[0]);
      ItemsOfConcat(PlateRecords(plates[0]), Records(plates[1..]));
      assert plates[1..] == Leftovers(remaining[1..], cap, plateIndex + 1);
      assert remaining == [remaining[0]] + remaining[1..];
    }
  }

  /** The records list every remaining row exactly once, in order. */
  lemma {:induction false} PlanCoversItems(remaining: seq<Item>, cap: int, plateCount: int, plateIndex: nat)
    requires cap >= 1
    ensures ItemsOf(Records(Plan(remaining, cap, plateCount, plateIndex))) == remaining
    decreases |remaining|
  {
    if remaining != [] {
      if plateIndex < plateCount {
        var batch := remaining[..BatchSize(|remaining|)];
        var best := BestCombo(Compositions(cap, 4), batch, 0);
        if best.None? {
          LeftoversCover(remaining, cap, plateIndex);
        } else {
          var plates := Plan(remaining, cap, plateCount, plateIndex);
          PlanCoversItems(remaining[|batch|..], cap, plateCount, plateIndex + 1);
          PlateRecordsItems(plates[0]);
          ItemsOfConcat(PlateRecords(plates[0]), Records(plates[1..]));
          assert plates[1..] == Plan(remaining[|batch|..], cap, plateCount, plateIndex + 1);
          assert remaining == batch + remaining[|batch|..];
        }
      } else {
        LeftoversCover(remaining, cap, plateIndex);
      }
    }
  }

  // ---------------------------------------------------------------------------
  // The shape of the plates

  lemma {:induction false} LeftoversShape(remaining: seq<Item>, cap: int, plateIndex: nat)
    requires cap >= 1
    ensures forall j :: 0 <= j < |Leftovers(remaining, cap, plateIndex)| ==>
      && Leftovers(remaining, cap, plateIndex)[j].index == plateIndex + j
      && Leftovers(remaining, cap, plateIndex)[j].phase == Leftover
      && Leftovers(remaining, cap, plateIndex)[j].items == [remaining[j]]
      && IsLeftoverPlate(Leftovers(remaining, cap, plateIndex)[j], cap)
    decreases |remaining|
  {
    if remaining != [] {
      var plates := Leftovers(remaining, cap, plateIndex);
      LeftoversShape(remaining[1..], cap, plateIndex + 1);
      forall j | 1 <= j < |plates|
        ensures plates[j] == Leftovers(remaining[1..], cap, plateIndex + 1)[j - 1]
        ensures remaining[j] == remaining[1..][j - 1]
      {
      }
    }
  }

  /** Plate j of the plan carries index plateIndex + j, so consecutive plates
      get consecutive labels. */
  lemma {:induction false} PlanIndices(remaining: seq<Item>, cap: int, plateCount: int, plateIndex: nat)
    requires cap >= 1
    ensures forall j :: 0 <= j < |Plan(remaining, cap, plateCount, plateIndex)| ==>
      Plan(remaining, cap, plateCount, plateIndex)[j].index == plateIndex + j
    decreases |remaining|
  {
    var plan := Plan(remaining, cap, plateCount, plateIndex);
    if remaining != [] && plateIndex < plateCount {
      var batch := remaining[..BatchSize(|remaining|)];
      if BestCombo(Compositions(cap, 4), batch, 0).Some? {
        var rest := Plan(remaining[|batch|..], cap, plateCount, plateIndex + 1);
        PlanIndices(remaining[|batch|..], cap, plateCount, plateIndex + 1);
        forall j | 1 <= j < |plan| ensures plan[j] == rest[j - 1] {}
        return;
      }
    }
    if remaining != [] {
      LeftoversShape(remaining, cap, plateIndex);
    }
  }

  /** The rows of one plate all carry the plate's label. */
  lemma PlateRecordsShareLabel(p: Plate)
    requires WellFormed(p)
    ensures |PlateRecords(p)| == |p.items|
    ensures forall r :: r in PlateRecords(p) ==> r.plate == PlateLabel(p.index)
  {
  }

  /** Each batched plate is within the plate budget and is the best
      composition for its rows; each leftover plate holds one row at full
      capacity. */
  ghost predicate PlatesValid(plan: seq<Plate>, cap: int, plateCount: int)
  {
    forall j {:trigger plan[j]} :: 0 <= j < |plan| ==>
      && (plan[j].phase == Batched ==> IsBatchedPlate(plan[j], cap) && plan[j].index < plateCount)
      && (plan[j].phase == Leftover ==> IsLeftoverPlate(plan[j], cap))
  }

  lemma {:induction false} PlanPlates(remaining: seq<Item>, cap: int, plateCount: int, plateIndex: nat)
    requires cap >= 1
    ensures PlatesValid(Plan(remaining, cap, plateCount, plateIndex), cap, plateCount)
    decreases |remaining|
  {
    if remaining != [] && plateIndex < plateCount {
      var batch := remaining[..BatchSize(|remaining|)];
      var best := BestCombo(Compositions(cap, 4), batch, 0);
      if best.Some? {
        var first := Plate(Batched, plateIndex, batch, best.value.combo, best.value.sheets);
        BestComboOverCompositions(cap, batch);
        assert IsBatchedPlate(first, cap);
        PlanPlates(remaining[|batch|..], cap, plateCount, plateIndex + 1);
        PlatesValidCons(first, Plan(remaining[|batch|..], cap, plateCount, plateIndex + 1), cap, plateCount);
        return;
      }
    }
    LeftoversValid(remaining, cap, plateCount, plateIndex);
  }

  lemma PlatesValidCons(p: Plate, rest: seq<Plate>, cap: int, plateCount: int)
    requires p.phase == Batched && IsBatchedPlate(p, cap) && p.index < plateCount
    requires PlatesValid(rest, cap, plateCount)
    ensures PlatesValid([p] + rest, cap, plateCount)
  {
    var plan := [p] + rest;
    forall j | 1 <= j < |plan| ensures plan[j] == rest[j - 1] {}
  }

  lemma LeftoversValid(remaining: seq<Item>, cap: int, plateCount: int, plateIndex: nat)
    requires cap >= 1
    ensures PlatesValid(Leftovers(remaining, cap, plateIndex), cap, plateCount)
  {
    LeftoversShape(remaining, cap, plateIndex);
  }

  /** No batched plate follows a leftover one. */
  predicate BatchedFirst(plan: seq<Plate>)
  {
    forall j1, j2 :: 0 <= j1 < j2 < |plan| && plan[j2].phase == Batched ==> plan[j1].phase == Batched
  }

  /** Only the last plate can be a batch of fewer than four rows. */
  predicate ShortBatchLast(plan: seq<Plate>)
  {
    forall j :: 0 <= j < |plan| && plan[j].phase == Batched && |plan[j].items| < 4 ==> j == |plan| - 1
  }

  /** If plate j is the first leftover plate and is still within the plate
      budget, then the capacity is below 4 and below the number of plates
      from j on, which is the number of rows left. */
  predicate LeftoverReason(plan: seq<Plate>, cap: int, plateCount: int, plateIndex: nat)
  {
    forall j {:trigger plan[j]} :: (0 <= j < |plan| && plan[j].phase == Leftover && plateIndex + j < plateCount &&
                 (j == 0 || plan[j - 1].phase == Batched)) ==> cap < 4 && cap < |plan| - j
  }

  /** The batched plates come first: no batched plate follows a leftover one. */
  lemma {:induction false} PlanBatchedFirst(remaining: seq<Item>, cap: int, plateCount: int, plateIndex: nat)
    requires cap >= 1
    ensures BatchedFirst(Plan(remaining, cap, plateCount, plateIndex))
    decreases |remaining|
  {
    var plan := Plan(remaining, cap, plateCount, plateIndex);
    if remaining != [] && plateIndex < plateCount {
      var batch := remaining[..BatchSize(|remaining|)];
      if BestCombo(Compositions(cap, 4), batch, 0).Some? {
        var rest := Plan(remaining[|batch|..], cap, plateCount, plateIndex + 1);
        PlanBatchedFirst(remaining[|batch|..], cap, plateCount, plateIndex + 1);
        assert plan[0].phase == Batched;
        forall j1, j2 | 0 <= j1 < j2 < |plan| && plan[j2].phase == Batched
          ensures plan[j1].phase == Batched
        {
          assert plan[j2] == rest[j2 - 1];
          if j1 > 0 {
            assert plan[j1] == rest[j1 - 1];
          }
        }
        return;
      }
    }
    if remaining != [] {
      LeftoversShape(remaining, cap, plateIndex);
    }
  }

  /** A batch of fewer than four rows takes all the rows left, so it is the
      last plate. */
  lemma {:induction false} PlanShortBatchLast(remaining: seq<Item>, cap: int, plateCount: int, plateIndex: nat)
    requires cap >= 1
    ensures ShortBatchLast(Plan(remaining, cap, plateCount, plateIndex))
    decreases |remaining|
  {
    var plan := Plan(remaining, cap, plateCount, plateIndex);
    if remaining != [] && plateIndex < plateCount {
      var batch := remaining[..BatchSize(|remaining|)];
      if BestCombo(Compositions(cap, 4), batch, 0).Some? {
        var rest := Plan(remaining[|batch|..], cap, plateCount, plateIndex + 1);
        PlanShortBatchLast(remaining[|batch|..], cap, plateCount, plateIndex + 1);
        assert plan[0].items == batch;
        forall j | 0 <= j < |plan| && plan[j].phase == Batched && |plan[j].items| < 4
          ensures j == |plan| - 1
        {
          if j == 0 {
            assert |batch| < 4;
            assert remaining[|batch|..] == [];
            assert |plan| == 1;
          } else {
            assert plan[j] == rest[j - 1];
          }
        }
        return;
      }
    }
    if remaining != [] {
      LeftoversShape(remaining, cap, plateIndex);
    }
  }

  /** The first leftover plate, when it is still within the plate budget, is
      there because the capacity is smaller than the batch that would have come
      next: fewer than four, and fewer than the rows left. */
  lemma {:induction false} PlanLeftoverReason(remaining: seq<Item>, cap: int, plateCount: int, plateIndex: nat)
    requires cap >= 1
    ensures LeftoverReason(Plan(remaining, cap, plateCount, plateIndex), cap, plateCount, plateIndex)
    decreases |remaining|
  {
    if remaining != [] && plateIndex < plateCount {
      var batch := remaining[..BatchSize(|remaining|)];
      var best := BestCombo(Compositions(cap, 4), batch, 0);
      if best.Some? {
        var first := Plate(Batched, plateIndex, batch, best.value.combo, best.value.sheets);
        PlanLeftoverReason(remaining[|batch|..], cap, plateCount, plateIndex + 1);
        LeftoverReasonCons(first, Plan(remaining[|batch|..], cap, plateCount, plateIndex + 1), cap, plateCount, plateIndex);
      } else {
        BestComboOverCompositions(cap, batch);
        LeftoversReason(remaining, cap, plateCount, plateIndex);
      }
    }
  }

  /** A batched plate in front keeps the reason for the first leftover plate. */
  lemma LeftoverReasonCons(first: Plate, rest: seq<Plate>, cap: int, plateCount: int, plateIndex: nat)
    requires first.phase == Batched
    requires LeftoverReason(rest, cap, plateCount, plateIndex + 1)
    ensures LeftoverReason([first] + rest, cap, plateCount, plateIndex)
  {
    var plan := [first] + rest;
    forall j | (0 <= j < |plan| && plan[j].phase == Leftover && plateIndex + j < plateCount &&
                (j == 0 || plan[j - 1].phase == Batched))
      ensures cap < 4 && cap < |plan| - j
    {
      var k := j - 1;
      assert plan[j] == rest[k];
      if k > 0 {
        assert plan[j - 1] == rest[k - 1];
      }
    }
  }

  /** Leftover plates started because the capacity is below the batch size
      have that reason; every later one follows a leftover plate. */
  lemma LeftoversReason(remaining: seq<Item>, cap: int, plateCount: int, plateIndex: nat)
    requires 1 <= cap && cap < 4 && cap < |remaining|
    ensures LeftoverReason(Leftovers(remaining, cap, plateIndex), cap, plateCount, plateIndex)
  {
    LeftoversShape(remaining, cap, plateIndex);
  }

  // ---------------------------------------------------------------------------
  // Quantities and totals

  /** Every record prints sheets x ups >= QTY units, so its excess is never
      negative; batched and leftover records alike. */
  lemma {:induction false} PlanRecordsBalanced(remaining: seq<Item>, cap: int, plateCount: int, plateIndex: nat)
    requires cap >= 1
    ensures forall r :: r in Records(Plan(remaining, cap, plateCount, plateIndex)) ==>
      && r.optimalUps >= 1
      && r.qtyProduced == r.sheetsNeeded * r.optimalUps
      && r.qtyProduced >= r.qty
      && r.excess == r.qtyProduced - r.qty
      && r.excess >= 0
  {
    var plan := Plan(remaining, cap, plateCount, plateIndex);
    PlanPlates(remaining, cap, plateCount, plateIndex);
    forall p | p in plan ensures PlateCovers(p) {
      if p.phase == Batched {
        SheetsNeededIsLeast(p.items, p.ups, p.sheets);
      }
    }
    RecordsBalanced(plan);
  }

  /** Every row of the plate reaches its quantity on the plate's sheets. */
  predicate PlateCovers(p: Plate)
  {
    && WellFormed(p)
    && (forall i :: 0 <= i < |p.items| ==> p.ups[i] >= 1 && p.sheets * p.ups[i] >= p.items[i].qty)
  }

  lemma {:induction false} RecordsBalanced(plates: seq<Plate>)
    requires forall p :: p in plates ==> WellFormed(p) && PlateCovers(p)
    ensures forall r :: r in Records(plates) ==>
      && r.optimalUps >= 1
      && r.qtyProduced == r.sheetsNeeded * r.optimalUps
      && r.qtyProduced >= r.qty
      && r.excess == r.qtyProduced - r.qty
  {
    if plates != [] {
      assert PlateCovers(plates[0]);
      RecordsBalanced(plates[1..]);
    }
  }

  lemma {:induction false} SumProducedConcat(a: seq<OptimizationResult>, b: seq<OptimizationResult>)
    ensures SumProduced(a + b) == SumProduced(a) + SumProduced(b)
  {
    if a != [] {
      assert (a + b)[1..] == a[1..] + b;
      SumProducedConcat(a[1..], b);
    } else {
      assert a + b == b;
    }
  }

  /** A plate's records produce sheets x (sum of its ups) units in all. */
  lemma {:induction false} PlateProduced(p: Plate)
    requires WellFormed(p)
    ensures SumProduced(PlateRecords(p)) == p.sheets * Sum(p.ups)
    decreases |p.items|
  {
    if p.items != [] {
      var q := p.(items := p.items[1..], ups := p.ups[1..]);
      PlateProduced(q);
      assert PlateRecords(p)[1..] == PlateRecords(q);
      assert p.sheets * Sum(p.ups) == p.sheets * p.ups[0] + p.sheets * Sum(p.ups[1..]);
    }
  }

  /** Summing sheets x capacity per plate, as the source does for batched plates,
      gives the units the records produce, because every plate's ups add up to
      the capacity. */
  lemma {:induction false} PlanProduced(remaining: seq<Item>, cap: int, plateCount: int, plateIndex: nat)
    requires cap >= 1
    ensures SumProduced(Records(Plan(remaining, cap, plateCount, plateIndex)))
         == cap * TotalSheets(Plan(remaining, cap, plateCount, plateIndex))
  {
    var plan := Plan(remaining, cap, plateCount, plateIndex);
    PlanPlates(remaining, cap, plateCount, plateIndex);
    forall p | p in plan ensures Sum(p.ups) == cap {
      if p.phase == Leftover {
        assert p.ups == [cap] && [cap][1..] == [];
      }
    }
    ProducedBySheets(plan, cap);
  }

  lemma {:induction false} ProducedBySheets(plates: seq<Plate>, cap: int)
    requires forall p :: p in plates ==> WellFormed(p) && Sum(p.ups) == cap
    ensures SumProduced(Records(plates)) == cap * TotalSheets(plates)
  {
    if plates != [] {
      var p := plates[0];
      ProducedBySheets(plates[1..], cap);
      PlateProduced(p);
      SumProducedConcat(PlateRecords(p), Records(plates[1..]));
      Distribute(cap, p.sheets, TotalSheets(plates[1..]));
    }
  }

  lemma Distribute(c: int, a: int, b: int)
    ensures c * (a + b) == a * c + c * b
  {
  }

  /** If every record produces at least its QTY, the records produce at least
      the total quantity of their rows. */
  lemma {:induction false} ProducedCoversQty(rs: seq<OptimizationResult>)
    requires forall r :: r in rs ==> r.qtyProduced >= r.qty
    ensures SumProduced(rs) >= SumQty(ItemsOf(rs))
  {
    if rs != [] {
      assert ItemsOf(rs)[1..] == ItemsOf(rs[1..]);
      ProducedCoversQty(rs[1..]);
    }
  }
}

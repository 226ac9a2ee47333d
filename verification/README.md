# Plate/UPS allocation and material stock, modelled in Dafny

This project models two parts of a print-production planner.

- **The plate allocation engine** `optimizeUpsWithPlates` (`src/utils/optimizer.ts`). It takes rows `{COLOR, SIZE, QTY}`, a sheet capacity `upsPerPlate` and a plate budget `plateCount`, and works as follows:
  1. It stable-sorts the rows by descending quantity.
  2. It enumerates every composition of the capacity into 1..4 positive "units per sheet" (`getUPSCombinations`).
  3. It fills plates with batches of up to four rows. Each batch gets the first composition of its length that needs the fewest sheets, where a batch needs `max ceil(QTY_i / ups_i)` sheets.
  4. When the budget runs out, or no composition has the batch's length, every row left goes on a plate of its own at full capacity.
  5. One record is emitted per row, and a summary adds up sheets, units produced, excess and waste.
- **The stock bookkeeping** of `inventory.py`:
  - `estimate_cost` adds up quantity × cost over the materials used;
  - `deduct_materials` lowers each used material's `stock` in place;
  - `check_inventory` lists the entries at or below their threshold.

Files:

| file | module | models |
|---|---|---|
| `wrappers.dfy` | `Wrappers` | the `Option` a search returns |
| `compositions.dfy` | `CompositionGenerator` | `getUPSCombinations`: a spec function (`Backtrack`/`Extend`); a recursive method that threads the results list through its calls, in place of the source's shared array; and the enumeration's soundness, completeness and order |
| `items.dfy` | `Items` | input rows and the stable descending-quantity sort |
| `batching.dfy` | `Batching` | `Math.ceil`, the sheets a batch needs, the best-composition choice, and plate labels |
| `allocation.dfy` | `Allocation` | the plates the engine fills, as a spec function `Plan`, and what its records satisfy |
| `optimizer.dfy` | `Optimizer` | `optimizeUpsWithPlates` as an imperative method: its while loop, its inner push loop, its leftover loop and the summary updates, each proved against `Plan` |
| `stock.dfy` | `StockTracking` | `estimate_cost`, `deduct_materials` and `check_inventory` as loops over an `Inventory` object. Each loop is proved against a spec function. |

Three behaviours of the code a reader may not expect:

- **Plate labels.** A label is the single character `String.fromCharCode(65 + k)`. Plates 0..25 get `A`..`Z` and plate 26 gets `[`.
- **`totalPlates`.** It echoes `plateCount`, not the number of plates used.
- **Leftover plates.** They ignore the plate budget.

## Model

| member | source | states |
|---|---|---|
| CompositionGenerator.GetUPSCombinations | src/utils/optimizer.ts:108-122 | The list returned is the backtracking enumeration. For a total >= 1 it holds exactly the sequences of 1..maxItems positive integers summing to the total, and it is strictly increasing in lexicographic order, so each appears once. |
| CompositionGenerator.BacktrackInto | src/utils/optimizer.ts:110-119 | It takes the results gathered so far as `acc`, in place of the source's shared array, and returns `acc` followed by what `backtrack(path, sum)` pushes. Its for-loop over candidates 1..total threads the list through the calls for `path + [i]`, in order. |
| CompositionGenerator.Compositions | src/utils/optimizer.ts:108-122 | Every generated sequence has at most maxItems positive parts, and its parts sum to the total. |
| CompositionGenerator.Backtrack | src/utils/optimizer.ts:110-119 | What one call `backtrack(path, sum)` contributes to the results list. It contributes nothing once the path is longer than maxItems or the sum overshoots, the path itself when the sum hits the total, and otherwise the contributions of `path + [i]` for i = 1..total in order. |
| CompositionGenerator.Extend | src/utils/optimizer.ts:116-118 | What the for-loop contributes from candidate i up to total: the call for `path + [i]`, followed by the rest of the loop. |
| CompositionGenerator.BacktrackSound | src/utils/optimizer.ts:110-119 | Every sequence emitted below a path extends that path, has at most maxItems parts, sums to the total, and adds only positive parts. |
| CompositionGenerator.ExtendSound | src/utils/optimizer.ts:116-118 | Sequences emitted by the loop from candidate i on extend the path by a part >= i. |
| CompositionGenerator.BacktrackComplete | src/utils/optimizer.ts:110-119 | Every composition of the total that extends the path, with at most maxItems parts, is emitted. |
| CompositionGenerator.BacktrackHead | src/utils/optimizer.ts:116-117 | Everything the call for candidate i emits has the path as its prefix, followed by i. |
| CompositionGenerator.BacktrackBeforeExtend | src/utils/optimizer.ts:116-118 | Everything candidate i emits comes lexicographically before everything candidates i+1.. emit. |
| CompositionGenerator.ExtendContains | src/utils/optimizer.ts:116-118 | Whatever candidate i emits is part of the loop's output from any earlier candidate on. |
| CompositionGenerator.CompositionsExact | src/utils/optimizer.ts:108-122 | For total >= 1: a sequence is generated if and only if it is a composition of the total into 1..maxItems positive parts. |
| CompositionGenerator.BacktrackOrdered | src/utils/optimizer.ts:110-119 | The output of one call is strictly increasing lexicographically. |
| CompositionGenerator.ExtendOrdered | src/utils/optimizer.ts:116-118 | Everything candidate i emits comes lexicographically before everything later candidates emit. |
| CompositionGenerator.CompositionsOrdered | src/utils/optimizer.ts:108-122 | The generated list is strictly increasing lexicographically and has no duplicates. |
| CompositionGenerator.LengthAtMostSum | src/utils/optimizer.ts:111-112 | A sequence of positive parts has at most as many parts as its sum, so a capacity below the batch size leaves no candidate. |
| CompositionGenerator.CompositionOfLengthExists | src/utils/optimizer.ts:108-122 | For 1 <= n <= total, some composition of the total has exactly n parts. |
| CompositionGenerator.LexLessAsymmetric | src/utils/optimizer.ts:116-118 | The enumeration order is asymmetric, so "generated earlier" is a strict order. |
| Items.SumQty | src/utils/optimizer.ts:130 | The `reduce` over QTY that gives `totalItems`. It is non-negative when every QTY is. |
| Items.SortByQtyDesc | src/utils/optimizer.ts:129 | The copy of the rows sorted by the comparator `b.QTY - a.QTY`, as a stable insertion sort that keeps the length. Its order, permutation and stability are stated by `SortByQtyDescSpec`. |
| Items.SortByQtyDescSpec | src/utils/optimizer.ts:129-130 | The sorted rows are in descending quantity and are a permutation of the input. The sort is stable: for every quantity, the rows having it keep their input order. It keeps the length and the total quantity. |
| Items.InsertPermutes | src/utils/optimizer.ts:129 | One insertion step adds exactly its row and keeps the total quantity. |
| Items.InsertSorted | src/utils/optimizer.ts:129 | One insertion step keeps the rows in descending quantity. |
| Items.InsertStable | src/utils/optimizer.ts:129 | One insertion step keeps the new row ahead of rows of equal quantity. |
| Batching.CeilDiv | src/utils/optimizer.ts:153 | `Math.ceil(q / u)` for an integer q and a positive integer u, computed on integers as `(q + u - 1) div u`. The same rounding gives the leftover sheets at line 192. |
| Batching.SheetsNeeded | src/utils/optimizer.ts:152-154 | `Math.max` over the batch of each row's `Math.ceil(QTY / ups)`. `SheetsNeededIsMax` and `SheetsNeededIsLeast` state what it is. |
| Batching.CeilDivSpec | src/utils/optimizer.ts:153 | `Math.ceil(q / u)` for u > 0 is the least r with r × u >= q. |
| Batching.SheetsNeededIsMax | src/utils/optimizer.ts:152-154 | The sheets a batch needs is the largest of its rows' ceilings and equals one of them. |
| Batching.SheetsNeededIsLeast | src/utils/optimizer.ts:152-154 | On that many sheets every row of the batch reaches its quantity, and on any number of sheets where every row does, there are at least that many. |
| Batching.BestCombo | src/utils/optimizer.ts:149-157 | The choice, when there is one, is a candidate at a position in range, and it has the batch's length. |
| Batching.BestComboSpec | src/utils/optimizer.ts:149-159 | There is no choice exactly when no candidate has the batch's length. Otherwise the choice records its sheets. No candidate of that length needs fewer sheets, and every such candidate before it needs strictly more, so ties go to the earliest, as the stable sort plus `[0]` does. |
| Batching.BestComboOverCompositions | src/utils/optimizer.ts:131-159 | Over the generated list there is no choice exactly when the capacity is smaller than the batch. Otherwise the choice is a composition of the capacity of the batch's length, minimal in sheets among all such compositions, and strictly better than every lexicographically earlier one. |
| Batching.PlateLabel | src/utils/optimizer.ts:161 | The label of plate k is the UTF-16 code unit 65 + k, wrapped to 16 bits. |
| Batching.PlateLabelLetters | src/utils/optimizer.ts:161 | Plates 0..25 get 'A'..'Z'. |
| Batching.PlateLabelPastZ | src/utils/optimizer.ts:195 | Plate 26 gets '[', the character after 'Z'. |
| Batching.PlateLabelInjective | src/utils/optimizer.ts:161 | Distinct plates below 2^16 get distinct labels. |
| Allocation.MakeRecord | src/utils/optimizer.ts:163-179 | One result record: the row's COLOR, SIZE and QTY, the plate's label, the ups, the sheets, produced = sheets × ups and excess = produced − QTY. The leftover loop at lines 191-206 builds the same record with ups = capacity. |
| Allocation.BatchSize | src/utils/optimizer.ts:148 | How many rows `remainingItems.slice(0, 4)` takes: all of them when fewer than four remain, otherwise four. |
| Allocation.Leftovers | src/utils/optimizer.ts:189-211 | The leftover loop makes one well-formed plate per remaining row. |
| Allocation.Plan | src/utils/optimizer.ts:144-211 | Every plate of the plan has one ups value per row. |
| Allocation.LeftoversCover | src/utils/optimizer.ts:190-206 | The leftover records list the remaining rows in order. |
| Allocation.PlanCoversItems | src/utils/optimizer.ts:145-148 | The records list every remaining row exactly once, in order. |
| Allocation.LeftoversShape | src/utils/optimizer.ts:189-211 | Leftover plate j is numbered plateIndex + j and holds the j-th remaining row alone. It is printed at full capacity on `ceil(QTY / capacity)` sheets. |
| Allocation.PlanIndices | src/utils/optimizer.ts:144-186 | Plate j of the plan is numbered plateIndex + j, so batched and leftover plates are numbered consecutively. |
| Allocation.PlateRecordsShareLabel | src/utils/optimizer.ts:161-179 | All rows of one plate carry that plate's label. |
| Allocation.PlanPlates | src/utils/optimizer.ts:147-194 | Every batched plate lies within the budget, holds 1..4 rows and uses the best composition for them. Every leftover plate holds one row at full capacity. |
| Allocation.PlanBatchedFirst | src/utils/optimizer.ts:147-190 | No batched plate follows a leftover plate. |
| Allocation.PlanShortBatchLast | src/utils/optimizer.ts:148-185 | A batch of fewer than four rows is the last plate. |
| Allocation.PlanLeftoverReason | src/utils/optimizer.ts:147-159 | A first leftover plate still within the budget is there because the capacity is below 4 and below the number of rows left. |
| Allocation.PlanRecordsBalanced | src/utils/optimizer.ts:163-194 | Every record has ups >= 1 and produced = sheets × ups >= QTY, so excess = produced − QTY >= 0. This holds for batched and leftover records alike. |
| Allocation.RecordsBalanced | src/utils/optimizer.ts:167-168 | If every plate's sheets cover each of its rows, every record's excess is non-negative. |
| Allocation.PlateProduced | src/utils/optimizer.ts:163-179 | A plate's records produce sheets × (sum of its ups) units. |
| Allocation.PlanProduced | src/utils/optimizer.ts:182-183 | The records produce capacity × total sheets units, because every plate's ups add up to the capacity. |
| Allocation.ProducedBySheets | src/utils/optimizer.ts:183 | The units per plate add up to capacity × the sheets summed over plates. |
| Allocation.ProducedCoversQty | src/utils/optimizer.ts:213 | Records that each cover their quantity produce at least the rows' total quantity. |
| Optimizer.OptimizeUpsWithPlates | src/utils/optimizer.ts:124-219 | The results are the plan's records over the sorted rows: every row once, in order, each with non-negative excess. The summary's fields are:<br>- totalItems: the input's total quantity;<br>- totalSheets: the plates' sheets;<br>- totalProduced: the records' units, which equal capacity × sheets;<br>- totalExcess: produced − items, which is >= 0;<br>- wastePercentage: 100 × excess / produced, or 0, and between 0 and 100 for non-negative quantities;<br>- totalPlates and upsCapacity: the arguments.<br>Empty input gives no records and zero waste. |
| Optimizer.PlaceBatches | src/utils/optimizer.ts:144-187 | The while loop emits the records of the plan's batched plates and adds their sheets, and capacity × sheets produced units. What it leaves is exactly what the plan puts on leftover plates. |
| Optimizer.PlaceLeftovers | src/utils/optimizer.ts:189-211 | The leftover loop emits the leftover plates' records and adds their sheets and units. |
| Optimizer.PushPlateRecords | src/utils/optimizer.ts:163-180 | The inner loop appends exactly the plate's records, one per row, in row order. |
| Optimizer.PlanStep | src/utils/optimizer.ts:147-186 | One iteration's plate followed by the plan for the rest is the plan. |
| Optimizer.LeftoversStep | src/utils/optimizer.ts:190-211 | One leftover plate followed by the leftovers of the rest is the leftover list. |
| Optimizer.PlanFacts | src/utils/optimizer.ts:129-130 | The plan over the sorted rows lists those rows. Its records balance, and it produces capacity × sheets units, which is at least the total quantity. |
| Optimizer.WastePercentage | src/utils/optimizer.ts:214-216 | Waste × produced = 100 × excess, and it is 0 when nothing is produced. |
| Optimizer.WastePercentageBounds | src/utils/optimizer.ts:213-216 | With 0 <= excess <= produced, the waste lies between 0 and 100. |
| StockTracking.CostOf | inventory.py:19-24 | What one material adds to the estimate. It adds nothing when the inventory has no entry or an empty entry for it, and otherwise qty × the entry's cost, with a missing cost counting as 0. |
| StockTracking.Cost | inventory.py:16-25 | The estimate: the sum of `CostOf` over the materials, in order. |
| StockTracking.EstimateCost | inventory.py:16-25 | The loop's total is the cost of the materials list. It changes nothing. |
| StockTracking.CostAppend | inventory.py:18-24 | The cost of two lists together is the sum of their costs. |
| StockTracking.CostSkipsUnknown | inventory.py:19-22 | A name missing from the inventory adds nothing. |
| StockTracking.CostWithoutPrices | inventory.py:23 | With no entry carrying a cost field, the estimate is 0. |
| StockTracking.DeductOne | inventory.py:29-31 | One iteration of deduct_materials. A known name's entry gets stock = old stock (0 if absent) − qty. An unknown name changes nothing. |
| StockTracking.Deducted | inventory.py:28-31 | All the materials deducted one after another, in list order. |
| StockTracking.DeductMaterials | inventory.py:28-31 | The new entries are the old ones with each listed material deducted in turn. The name order is unchanged, and the inventory stays well-formed, with distinct names and exactly one entry per name. |
| StockTracking.DeductedKeys | inventory.py:29-31 | Deducting adds no entry for unknown names and removes none. |
| StockTracking.DeductedUntouched | inventory.py:29-31 | An entry no material names is left exactly as it was. |
| StockTracking.DeductedNamed | inventory.py:31 | A named entry's stock becomes old stock (0 if absent) − qty, with no floor. Its other fields stay. |
| StockTracking.CostAfterDeduct | inventory.py:16-31 | Deducting never changes a later estimate. |
| StockTracking.CostAfterDeductOne | inventory.py:31 | Deducting one material never changes an estimate. |
| StockTracking.IsLow | inventory.py:37-39 | Whether an entry's stock is at or below its threshold, both defaulting to 0. |
| StockTracking.CheckInventory | inventory.py:34-41 | The alerts are the low-stock list of the inventory, in its order. The inventory is only read. |
| StockTracking.LowStock | inventory.py:36-40 | There are no more alerts than names, and each alert names a listed entry. |
| StockTracking.LowStockMembers | inventory.py:36-40 | (name, stock) is an alert if and only if the name is listed, its stock is at or below its threshold (both default to 0), and the pair carries that stock. |
| StockTracking.LowStockSplit | inventory.py:36-41 | The alerts of the first k names come before those of the rest, so the alerts follow inventory order. |
| StockTracking.EstimateWithUpdate | inventory.py:62-67 | The estimate command without its file I/O and printing. The total is the estimate on the inventory as loaded, and equals the estimate on the updated inventory. With `--update` the materials are deducted. The alerts are the low-stock list of the resulting inventory, and that inventory stays well-formed. |

## Left out

- The `toFixed(2)` and `parseFloat` rounding of `wastePercentage`. The model keeps the exact ratio as a `real`.
- Floating-point arithmetic. Quantities, capacities, sheets and costs are unbounded integers.
  - Fractional QTY values and the double-precision limit above 2^53 are not modelled.
  - `Math.ceil` of an integer ratio is modelled exactly.
  - `estimate_cost`'s float total is an integer.
- OptimizeUpsWithPlates: requires `upsPerPlate >= 1`, so the model says nothing about a capacity of 0 or below.
  - With 0 the source divides by zero and gets `Infinity` sheets, which integers cannot represent.
  - With a negative capacity the source yields negative sheets and negative excess. For example, QTY 10 with ups −3 gives `ceil(10 / −3) = −3` sheets, 9 produced and excess −1.
  - The app calls the engine at `src/App.tsx:54`, and that call is reached only through the check at `src/components/OptimizationForm.tsx:22`, which refuses `upsPerPlate <= 0`.
  - `src/components/PredictionPanel.tsx:17` also calls the engine and passes its `ups` on without a check. No file in the repository mounts that component.
- Batching.PlateLabel: a label is the UTF-16 code unit as a number rather than a one-character string, because Dafny characters cannot hold surrogate code units.
- Items.SortByQtyDesc: `Array.prototype.sort` is library code. It is modelled as a stable insertion sort on values, not as an in-place sort of an array.
- CompositionGenerator.CompositionsExact: excludes a total of 0 or less. For 0 the source (and the model) return the one empty sequence, and for a negative total nothing.
- StockTracking.DeductedNamed: assumes the materials list names each material once, as a dictionary's keys do.
  - The materials dictionary is a sequence of (name, qty) pairs in its iteration order.
  - The inventory is an object holding the names in insertion order and a map from names to entries.
- Inventory entries hold integer fields only. The `if not item` test is modelled for a missing or empty entry, not for other falsy values.
- The warning printed by `estimate_cost`, `load_inventory`, `save_inventory`, and the argument parsing and printing of `main`: these are file I/O and console output. The sequence of core calls in the estimate command is `EstimateWithUpdate`.
- The commented-out earlier optimizer at the top of `src/utils/optimizer.ts`, which is dead code.
- The React components, `src/App.tsx`, CSV upload, authentication and dark-mode hooks. They are user interface, browser storage and foreign libraries.

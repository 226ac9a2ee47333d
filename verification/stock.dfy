/** Material bookkeeping for the printing shop: the cost of the materials a
    job uses, deducting them from stock, and the entries whose stock has
    fallen to or below their alert threshold. An inventory maps material
    names to records of numeric fields ("stock", "threshold", "cost", ...)
    and keeps its names in insertion order. */
module StockTracking {

  const StockField := "stock"
  const ThresholdField := "threshold"
  const CostField := "cost"

  /** The fields of one inventory entry. */
  type Fields = map<string, int>

  /** One (material name, quantity used) pair of a materials list. */
  type Usage = (string, int)

  /** fields.get(key, 0) */
  function Get(fields: Fields, key: string): int
  {
    if key in fields then fields[key] else 0
  }

  /** The materials list has each name once, as the keys of a dictionary do. */
  predicate DistinctNames(materials: seq<Usage>)
  {
    forall i, j :: 0 <= i < j < |materials| ==> materials[i].0 != materials[j].0
  }

  /** An inventory that is updated in place. */
  class Inventory {
    /** The names in insertion order. */
    var names: seq<string>
    /** The entry of each name. */
    var records: map<string, Fields>

    ghost predicate Valid()
      reads this
    {
      && (forall i, j :: 0 <= i < j < |names| ==> names[i] != names[j])
      && (forall n :: n in records <==> n in names)
    }

    constructor (names: seq<string>, records: map<string, Fields>)
      requires forall i, j :: 0 <= i < j < |names| ==> names[i] != names[j]
      requires forall n :: n in records <==> n in names
      ensures Valid()
      ensures this.names == names && this.records == records
    {
      this.names := names;
      this.records := records;
    }
  }

  // ---------------------------------------------------------------------------
  // estimate_cost

  /** What one material contributes: nothing when its name is missing or its
      entry is empty, otherwise quantity x cost (cost 0 when absent). */
  function CostOf(m: Usage, records: map<string, Fields>): int
  {
    if m.0 !in records || records[m.0] == map[] then 0 else m.1 * Get(records[m.0], CostField)
  }

  function Cost(materials: seq<Usage>, records: map<string, Fields>): int
  {
    if materials == [] then 0 else CostOf(materials[0], records) + Cost(materials[1..], records)
  }

  /** estimate_cost: accumulates quantity x cost over the materials, skipping
      the ones the inventory has no (or an empty) entry for. */
  method EstimateCost(materials: seq<Usage>, inventory: Inventory) returns (total: int)
    ensures total == Cost(materials, inventory.records)
  {
    total := 0;
    var i := 0;
    while i < |materials|
      invariant 0 <= i <= |materials|
      invariant total + Cost(materials[i..], inventory.records) == Cost(materials, inventory.records)
    {
      var (name, qty) := materials[i];
      assert materials[i..][1..] == materials[i + 1..];
      if name !in inventory.records || inventory.records[name] == map[] {
        i := i + 1;
        continue;
      }
      var item := inventory.records[name];
      var cost := Get(item, CostField);
      total := total + qty * cost;
      i := i + 1;
    }
    assert materials[i..] == [];
  }

  /** The cost of two materials lists together is the sum of their costs. */
  lemma {:induction false} CostAppend(a: seq<Usage>, b: seq<Usage>, records: map<string, Fields>)
    ensures Cost(a + b, records) == Cost(a, records) + Cost(b, records)
  {
    if a != [] {
      assert (a + b)[1..] == a[1..] + b;
      CostAppend(a[1..], b, records);
    } else {
      assert a + b == b;
    }
  }

  /** A material the inventory does not know adds nothing to the cost. */
  lemma CostSkipsUnknown(materials: seq<Usage>, name: string, qty: int, records: map<string, Fields>)
    requires name !in records
    ensures Cost(materials + [(name, qty)], records) == Cost(materials, records)
  {
    CostAppend(materials, [(name, qty)], records);
  }

  /** With no entry carrying a "cost" field, the estimate is 0. */
  lemma {:induction false} CostWithoutPrices(materials: seq<Usage>, records: map<string, Fields>)
    requires forall n :: n in records ==> CostField !in records[n]
    ensures Cost(materials, records) == 0
  {
    if materials != [] {
      CostWithoutPrices(materials[1..], records);
    }
  }

  // ---------------------------------------------------------------------------
  // deduct_materials

  /** One step of deduct_materials: a known name gets stock - qty (stock 0 when
      absent); every other field and every other entry stays. */
  function DeductOne(records: map<string, Fields>, m: Usage): map<string, Fields>
  {
    if m.0 in records
    then records[m.0 := records[m.0][StockField := Get(records[m.0], StockField) - m.1]]
    else records
  }

  function Deducted(records: map<string, Fields>, materials: seq<Usage>): map<string, Fields>
  {
    if materials == [] then records else Deducted(DeductOne(records, materials[0]), materials[1..])
  }

  /** deduct_materials: updates the inventory in place, material by material. */
  method DeductMaterials(inventory: Inventory, materials: seq<Usage>)
    requires inventory.Valid()
    modifies inventory
    ensures inventory.Valid()
    ensures inventory.records == Deducted(old(inventory.records), materials)
    ensures inventory.names == old(inventory.names)
  {
    var i := 0;
    while i < |materials|
      invariant 0 <= i <= |materials|
      invariant inventory.names == old(inventory.names)
      invariant Deducted(inventory.records, materials[i..]) == Deducted(old(inventory.records), materials)
    {
      var (name, qty) := materials[i];
      assert materials[i..][1..] == materials[i + 1..];
      if name in inventory.records {
        var entry := inventory.records[name];
        inventory.records := inventory.records[name := entry[StockField := Get(entry, StockField) - qty]];
      }
      i := i + 1;
    }
    assert materials[i..] == [];
    DeductedKeys(old(inventory.records), materials);
  }

  /** Deducting adds no entry and removes none. */
  lemma {:induction false} DeductedKeys(records: map<string, Fields>, materials: seq<Usage>)
    ensures Deducted(records, materials).Keys == records.Keys
  {
    if materials != [] {
      DeductedKeys(DeductOne(records, materials[0]), materials[1..]);
    }
  }

  /** An entry no material names is left exactly as it was. */
  lemma {:induction false} DeductedUntouched(records: map<string, Fields>, materials: seq<Usage>, name: string)
    requires name in records
    requires forall k :: 0 <= k < |materials| ==> materials[k].0 != name
    ensures name in Deducted(records, materials) && Deducted(records, materials)[name] == records[name]
  {
    if materials != [] {
      DeductedUntouched(DeductOne(records, materials[0]), materials[1..], name);
    }
  }

  /** The entry of a material the list names once gets stock = old stock - qty
      (old stock 0 when absent, no floor at zero); its other fields stay. */
  lemma {:induction false} DeductedNamed(records: map<string, Fields>, materials: seq<Usage>, k: nat)
    requires DistinctNames(materials)
    requires k < |materials| && materials[k].0 in records
    ensures var (name, qty) := materials[k];
      && name in Deducted(records, materials)
      && Deducted(records, materials)[name] == records[name][StockField := Get(records[name], StockField) - qty]
  {
    var (name, qty) := materials[k];
    var once := DeductOne(records, materials[0]);
    if k == 0 {
      DeductedUntouched(once, materials[1..], name);
    } else {
      assert materials[0].0 != name;
      assert once[name] == records[name];
      DeductedNamed(once, materials[1..], k - 1);
    }
  }

  /** Deducting materials leaves every estimate unchanged: it touches only
      "stock", and an entry it makes non-empty has no cost. */
  lemma {:induction false} CostAfterDeduct(materials: seq<Usage>, used: seq<Usage>, records: map<string, Fields>)
    ensures Cost(materials, Deducted(records, used)) == Cost(materials, records)
  {
    if used != [] {
      var once := DeductOne(records, used[0]);
      CostAfterDeduct(materials, used[1..], once);
      CostAfterDeductOne(materials, used[0], records);
    }
  }

  lemma {:induction false} CostAfterDeductOne(materials: seq<Usage>, d: Usage, records: map<string, Fields>)
    ensures Cost(materials, DeductOne(records, d)) == Cost(materials, records)
  {
    if materials != [] {
      CostAfterDeductOne(materials[1..], d, records);
      var m := materials[0];
      if m.0 == d.0 && d.0 in records {
        assert CostField != StockField;
      }
    }
  }

  // ---------------------------------------------------------------------------
  // check_inventory

  /** Whether an entry is at or below its threshold (both 0 when absent). */
  predicate IsLow(fields: Fields)
  {
    Get(fields, StockField) <= Get(fields, ThresholdField)
  }

  function LowStock(names: seq<string>, records: map<string, Fields>): (alerts: seq<(string, int)>)
    requires forall n :: n in names ==> n in records
    ensures |alerts| <= |names|
    ensures forall a :: a in alerts ==> a.0 in names
  {
    if names == [] then []
    else
      var rest := LowStock(names[1..], records);
      if IsLow(records[names[0]]) then [(names[0], Get(records[names[0]], StockField))] + rest else rest
  }

  /** check_inventory: the (name, stock) pairs of the entries at or below
      their threshold, in inventory order; the inventory is only read. */
  method CheckInventory(inventory: Inventory) returns (alerts: seq<(string, int)>)
    requires inventory.Valid()
    ensures alerts == LowStock(inventory.names, inventory.records)
  {
    alerts := [];
    var names := inventory.names;
    var i := 0;
    while i < |names|
      invariant 0 <= i <= |names|
      invariant alerts + LowStock(names[i..], inventory.records) == LowStock(names, inventory.records)
    {
      var name := names[i];
      var data := inventory.records[name];
      var stock := Get(data, StockField);
      var threshold := Get(data, ThresholdField);
      assert names[i..][1..] == names[i + 1..];
      if stock <= threshold {
        alerts := alerts + [(name, stock)];
      }
      i := i + 1;
    }
    assert names[i..] == [];
  }

  /** An alert is exactly a listed name at or below its threshold, paired
      with its stock. */
  lemma {:induction false} LowStockMembers(names: seq<string>, records: map<string, Fields>, name: string, stock: int)
    requires forall n :: n in names ==> n in records
    ensures (name, stock) in LowStock(names, records) <==>
      name in names && IsLow(records[name]) && stock == Get(records[name], StockField)
  {
    if names != [] {
      LowStockMembers(names[1..], records, name, stock);
      assert names == [names[0]] + names[1..];
    }
  }

  /** The alerts follow the inventory order: those of the first k names
      come before those of the rest. */
  lemma {:induction false} LowStockSplit(names: seq<string>, records: map<string, Fields>, k: nat)
    requires forall n :: n in names ==> n in records
    requires k <= |names|
    ensures LowStock(names, records) == LowStock(names[..k], records) + LowStock(names[k..], records)
  {
    if k > 0 {
      LowStockSplit(names[1..], records, k - 1);
      assert names[1..][..k - 1] == names[..k][1..];
      assert names[1..][k - 1..] == names[k..];
    } else {
      assert names[..0] == [] && names[0..] == names;
    }
  }

  // ---------------------------------------------------------------------------
  // The "estimate" command: estimate, optionally deduct, then check

  /** The core of the "estimate" command without its file I/O and printing:
      the cost is estimated on the inventory as loaded, the materials are
      deducted when `update` is set, and the alerts are taken afterwards. */
  method EstimateWithUpdate(inventory: Inventory, materials: seq<Usage>, update: bool)
    returns (total: int, alerts: seq<(string, int)>)
    requires inventory.Valid()
    modifies inventory
    ensures inventory.Valid() && inventory.names == old(inventory.names)
    ensures inventory.records == if update then Deducted(old(inventory.records), materials) else old(inventory.records)
    ensures total == Cost(materials, old(inventory.records)) == Cost(materials, inventory.records)
    ensures alerts == LowStock(inventory.names, inventory.records)
  {
    total := EstimateCost(materials, inventory);
    if update {
      DeductMaterials(inventory, materials);
      CostAfterDeduct(materials, materials, old(inventory.records));
    }
    alerts := CheckInventory(inventory);
  }
}

/** The engine's input rows and the stable sort by descending quantity that
    optimizeUpsWithPlates applies to them first. */
module Items {

  /** One input row {COLOR, SIZE, QTY}. */
  datatype Item = Item(color: string, size: string, qty: int)

  /** The reduce that computes summary.totalItems. */
  function SumQty(items: seq<Item>): (total: int)
    ensures (forall x :: x in items ==> x.qty >= 0) ==> total >= 0
  {
    if items == [] then 0 else items[0].qty + SumQty(items[1..])
  }

  predicate SortedByQtyDesc(s: seq<Item>)
  {
    forall i, j :: 0 <= i < j < |s| ==> s[i].qty >= s[j].qty
  }

  /** The rows of s whose quantity is v, in their order in s. */
  function WithQty(s: seq<Item>, v: int): seq<Item>
  {
    if s == [] then []
    else (if s[0].qty == v then [s[0]] else []) + WithQty(s[1..], v)
  }

  /** Puts x in front of the first row whose quantity is not larger than x's,
      so that x stays ahead of rows of equal quantity. */
  function Insert(x: Item, s: seq<Item>): (r: seq<Item>)
    ensures |r| == |s| + 1
  {
    if s == [] || s[0].qty <= x.qty then [x] + s
    else [s[0]] + Insert(x, s[1..])
  }

  /** [...items].sort((a, b) => b.QTY - a.QTY): a stable sort, so rows of equal
      quantity keep their input order. */
  function SortByQtyDesc(s: seq<Item>): (r: seq<Item>)
    ensures |r| == |s|
  {
    if s == [] then [] else Insert(s[0], SortByQtyDesc(s[1..]))
  }

  lemma {:induction false} InsertPermutes(x: Item, s: seq<Item>)
    ensures multiset(Insert(x, s)) == multiset([x] + s)
    ensures |Insert(x, s)| == |s| + 1
    ensures SumQty(Insert(x, s)) == x.qty + SumQty(s)
  {
    if !(s == [] || s[0].qty <= x.qty) {
      var t := Insert(x, s[1..]);
      InsertPermutes(x, s[1..]);
      assert ([s[0]] + t)[1..] == t;
      assert s == [s[0]] + s[1..];
    }
  }

  lemma {:induction false} InsertSorted(x: Item, s: seq<Item>)
    requires SortedByQtyDesc(s)
    ensures SortedByQtyDesc(Insert(x, s))
  {
    if !(s == [] || s[0].qty <= x.qty) {
      var t := Insert(x, s[1..]);
      InsertSorted(x, s[1..]);
      InsertBounded(x, s[1..], s[0].qty);
      var r := [s[0]] + t;
      forall i, j | 0 <= i < j < |r| ensures r[i].qty >= r[j].qty {
        assert r[j] == t[j - 1];
        if i > 0 {
          assert r[i] == t[i - 1];
        }
      }
    }
  }

  /** Inserting a row no larger than a bound into rows no larger than it
      gives rows no larger than it. */
  lemma {:induction false} InsertBounded(x: Item, s: seq<Item>, b: int)
    requires x.qty <= b
    requires forall k :: 0 <= k < |s| ==> s[k].qty <= b
    ensures forall k :: 0 <= k < |Insert(x, s)| ==> Insert(x, s)[k].qty <= b
  {
    if !(s == [] || s[0].qty <= x.qty) {
      InsertBounded(x, s[1..], b);
      var t := Insert(x, s[1..]);
      assert forall k :: 1 <= k < |[s[0]] + t| ==> ([s[0]] + t)[k] == t[k - 1];
    }
  }

  lemma {:induction false} InsertStable(x: Item, s: seq<Item>, v: int)
    ensures WithQty(Insert(x, s), v) == WithQty([x] + s, v)
  {
    if !(s == [] || s[0].qty <= x.qty) {
      var t := Insert(x, s[1..]);
      InsertStable(x, s[1..], v);
      var hs := if s[0].qty == v then [s[0]] else [];
      var hx := if x.qty == v then [x] else [];
      assert ([s[0]] + t)[1..] == t;
      assert ([x] + s[1..])[1..] == s[1..];
      assert ([x] + s)[1..] == s;
      assert WithQty([s[0]] + t, v) == hs + WithQty(t, v);
      assert WithQty([x] + s[1..], v) == hx + WithQty(s[1..], v);
      assert WithQty(s, v) == hs + WithQty(s[1..], v);
      assert WithQty([x] + s, v) == hx + WithQty(s, v);
      // x is strictly smaller than s[0], so at most one of them has quantity v
      assert hs == [] || hx == [];
    }
  }

  /** The sort is descending, a permutation of its input and stable: for every
      quantity the rows having it appear in their input order. It keeps the
      total quantity. */
  lemma {:induction false} SortByQtyDescSpec(s: seq<Item>)
    ensures SortedByQtyDesc(SortByQtyDesc(s))
    ensures multiset(SortByQtyDesc(s)) == multiset(s)
    ensures |SortByQtyDesc(s)| == |s|
    ensures forall v :: WithQty(SortByQtyDesc(s), v) == WithQty(s, v)
    ensures SumQty(SortByQtyDesc(s)) == SumQty(s)
  {
    if s != [] {
      var r := SortByQtyDesc(s[1..]);
      SortByQtyDescSpec(s[1..]);
      InsertPermutes(s[0], r);
      InsertSorted(s[0], r);
      assert s == [s[0]] + s[1..];
      forall v ensures WithQty(SortByQtyDesc(s), v) == WithQty(s, v) {
        InsertStable(s[0], r, v);
        assert ([s[0]] + r)[1..] == r;
        assert WithQty([s[0]] + r, v) == (if s[0].qty == v then [s[0]] else []) + WithQty(r, v);
      }
    }
  }
}

/** The composition generator behind getUPSCombinations: every ordered way of
    splitting a sheet capacity into 1..maxItems positive "units per sheet",
    enumerated by depth-first backtracking that tries the candidate values
    1, 2, ..., total at each position in increasing order. */
module CompositionGenerator {

  /** Sum of a sequence of integers. */
  function Sum(s: seq<int>): int
  {
    if s == [] then 0 else s[0] + Sum(s[1..])
  }

  predicate AllPositive(s: seq<int>)
  {
    forall k :: 0 <= k < |s| ==> s[k] > 0
  }

  /** c is a composition of total into between 1 and maxParts positive parts. */
  predicate IsComposition(c: seq<int>, total: int, maxParts: nat)
  {
    1 <= |c| <= maxParts && AllPositive(c) && Sum(c) == total
  }

  /** a and b agree on their first k positions, and position k decides that a
      comes first: either a is exhausted there and b is not, or a's value is smaller. */
  predicate LexLessAt(a: seq<int>, b: seq<int>, k: nat)
  {
    && k <= |a| && k <= |b|
    && (forall j :: 0 <= j < k ==> a[j] == b[j])
    && ((k < |a| && k < |b| && a[k] < b[k]) || (k == |a| && k < |b|))
  }

  /** Strict lexicographic order on integer sequences. */
  predicate LexLess(a: seq<int>, b: seq<int>)
  {
    exists k: nat | k <= |a| :: LexLessAt(a, b, k)
  }

  /** Every element comes strictly before every later one, so in particular no
      element occurs twice. */
  predicate StrictlyOrdered(cs: seq<seq<int>>)
  {
    forall p, q :: 0 <= p < q < |cs| ==> LexLess(cs[p], cs[q])
  }

  /** What one call backtrack(path, sum) contributes to the shared results
      list: nothing once the path is too long or overshoots, the path itself
      when it hits the total, otherwise the contributions of every extension
      path + [i] for i = 1..total, in that order. */
  function Backtrack(path: seq<int>, sum: int, total: int, maxItems: nat): seq<seq<int>>
    decreases maxItems - |path|, 1
  {
    if |path| > maxItems || sum > total then []
    else if sum == total then [path]
    else Extend(path, sum, total, maxItems, 1)
  }

  /** The part of backtrack's for-loop that runs from candidate i up to total. */
  function Extend(path: seq<int>, sum: int, total: int, maxItems: nat, i: int): seq<seq<int>>
    requires |path| <= maxItems
    decreases maxItems - |path|, 0, total - i + 1
  {
    if i > total then []
    else Backtrack(path + [i], sum + i, total, maxItems) + Extend(path, sum, total, maxItems, i + 1)
  }

  /** The list getUPSCombinations(total, maxItems) returns. */
  function Compositions(total: int, maxItems: nat): (cs: seq<seq<int>>)
    ensures forall c :: c in cs ==> |c| <= maxItems && AllPositive(c) && Sum(c) == total
  {
    BacktrackSound([], 0, total, maxItems);
    Backtrack([], 0, total, maxItems)
  }

  /** getUPSCombinations: the recursive backtracking with its for-loop,
      appending to one results list that all recursive calls share. */
  method GetUPSCombinations(total: int, maxItems: nat) returns (results: seq<seq<int>>)
    ensures results == Compositions(total, maxItems)
    ensures total >= 1 ==> forall c :: c in results <==> IsComposition(c, total, maxItems)
    ensures StrictlyOrdered(results)
  {
    results := BacktrackInto([], 0, total, maxItems, []);
    if total >= 1 {
      CompositionsExact(total, maxItems);
    }
    CompositionsOrdered(total, maxItems);
  }

  /** backtrack(path, sum) run against a results list that already holds acc. */
  method BacktrackInto(path: seq<int>, sum: int, total: int, maxItems: nat, acc: seq<seq<int>>)
    returns (results: seq<seq<int>>)
    requires 0 <= sum
    ensures results == acc + Backtrack(path, sum, total, maxItems)
    decreases maxItems - |path|
  {
    if |path| > maxItems || sum > total {
      return acc;
    }
    if sum == total {
      return acc + [path];
    }
    results := acc;
    var i := 1;
    while i <= total
      invariant 1 <= i <= total + 1
      invariant results + Extend(path, sum, total, maxItems, i) == acc + Extend(path, sum, total, maxItems, 1)
    {
      ghost var before := results;
      results := BacktrackInto(path + [i], sum + i, total, maxItems, results);
      assert results + Extend(path, sum, total, maxItems, i + 1)
          == before + Extend(path, sum, total, maxItems, i);
      i := i + 1;
    }
  }

  // ---------------------------------------------------------------------------
  // Sums

  lemma {:induction false} SumAppend(s: seq<int>, x: int)
    ensures Sum(s + [x]) == Sum(s) + x
  {
    if s != [] {
      assert (s + [x])[1..] == s[1..] + [x];
      SumAppend(s[1..], x);
    }
  }

  /** Dropping a tail of non-negative values can only lower the sum. */
  lemma {:induction false} SumPrefixAtMost(c: seq<int>, m: nat)
    requires m <= |c|
    requires forall k :: m <= k < |c| ==> c[k] >= 0
    ensures Sum(c[..m]) <= Sum(c)
  {
    if m > 0 {
      assert c[..m][1..] == c[1..][..m - 1];
      SumPrefixAtMost(c[1..], m - 1);
    } else {
      SumNonNegative(c);
    }
  }

  lemma {:induction false} SumNonNegative(c: seq<int>)
    requires forall k :: 0 <= k < |c| ==> c[k] >= 0
    ensures Sum(c) >= 0
  {
    if c != [] {
      SumNonNegative(c[1..]);
    }
  }

  /** A composition has at most as many parts as its total. */
  lemma {:induction false} LengthAtMostSum(c: seq<int>)
    requires AllPositive(c)
    ensures |c| <= Sum(c)
  {
    if c != [] {
      LengthAtMostSum(c[1..]);
    }
  }

  // ---------------------------------------------------------------------------
  // Soundness: everything emitted extends the path to a composition of total

  lemma {:induction false} BacktrackSound(path: seq<int>, sum: int, total: int, maxItems: nat)
    requires sum == Sum(path)
    ensures forall c :: c in Backtrack(path, sum, total, maxItems) ==>
      && |path| <= |c| <= maxItems
      && Sum(c) == total
      && (forall k :: 0 <= k < |path| ==> c[k] == path[k])
      && (forall k :: |path| <= k < |c| ==> c[k] > 0)
    ensures AllPositive(path) ==> forall c :: c in Backtrack(path, sum, total, maxItems) ==> AllPositive(c)
    decreases maxItems - |path|, 1
  {
    if !(|path| > maxItems || sum > total) && sum != total {
      ExtendSound(path, sum, total, maxItems, 1);
    }
  }

  lemma {:induction false} ExtendSound(path: seq<int>, sum: int, total: int, maxItems: nat, i: int)
    requires |path| <= maxItems && sum == Sum(path) && i >= 1
    ensures forall c :: c in Extend(path, sum, total, maxItems, i) ==>
      && |path| < |c| <= maxItems
      && Sum(c) == total
      && (forall k :: 0 <= k < |path| ==> c[k] == path[k])
      && c[|path|] >= i
      && (forall k :: |path| <= k < |c| ==> c[k] > 0)
    decreases maxItems - |path|, 0, total - i + 1
  {
    if i <= total {
      SumAppend(path, i);
      BacktrackSound(path + [i], sum + i, total, maxItems);
      ExtendSound(path, sum, total, maxItems, i + 1);
      BacktrackHead(path, sum, total, maxItems, i);
    }
  }

  /** Everything the call for candidate i emits has the path as its prefix and
      i right after it. */
  lemma BacktrackHead(path: seq<int>, sum: int, total: int, maxItems: nat, i: int)
    requires |path| <= maxItems && sum == Sum(path) && i >= 1
    ensures forall c :: c in Backtrack(path + [i], sum + i, total, maxItems) ==>
      && |path| < |c| && c[|path|] == i
      && (forall k :: 0 <= k < |path| ==> c[k] == path[k])
    decreases maxItems - |path|, 0, total - i + 1, 0
  {
    SumAppend(path, i);
    BacktrackSound(path + [i], sum + i, total, maxItems);
    forall c | c in Backtrack(path + [i], sum + i, total, maxItems)
      ensures |path| < |c| && c[|path|] == i
      ensures forall k :: 0 <= k < |path| ==> c[k] == path[k]
    {
      assert (path + [i])[|path|] == i;
      forall k | 0 <= k < |path| ensures c[k] == path[k] {
        assert (path + [i])[k] == path[k];
      }
    }
  }

  // ---------------------------------------------------------------------------
  // Completeness: every composition extending the path is emitted

  lemma {:induction false} ExtendContains(path: seq<int>, sum: int, total: int, maxItems: nat, j: int, i: int, c: seq<int>)
    requires |path| <= maxItems && 1 <= j <= i <= total
    requires c in Backtrack(path + [i], sum + i, total, maxItems)
    ensures c in Extend(path, sum, total, maxItems, j)
    decreases i - j
  {
    var here := Backtrack(path + [j], sum + j, total, maxItems);
    var later := Extend(path, sum, total, maxItems, j + 1);
    assert Extend(path, sum, total, maxItems, j) == here + later;
    if j < i {
      ExtendContains(path, sum, total, maxItems, j + 1, i, c);
      assert c in later;
    } else {
      assert c in here;
    }
  }

  lemma {:induction false} BacktrackComplete(path: seq<int>, total: int, maxItems: nat, c: seq<int>)
    requires 0 <= Sum(path)
    requires |path| <= |c| <= maxItems && Sum(c) == total
    requires forall k :: 0 <= k < |path| ==> c[k] == path[k]
    requires forall k :: |path| <= k < |c| ==> c[k] > 0
    ensures c in Backtrack(path, Sum(path), total, maxItems)
    decreases |c| - |path|
  {
    if |c| == |path| {
      assert c == path;
    } else {
      var n := |path|;
      var i := c[n];
      assert c[..n + 1] == path + [i];
      SumAppend(path, i);
      SumPrefixAtMost(c, n + 1);
      BacktrackComplete(path + [i], total, maxItems, c);
      ExtendContains(path, Sum(path), total, maxItems, 1, i, c);
    }
  }

  /** getUPSCombinations(total, maxItems) with total >= 1 yields exactly the
      compositions of total into 1..maxItems positive parts. */
  lemma CompositionsExact(total: int, maxItems: nat)
    requires total >= 1
    ensures forall c :: c in Compositions(total, maxItems) <==> IsComposition(c, total, maxItems)
  {
    forall c | IsComposition(c, total, maxItems)
      ensures c in Compositions(total, maxItems)
    {
      BacktrackComplete([], total, maxItems, c);
    }
  }

  // ---------------------------------------------------------------------------
  // Order: the enumeration is strictly increasing in lexicographic order

  lemma OrderedConcat(a: seq<seq<int>>, b: seq<seq<int>>)
    requires StrictlyOrdered(a) && StrictlyOrdered(b)
    requires forall x, y :: x in a && y in b ==> LexLess(x, y)
    ensures StrictlyOrdered(a + b)
  {
    forall p, q | 0 <= p < q < |a + b|
      ensures LexLess((a + b)[p], (a + b)[q])
    {
      if q < |a| {
        assert LexLess(a[p], a[q]);
      } else if p >= |a| {
        assert LexLess(b[p - |a|], b[q - |a|]);
      } else {
        assert (a + b)[p] in a && (a + b)[q] in b;
      }
    }
  }

  lemma {:induction false} BacktrackOrdered(path: seq<int>, sum: int, total: int, maxItems: nat)
    requires sum == Sum(path)
    ensures StrictlyOrdered(Backtrack(path, sum, total, maxItems))
    decreases maxItems - |path|, 1
  {
    if !(|path| > maxItems || sum > total) && sum != total {
      ExtendOrdered(path, sum, total, maxItems, 1);
    }
  }

  lemma {:induction false} ExtendOrdered(path: seq<int>, sum: int, total: int, maxItems: nat, i: int)
    requires |path| <= maxItems && sum == Sum(path) && i >= 1
    ensures StrictlyOrdered(Extend(path, sum, total, maxItems, i))
    decreases maxItems - |path|, 0, total - i + 1
  {
    if i <= total {
      var a := Backtrack(path + [i], sum + i, total, maxItems);
      var b := Extend(path, sum, total, maxItems, i + 1);
      SumAppend(path, i);
      BacktrackOrdered(path + [i], sum + i, total, maxItems);
      ExtendOrdered(path, sum, total, maxItems, i + 1);
      BacktrackBeforeExtend(path, sum, total, maxItems, i);
      OrderedConcat(a, b);
    }
  }

  /** What candidate i emits comes before what the later candidates emit:
      they agree on the path and differ first right after it. */
  lemma BacktrackBeforeExtend(path: seq<int>, sum: int, total: int, maxItems: nat, i: int)
    requires |path| <= maxItems && sum == Sum(path) && i >= 1
    ensures forall x, y ::
      x in Backtrack(path + [i], sum + i, total, maxItems) && y in Extend(path, sum, total, maxItems, i + 1)
      ==> LexLess(x, y)
    decreases maxItems - |path|, 0, total - i + 1, 0
  {
    ExtendSound(path, sum, total, maxItems, i + 1);
    BacktrackHead(path, sum, total, maxItems, i);
    forall x, y | x in Backtrack(path + [i], sum + i, total, maxItems) && y in Extend(path, sum, total, maxItems, i + 1)
      ensures LexLess(x, y)
    {
      assert LexLessAt(x, y, |path|);
    }
  }

  /** The compositions come out in strictly increasing lexicographic order,
      hence each one exactly once. */
  lemma CompositionsOrdered(total: int, maxItems: nat)
    ensures StrictlyOrdered(Compositions(total, maxItems))
    ensures forall p, q :: 0 <= p < q < |Compositions(total, maxItems)| ==>
      Compositions(total, maxItems)[p] != Compositions(total, maxItems)[q]
  {
    BacktrackOrdered([], 0, total, maxItems);
    var cs := Compositions(total, maxItems);
    forall p, q | 0 <= p < q < |cs| ensures cs[p] != cs[q] {
      LexLessIrreflexive(cs[p]);
    }
  }

  lemma LexLessIrreflexive(a: seq<int>)
    ensures !LexLess(a, a)
  {
  }

  lemma LexLessAsymmetric(a: seq<int>, b: seq<int>)
    requires LexLess(a, b)
    ensures !LexLess(b, a)
  {
    var k1: nat :| k1 <= |a| && LexLessAt(a, b, k1);
    assert k1 <= |b|;
    forall k2: nat ensures !LexLessAt(b, a, k2) {
      if k1 < k2 && k1 < |a| {
        assert a[k1] != b[k1];
      }
      if k2 < k1 {
        assert a[k2] == b[k2];
      }
    }
  }

  /** A composition of total into exactly n parts exists when
      1 <= n <= total (the converse is LengthAtMostSum). */
  lemma CompositionOfLengthExists(total: int, n: nat)
    requires 1 <= n <= total
    ensures exists c :: IsComposition(c, total, n) && |c| == n
  {
    var c := [total - n + 1] + seq(n - 1, _ => 1);
    assert Sum(seq(n - 1, _ => 1)) == n - 1 by {
      SumOnes(n - 1);
    }
    assert c[1..] == seq(n - 1, _ => 1);
    assert IsComposition(c, total, n);
  }

  lemma {:induction false} SumOnes(m: nat)
    ensures Sum(seq(m, _ => 1)) == m
  {
    if m > 0 {
      assert seq(m, _ => 1)[1..] == seq(m - 1, _ => 1);
      SumOnes(m - 1);
    }
  }
}

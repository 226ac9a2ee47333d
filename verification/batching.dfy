/** Choosing, for one batch of up to four rows, the composition of the sheet
    capacity that needs the fewest sheets, and naming the plate it goes on. */
module Batching {
  import opened Wrappers
  import opened CompositionGenerator
  import opened Items

  /** Math.ceil(q / u) for an integer q and a positive integer u. */
  function CeilDiv(q: int, u: int): int
    requires u > 0
  {
    (q + u - 1) / u
  }

  /** CeilDiv(q, u) is the least r with r * u >= q. */
  lemma CeilDivSpec(q: int, u: int)
    requires u > 0
    ensures CeilDiv(q, u) * u >= q
    ensures (CeilDiv(q, u) - 1) * u < q
  {
    var d := (q + u - 1) / u;
    assert (q + u - 1) == d * u + (q + u - 1) % u;
  }

  /** Math.max over the batch of Math.ceil(QTY_i / ups_i): the number of sheets
      that brings every row of the batch to its quantity. */
  function SheetsNeeded(batch: seq<Item>, combo: seq<int>): int
    requires |combo| == |batch| > 0 && AllPositive(combo)
  {
    var first := CeilDiv(batch[0].qty, combo[0]);
    if |batch| == 1 then first
    else
      var rest := SheetsNeeded(batch[1..], combo[1..]);
      if first >= rest then first else rest
  }

  /** SheetsNeeded is the largest of the per-row ceilings. */
  lemma {:induction false} SheetsNeededIsMax(batch: seq<Item>, combo: seq<int>)
    requires |combo| == |batch| > 0 && AllPositive(combo)
    ensures forall i :: 0 <= i < |batch| ==> CeilDiv(batch[i].qty, combo[i]) <= SheetsNeeded(batch, combo)
    ensures exists i :: 0 <= i < |batch| && SheetsNeeded(batch, combo) == CeilDiv(batch[i].qty, combo[i])
  {
    var first := CeilDiv(batch[0].qty, combo[0]);
    if |batch| == 1 {
      assert SheetsNeeded(batch, combo) == first;
    } else {
      SheetsNeededIsMax(batch[1..], combo[1..]);
      var rest := SheetsNeeded(batch[1..], combo[1..]);
      forall i | 1 <= i < |batch| ensures CeilDiv(batch[i].qty, combo[i]) <= rest {
        assert batch[1..][i - 1] == batch[i] && combo[1..][i - 1] == combo[i];
      }
      var k :| 0 <= k < |batch| - 1 && rest == CeilDiv(batch[1..][k].qty, combo[1..][k]);
      assert rest == CeilDiv(batch[k + 1].qty, combo[k + 1]);
      if first < rest {
        assert SheetsNeeded(batch, combo) == CeilDiv(batch[k + 1].qty, combo[k + 1]);
      } else {
        assert SheetsNeeded(batch, combo) == CeilDiv(batch[0].qty, combo[0]);
      }
    }
  }

  /** SheetsNeeded is the least number of sheets on which every row of the
      batch reaches its quantity. */
  lemma SheetsNeededIsLeast(batch: seq<Item>, combo: seq<int>, sheets: int)
    requires |combo| == |batch| > 0 && AllPositive(combo)
    ensures forall i :: 0 <= i < |batch| ==> SheetsNeeded(batch, combo) * combo[i] >= batch[i].qty
    ensures (forall i :: 0 <= i < |batch| ==> sheets * combo[i] >= batch[i].qty) ==> sheets >= SheetsNeeded(batch, combo)
  {
    var r := SheetsNeeded(batch, combo);
    SheetsNeededIsMax(batch, combo);
    forall i | 0 <= i < |batch| ensures r * combo[i] >= batch[i].qty {
      var c := CeilDiv(batch[i].qty, combo[i]);
      CeilDivSpec(batch[i].qty, combo[i]);
      MulMonotone(c, r, combo[i]);
    }
    if forall i :: 0 <= i < |batch| ==> sheets * combo[i] >= batch[i].qty {
      var i :| 0 <= i < |batch| && r == CeilDiv(batch[i].qty, combo[i]);
      CeilDivSpec(batch[i].qty, combo[i]);
      if sheets < r {
        MulMonotone(sheets, r - 1, combo[i]);
      }
    }
  }

  lemma MulMonotone(a: int, b: int, u: int)
    requires a <= b && u >= 0
    ensures a * u <= b * u
  {
    assert b * u - a * u == (b - a) * u;
  }

  /** A candidate composition together with its position in the generated
      list and the sheets it needs. */
  datatype Choice = Choice(index: nat, combo: seq<int>, sheets: int)

  /** upsCombos.filter(same length).map(sheetsNeeded).sort(by sheets)[0],
      restricted to the candidates from position `from` on: the stable sort puts
      the first candidate of least sheets in front, so this is that candidate. */
  function BestCombo(combos: seq<seq<int>>, batch: seq<Item>, from: nat): (r: Option<Choice>)
    requires from <= |combos| && |batch| > 0
    requires forall c :: c in combos ==> AllPositive(c)
    ensures r.Some? ==> from <= r.value.index < |combos| && combos[r.value.index] == r.value.combo
    ensures r.Some? ==> |r.value.combo| == |batch|
    decreases |combos| - from
  {
    if from == |combos| then None
    else
      var rest := BestCombo(combos, batch, from + 1);
      if |combos[from]| != |batch| then rest
      else
        var sheets := SheetsNeeded(batch, combos[from]);
        if rest.None? || sheets <= rest.value.sheets then Some(Choice(from, combos[from], sheets))
        else rest
  }

  /** The choice is absent exactly when no candidate has the batch's length;
      otherwise it has that length, needs no more sheets than any candidate of
      that length, and strictly fewer than every such candidate before it. */
  lemma {:induction false} BestComboSpec(combos: seq<seq<int>>, batch: seq<Item>, from: nat)
    requires from <= |combos| && |batch| > 0
    requires forall c :: c in combos ==> AllPositive(c)
    ensures BestCombo(combos, batch, from).None? <==> forall j :: from <= j < |combos| ==> |combos[j]| != |batch|
    ensures BestCombo(combos, batch, from).Some? ==>
      var ch := BestCombo(combos, batch, from).value;
      && |ch.combo| == |batch|
      && ch.sheets == SheetsNeeded(batch, ch.combo)
      && (forall j :: from <= j < |combos| && |combos[j]| == |batch| ==> ch.sheets <= SheetsNeeded(batch, combos[j]))
      && (forall j :: from <= j < ch.index && |combos[j]| == |batch| ==> ch.sheets < SheetsNeeded(batch, combos[j]))
    decreases |combos| - from
  {
    if from < |combos| {
      var rest := BestCombo(combos, batch, from + 1);
      BestComboSpec(combos, batch, from + 1);
      if |combos[from]| == |batch| {
        var sheets := SheetsNeeded(batch, combos[from]);
        if rest.Some? {
          var ch := rest.value;
          assert forall j :: from + 1 <= j < |combos| && |combos[j]| == |batch| ==> ch.sheets <= SheetsNeeded(batch, combos[j]);
        }
      }
    }
  }

  /** Over the full composition list of a capacity, the choice exists exactly
      when the batch is no longer than the capacity, is a composition of the
      capacity of the batch's length, needs no more sheets than any composition
      of that length, and strictly fewer than every composition of that length
      that precedes it lexicographically (the enumeration order). */
  lemma BestComboOverCompositions(cap: int, batch: seq<Item>)
    requires cap >= 1 && 1 <= |batch| <= 4
    ensures BestCombo(Compositions(cap, 4), batch, 0).None? <==> cap < |batch|
    ensures BestCombo(Compositions(cap, 4), batch, 0).Some? ==>
      var ch := BestCombo(Compositions(cap, 4), batch, 0).value;
      && IsComposition(ch.combo, cap, 4) && |ch.combo| == |batch|
      && ch.sheets == SheetsNeeded(batch, ch.combo)
      && (forall c :: IsComposition(c, cap, 4) && |c| == |batch| ==> ch.sheets <= SheetsNeeded(batch, c))
      && (forall c :: IsComposition(c, cap, 4) && |c| == |batch| && LexLess(c, ch.combo) ==>
            ch.sheets < SheetsNeeded(batch, c))
  {
    var cs := Compositions(cap, 4);
    var r := BestCombo(cs, batch, 0);
    BestComboSpec(cs, batch, 0);
    CompositionsExact(cap, 4);
    CompositionsOrdered(cap, 4);
    if cap < |batch| {
      forall j | 0 <= j < |cs| ensures |cs[j]| != |batch| {
        assert IsComposition(cs[j], cap, 4);
        LengthAtMostSum(cs[j]);
      }
    } else {
      CompositionOfLengthExists(cap, |batch|);
      var c :| IsComposition(c, cap, |batch|) && |c| == |batch|;
      assert IsComposition(c, cap, 4);
      assert c in cs;
    }
    if r.Some? {
      var ch := r.value;
      assert ch.combo in cs;
      forall c | IsComposition(c, cap, 4) && |c| == |batch|
        ensures ch.sheets <= SheetsNeeded(batch, c)
        ensures LexLess(c, ch.combo) ==> ch.sheets < SheetsNeeded(batch, c)
      {
        assert c in cs;
        var j :| 0 <= j < |cs| && cs[j] == c;
        if LexLess(c, ch.combo) {
          if j == ch.index {
            LexLessIrreflexive(c);
          } else if j > ch.index {
            assert LexLess(cs[ch.index], cs[j]);
            LexLessAsymmetric(c, ch.combo);
          }
          assert j < ch.index;
        }
      }
    }
  }

  /** String.fromCharCode(65 + plateIndex): the UTF-16 code unit of the plate
      label, 65 + plateIndex taken modulo 2^16. */
  function PlateLabel(plateIndex: nat): (code: nat)
    ensures code < 0x1_0000
    ensures plateIndex < 0x1_0000 - 65 ==> code == 65 + plateIndex
  {
    (65 + plateIndex) % 0x1_0000
  }

  /** Plates 0..25 get the letters 'A'..'Z'. */
  lemma PlateLabelLetters(plateIndex: nat)
    requires plateIndex < 26
    ensures 'A' as int <= PlateLabel(plateIndex) <= 'Z' as int
    ensures PlateLabel(plateIndex) == 'A' as int + plateIndex
  {
  }

  /** The 27th plate is labelled '[', the character after 'Z'. */
  lemma PlateLabelPastZ()
    ensures PlateLabel(26) == '[' as int
  {
  }

  /** Distinct plate indices below 2^16 get distinct labels. */
  lemma PlateLabelInjective(j: nat, k: nat)
    requires j < 0x1_0000 && k < 0x1_0000 && j != k
    ensures PlateLabel(j) != PlateLabel(k)
  {
  }
}

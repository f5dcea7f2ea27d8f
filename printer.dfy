/** The reference manual: every pair number with its colour pair, in table order. */
module Printer {
  import opened Constants
  import opened ColorUtils

  datatype ManualEntry = ManualEntry(pairNumber: int, major: string, minor: string)

  /** The table as the nested loops lay it out: the major colour varies slowest, and the entry
      at position k is pair k + 1. */
  function ReferenceManual(): (m: seq<ManualEntry>)
    ensures |m| == |MajorColors| * |MinorColors|
  {
    seq(25, k requires 0 <= k < 25 => ManualEntry(k + 1, MajorColors[k / 5], MinorColors[k % 5]))
  }

  /** Builds the table by looking up the number of every (major, minor) combination in list order. */
  method GenerateReferenceManual() returns (manualData: seq<ManualEntry>)
    ensures manualData == ReferenceManual()
  {
    ghost var table := ReferenceManual();
    manualData := [];
    for i := 0 to |MajorColors|
      invariant |manualData| == i * |MinorColors|
      invariant manualData == table[..|manualData|]
    {
      var major := MajorColors[i];
      for j := 0 to |MinorColors|
        invariant |manualData| == i * |MinorColors| + j
        invariant manualData == table[..|manualData|]
      {
        var minor := MinorColors[j];
        BlockPosition(i, j);
        assert PairNumberFromColor(major, minor) == Ok(i * 5 + j + 1);
        var pairNumber := PairNumberFromColor(major, minor).value;
        assert ManualEntry(pairNumber, major, minor) == table[i * 5 + j];
        PrefixStep(table, i * 5 + j);
        manualData := manualData + [ManualEntry(pairNumber, major, minor)];
      }
    }
    assert table[..|manualData|] == table;
  }

  /** Extending a prefix of t by the next element of t gives the next prefix. */
  lemma PrefixStep<T>(t: seq<T>, n: nat)
    requires n < |t|
    ensures t[..n + 1] == t[..n] + [t[n]]
  {
  }

  /** The first row is pair 1 (White, Blue) and the last is pair 25 (Violet, Slate). */
  lemma ReferenceManualEnds()
    ensures ReferenceManual()[0] == ManualEntry(1, "White", "Blue")
    ensures ReferenceManual()[24] == ManualEntry(25, "Violet", "Slate")
  {
  }

  /** Pair numbers ascend strictly along the table, so no number appears twice. */
  lemma ReferenceManualAscending()
    ensures forall k, l :: 0 <= k < l < |ReferenceManual()| ==>
      ReferenceManual()[k].pairNumber < ReferenceManual()[l].pairNumber
  {
  }

  /** The set of pair numbers that occur in a table. */
  function PairNumbers(m: seq<ManualEntry>): set<int>
  {
    set e | e in m :: e.pairNumber
  }

  /** The pair numbers of the table are exactly 1..25. */
  lemma ReferenceManualNumbers()
    ensures forall n :: n in PairNumbers(ReferenceManual()) <==> 1 <= n <= 25
  {
    var m := ReferenceManual();
    forall n
      ensures n in PairNumbers(m) <==> 1 <= n <= 25
    {
      if 1 <= n <= 25 {
        assert m[n - 1] in m && m[n - 1].pairNumber == n;
      }
      if n in PairNumbers(m) {
        var e :| e in m && e.pairNumber == n;
        var k :| 0 <= k < |m| && m[k] == e;
      }
    }
  }

  /** Every listed colour combination appears in the table. */
  lemma ReferenceManualCoversAllPairs(majorColor: string, minorColor: string)
    requires majorColor in MajorColors && minorColor in MinorColors
    ensures exists k ::
      0 <= k < |ReferenceManual()| &&
      ReferenceManual()[k].major == majorColor && ReferenceManual()[k].minor == minorColor
  {
    var i :| 0 <= i < |MajorColors| && MajorColors[i] == majorColor;
    var j :| 0 <= j < |MinorColors| && MinorColors[j] == minorColor;
    var k := i * 5 + j;
    assert k / 5 == i && k % 5 == j;
    assert ReferenceManual()[k].major == majorColor && ReferenceManual()[k].minor == minorColor;
  }

  /** Each row agrees with the decoder: its number decodes to its colours. */
  lemma ReferenceManualMatchesDecoder(k: int)
    requires 0 <= k < |ReferenceManual()|
    ensures ColorFromPairNumber(ReferenceManual()[k].pairNumber) ==
      Ok(ColorPair(ReferenceManual()[k].major, ReferenceManual()[k].minor))
  {
    PairAt(k / 5, k % 5);
  }

  /** Each row agrees with the encoder, so the lookup inside the loop never fails. */
  lemma ReferenceManualMatchesEncoder(k: int)
    requires 0 <= k < |ReferenceManual()|
    ensures PairNumberFromColor(ReferenceManual()[k].major, ReferenceManual()[k].minor) ==
      Ok(ReferenceManual()[k].pairNumber)
  {
    PairAt(k / 5, k % 5);
  }
}

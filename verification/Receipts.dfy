/** Goods receipts accumulated per purchase order line. */
module Receipts {
  import opened Prelude
  import opened Schemas

  function Lines(receipts: seq<GoodsReceipt>): seq<ReceiptLine> {
    if receipts == [] then [] else Lines(receipts[..|receipts| - 1]) + receipts[|receipts| - 1].lines
  }

  function Contribution(line: ReceiptLine, number: int): real {
    if line.poLineNumber == number then line.quantityReceived else 0.0
  }

  function QuantityFor(lines: seq<ReceiptLine>, number: int): real {
    if lines == [] then 0.0
    else QuantityFor(lines[..|lines| - 1], number) + Contribution(lines[|lines| - 1], number)
  }

  function Mentioned(lines: seq<ReceiptLine>): set<int> {
    set line | line in lines :: line.poLineNumber
  }

  function Add(totals: map<int, real>, line: ReceiptLine): map<int, real> {
    var before := if line.poLineNumber in totals then totals[line.poLineNumber] else 0.0;
    totals[line.poLineNumber := before + line.quantityReceived]
  }

  function Received(lines: seq<ReceiptLine>): map<int, real> {
    if lines == [] then map[] else Add(Received(lines[..|lines| - 1]), lines[|lines| - 1])
  }

  lemma ReceivedAppend(lines: seq<ReceiptLine>, line: ReceiptLine)
    ensures Received(lines + [line]) == Add(Received(lines), line)
  {
    assert (lines + [line])[..|lines|] == lines;
  }

  method AddReceipt(totals: map<int, real>, receipt: GoodsReceipt, ghost before: seq<ReceiptLine>)
    returns (r: map<int, real>)
    requires totals == Received(before)
    ensures r == Received(before + receipt.lines)
  {
    hide Received;
    var lines := receipt.lines;
    r := totals;
    assert before + lines[..0] == before;
    for j := 0 to |lines|
      invariant r == Received(before + lines[..j])
    {
      var number := lines[j].poLineNumber;
      ReceivedAppend(before + lines[..j], lines[j]);
      assert before + lines[..j + 1] == before + lines[..j] + [lines[j]];
      r := r[number := (if number in r then r[number] else 0.0) + lines[j].quantityReceived];
    }
    assert lines[..|lines|] == lines;
  }

  method ReceivedQuantities(receipts: seq<GoodsReceipt>) returns (totals: map<int, real>)
    ensures totals == Received(Lines(receipts))
  {
    totals := map[];
    for i := 0 to |receipts|
      invariant totals == Received(Lines(receipts[..i]))
    {
      totals := AddReceipt(totals, receipts[i], Lines(receipts[..i]));
      assert receipts[..i + 1][..i] == receipts[..i];
    }
    assert receipts[..|receipts|] == receipts;
  }

  lemma MentionedConcat(xs: seq<ReceiptLine>, ys: seq<ReceiptLine>)
    ensures Mentioned(xs + ys) == Mentioned(xs) + Mentioned(ys)
  {
    forall k
      ensures k in Mentioned(xs + ys) <==> k in Mentioned(xs) || k in Mentioned(ys)
    {
      if k in Mentioned(xs) {
        var l :| l in xs && l.poLineNumber == k;
        assert l in xs + ys;
      }
      if k in Mentioned(ys) {
        var l :| l in ys && l.poLineNumber == k;
        assert l in xs + ys;
      }
    }
  }

  lemma MentionedOne(line: ReceiptLine)
    ensures Mentioned([line]) == {line.poLineNumber}
  {
    assert line in [line];
  }

  /** Per line number, the sum over every receipt line that names it; unnamed numbers are absent. */
  lemma {:induction false} ReceivedExact(lines: seq<ReceiptLine>)
    ensures Received(lines).Keys == Mentioned(lines)
    ensures forall n :: n in Received(lines) ==> Received(lines)[n] == QuantityFor(lines, n)
    ensures forall n :: n !in Received(lines) ==> QuantityFor(lines, n) == 0.0
  {
    if lines != [] {
      var last := |lines| - 1;
      ReceivedExact(lines[..last]);
      MentionedConcat(lines[..last], [lines[last]]);
      MentionedOne(lines[last]);
      assert lines == lines[..last] + [lines[last]];
    }
  }

  lemma {:induction false} QuantityForConcat(xs: seq<ReceiptLine>, ys: seq<ReceiptLine>, number: int)
    ensures QuantityFor(xs + ys, number) == QuantityFor(xs, number) + QuantityFor(ys, number)
  {
    if ys == [] {
      assert xs + ys == xs;
    } else {
      var n := |ys| - 1;
      assert (xs + ys)[..|xs| + n] == xs + ys[..n];
      QuantityForConcat(xs, ys[..n], number);
    }
  }

  /** All lines of all receipts: none of none, a receipt's own of one, and receipts together give theirs together. */
  lemma {:induction false} LinesGather(receipt: GoodsReceipt, xs: seq<GoodsReceipt>, ys: seq<GoodsReceipt>)
    ensures Lines([]) == [] && Lines([receipt]) == receipt.lines && Lines(xs + ys) == Lines(xs) + Lines(ys)
  {
    assert [receipt][..0] == [];
    if ys == [] {
      assert xs + ys == xs;
    } else {
      var n := |ys| - 1;
      assert (xs + ys)[..|xs| + n] == xs + ys[..n];
      LinesGather(receipt, xs, ys[..n]);
    }
  }

  /** The quantity booked for a number: the quantities of the lines that name it, added up. */
  lemma QuantityForAdds(line: ReceiptLine, xs: seq<ReceiptLine>, ys: seq<ReceiptLine>, number: int)
    ensures QuantityFor([], number) == 0.0
    ensures QuantityFor([line], number) == if line.poLineNumber == number then line.quantityReceived else 0.0
    ensures QuantityFor(xs + ys, number) == QuantityFor(xs, number) + QuantityFor(ys, number)
  {
    assert [line][..0] == [];
    QuantityForConcat(xs, ys, number);
  }

  lemma QuantityForWithout(lines: seq<ReceiptLine>, i: nat, number: int)
    requires i < |lines|
    ensures QuantityFor(lines, number)
         == QuantityFor(lines[..i] + lines[i + 1..], number) + Contribution(lines[i], number)
  {
    assert lines == lines[..i] + ([lines[i]] + lines[i + 1..]);
    QuantityForConcat(lines[..i], [lines[i]] + lines[i + 1..], number);
    QuantityForConcat([lines[i]], lines[i + 1..], number);
    QuantityForConcat(lines[..i], lines[i + 1..], number);
  }

  lemma {:induction false} QuantityForPermutation(xs: seq<ReceiptLine>, ys: seq<ReceiptLine>, number: int)
    requires multiset(xs) == multiset(ys)
    ensures QuantityFor(xs, number) == QuantityFor(ys, number)
    decreases |xs|
  {
    if xs == [] {
      assert |multiset(ys)| == 0;
    } else {
      var n := |xs| - 1;
      assert xs[n] in multiset(ys);
      var i :| 0 <= i < |ys| && ys[i] == xs[n];
      MultisetWithout(xs, n);
      MultisetWithout(ys, i);
      assert xs[..n] + xs[n + 1..] == xs[..n];
      QuantityForPermutation(xs[..n], ys[..i] + ys[i + 1..], number);
      QuantityForWithout(ys, i, number);
    }
  }

  /** Only which lines were booked matters: not their order, nor which receipt carries them. */
  lemma ReceivedPermutation(xs: seq<ReceiptLine>, ys: seq<ReceiptLine>)
    requires multiset(xs) == multiset(ys)
    ensures Received(xs) == Received(ys)
  {
    ReceivedExact(xs);
    ReceivedExact(ys);
    forall line
      ensures line in xs <==> line in ys
    {
      assert line in xs <==> line in multiset(xs);
      assert line in ys <==> line in multiset(ys);
    }
    assert Mentioned(xs) == Mentioned(ys);
    forall n | n in Mentioned(xs)
      ensures QuantityFor(xs, n) == QuantityFor(ys, n)
    {
      QuantityForPermutation(xs, ys, n);
    }
  }

  /** Booking one delivery in two parts changes nothing. */
  lemma ReceivedSplit(xs: seq<ReceiptLine>, line: ReceiptLine, part: real, ys: seq<ReceiptLine>)
    ensures var first := line.(quantityReceived := part);
            var second := line.(quantityReceived := line.quantityReceived - part);
            Received(xs + [first, second] + ys) == Received(xs + [line] + ys)
  {
    var first := line.(quantityReceived := part);
    var second := line.(quantityReceived := line.quantityReceived - part);
    var split, whole := xs + [first, second] + ys, xs + [line] + ys;
    ReceivedExact(split);
    ReceivedExact(whole);
    assert [first, second] == [first] + [second];
    forall n
      ensures QuantityFor(split, n) == QuantityFor(whole, n)
    {
      QuantityForConcat(xs + [first, second], ys, n);
      QuantityForConcat(xs, [first, second], n);
      QuantityForConcat([first], [second], n);
      QuantityForConcat(xs + [line], ys, n);
      QuantityForConcat(xs, [line], n);
    }
    MentionedConcat(xs + [first, second], ys);
    MentionedConcat(xs, [first, second]);
    MentionedConcat([first], [second]);
    MentionedConcat(xs + [line], ys);
    MentionedConcat(xs, [line]);
    MentionedOne(first);
    MentionedOne(second);
    MentionedOne(line);
    assert Received(split).Keys == Received(whole).Keys;
  }
}

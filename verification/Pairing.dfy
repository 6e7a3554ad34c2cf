/** Which purchase order line an invoice line is paired with. */
module Pairing {
  import opened Prelude
  import opened Schemas

  const DESCRIPTION_MATCH_THRESHOLD := 75.0

  function CodeOf(text: Text, poLine: PoLine): string {
    text.stripUpper(OrElse(poLine.materialCode, ""))
  }

  predicate Free(poLine: PoLine, consumed: set<int>) {
    poLine.lineNumber !in consumed
  }

  /** The candidates of the last tier with their scores, in purchase order line order. */
  function Scored(text: Text, line: InvoiceLine, poLines: seq<PoLine>, consumed: set<int>): (r: seq<(real, nat)>)
    ensures forall k :: 0 <= k < |r| ==> r[k].1 < |poLines|
    ensures forall k :: 0 <= k < |r| ==> Free(poLines[r[k].1], consumed)
    ensures forall k :: 0 <= k < |r| ==> r[k].0 == text.similarity(line.description, poLines[r[k].1].description)
    ensures forall j, k :: 0 <= j < k < |r| ==> r[j].1 < r[k].1
    ensures forall i :: 0 <= i < |poLines| && Free(poLines[i], consumed) ==>
              (text.similarity(line.description, poLines[i].description), i) in r
  {
    if poLines == [] then []
    else
      var n := |poLines| - 1;
      var init := Scored(text, line, poLines[..n], consumed);
      if Free(poLines[n], consumed)
      then init + [(text.similarity(line.description, poLines[n].description), n)]
      else init
  }

  /** Stable sort by descending score. */
  function SortDescending(s: seq<(real, nat)>): (r: seq<(real, nat)>)
    ensures |r| == |s|
  {
    if s == [] then [] else Insert(s[0], SortDescending(s[1..]))
  }

  function Insert(x: (real, nat), s: seq<(real, nat)>): (r: seq<(real, nat)>)
    ensures |r| == |s| + 1
  {
    if s == [] || s[0].0 <= x.0 then [x] + s else [s[0]] + Insert(x, s[1..])
  }

  /** s[k] is the first element with the highest score. */
  ghost predicate FirstMaximum(s: seq<(real, nat)>, k: nat) {
    && k < |s|
    && (forall j :: 0 <= j < |s| ==> s[j].0 <= s[k].0)
    && (forall j :: 0 <= j < k ==> s[j].0 < s[k].0)
  }

  lemma {:induction false} SortHead(s: seq<(real, nat)>) returns (k: nat)
    requires s != []
    ensures FirstMaximum(s, k)
    ensures SortDescending(s)[0] == s[k]
  {
    if |s| == 1 || SortDescending(s[1..])[0].0 <= s[0].0 {
      k := 0;
      if |s| > 1 {
        var j := SortHead(s[1..]);
      }
    } else {
      var j := SortHead(s[1..]);
      k := j + 1;
    }
  }

  function ByNumber(line: InvoiceLine, poLines: seq<PoLine>, consumed: set<int>): Option<nat> {
    if line.poLineNumber.None? then None
    else
      var number := line.poLineNumber.value;
      FirstIndex(poLines, (l: PoLine) => l.lineNumber == number && Free(l, consumed))
  }

  function ByCode(text: Text, line: InvoiceLine, poLines: seq<PoLine>, consumed: set<int>): Option<nat> {
    if !Truthy(line.materialCode) then None
    else
      var code := text.stripUpper(line.materialCode.value);
      FirstIndex(poLines, (l: PoLine) => CodeOf(text, l) == code && Free(l, consumed))
  }

  function ByDescription(text: Text, line: InvoiceLine, poLines: seq<PoLine>, consumed: set<int>): Option<nat> {
    if line.description == "" then None
    else
      var sorted := SortDescending(Scored(text, line, poLines, consumed));
      if sorted != [] && sorted[0].0 >= DESCRIPTION_MATCH_THRESHOLD then Some(sorted[0].1) else None
  }

  /** Order line number, then material code, then description. */
  function PairLine(text: Text, line: InvoiceLine, poLines: seq<PoLine>, consumed: set<int>): Option<nat> {
    var exact := ByNumber(line, poLines, consumed);
    if exact.Some? then exact
    else
      var byCode := ByCode(text, line, poLines, consumed);
      if byCode.Some? then byCode else ByDescription(text, line, poLines, consumed)
  }

  // The selection stated without lists, searches or sorts.

  predicate NumberHit(line: InvoiceLine, poLine: PoLine, consumed: set<int>) {
    line.poLineNumber == Some(poLine.lineNumber) && poLine.lineNumber !in consumed
  }

  predicate CodeHit(text: Text, line: InvoiceLine, poLine: PoLine, consumed: set<int>) {
    && line.materialCode.Some? && line.materialCode.value != "" && poLine.lineNumber !in consumed
    && text.stripUpper(line.materialCode.value)
       == text.stripUpper(if poLine.materialCode.Some? then poLine.materialCode.value else "")
  }

  predicate FuzzyHit(text: Text, line: InvoiceLine, poLine: PoLine, consumed: set<int>) {
    && line.description != "" && poLine.lineNumber !in consumed
    && text.similarity(line.description, poLine.description) >= 75.0
  }

  ghost predicate NoNumberHit(line: InvoiceLine, poLines: seq<PoLine>, consumed: set<int>) {
    forall i :: 0 <= i < |poLines| ==> !NumberHit(line, poLines[i], consumed)
  }

  ghost predicate NoCodeHit(text: Text, line: InvoiceLine, poLines: seq<PoLine>, consumed: set<int>) {
    forall i :: 0 <= i < |poLines| ==> !CodeHit(text, line, poLines[i], consumed)
  }

  /** The best free line by description, the earliest among equals. */
  ghost predicate BestFuzzy(text: Text, line: InvoiceLine, poLines: seq<PoLine>, consumed: set<int>, i: nat) {
    && i < |poLines| && FuzzyHit(text, line, poLines[i], consumed)
    && forall j :: 0 <= j < |poLines| && poLines[j].lineNumber !in consumed ==>
         && text.similarity(line.description, poLines[j].description)
            <= text.similarity(line.description, poLines[i].description)
         && (j < i ==>
               text.similarity(line.description, poLines[j].description)
               < text.similarity(line.description, poLines[i].description))
  }

  ghost predicate GreedyChoice(
    text: Text, line: InvoiceLine, poLines: seq<PoLine>, consumed: set<int>, r: Option<nat>)
  {
    if !NoNumberHit(line, poLines, consumed) then
      r.Some? && r.value < |poLines| && NumberHit(line, poLines[r.value], consumed)
      && forall j :: 0 <= j < r.value ==> !NumberHit(line, poLines[j], consumed)
    else if !NoCodeHit(text, line, poLines, consumed) then
      r.Some? && r.value < |poLines| && CodeHit(text, line, poLines[r.value], consumed)
      && forall j :: 0 <= j < r.value ==> !CodeHit(text, line, poLines[j], consumed)
    else if exists i :: 0 <= i < |poLines| && FuzzyHit(text, line, poLines[i], consumed) then
      r.Some? && BestFuzzy(text, line, poLines, consumed, r.value)
    else r.None?
  }

  lemma ByNumberIsFirstHit(line: InvoiceLine, poLines: seq<PoLine>, consumed: set<int>)
    ensures var r := ByNumber(line, poLines, consumed);
            && (r.None? <==> NoNumberHit(line, poLines, consumed))
            && (r.Some? ==> r.value < |poLines| && NumberHit(line, poLines[r.value], consumed)
                            && forall j :: 0 <= j < r.value ==> !NumberHit(line, poLines[j], consumed))
  {
    var r := ByNumber(line, poLines, consumed);
    if r.Some? {
      assert NumberHit(line, poLines[r.value], consumed);
    }
  }

  lemma ByCodeIsFirstHit(text: Text, line: InvoiceLine, poLines: seq<PoLine>, consumed: set<int>)
    ensures var r := ByCode(text, line, poLines, consumed);
            && (r.None? <==> NoCodeHit(text, line, poLines, consumed))
            && (r.Some? ==> r.value < |poLines| && CodeHit(text, line, poLines[r.value], consumed)
                            && forall j :: 0 <= j < r.value ==> !CodeHit(text, line, poLines[j], consumed))
  {
    var r := ByCode(text, line, poLines, consumed);
    if r.Some? {
      assert CodeHit(text, line, poLines[r.value], consumed);
    }
  }

  lemma ByDescriptionIsBest(text: Text, line: InvoiceLine, poLines: seq<PoLine>, consumed: set<int>)
    ensures var r := ByDescription(text, line, poLines, consumed);
            if exists i :: 0 <= i < |poLines| && FuzzyHit(text, line, poLines[i], consumed)
            then r.Some? && BestFuzzy(text, line, poLines, consumed, r.value)
            else r.None?
  {
    var scored := Scored(text, line, poLines, consumed);
    if scored != [] {
      var k := SortHead(scored);
      var best := scored[k].1;
      forall j | 0 <= j < |poLines| && Free(poLines[j], consumed)
        ensures text.similarity(line.description, poLines[j].description) <= scored[k].0
        ensures j < best ==> text.similarity(line.description, poLines[j].description) < scored[k].0
      {
        var m :| 0 <= m < |scored| && scored[m] == (text.similarity(line.description, poLines[j].description), j);
      }
    }
  }

  lemma PairLineIsGreedy(text: Text, line: InvoiceLine, poLines: seq<PoLine>, consumed: set<int>)
    ensures var r := PairLine(text, line, poLines, consumed);
            && GreedyChoice(text, line, poLines, consumed, r)
            && (r.Some? ==> r.value < |poLines| && Free(poLines[r.value], consumed))
  {
    ByNumberIsFirstHit(line, poLines, consumed);
    ByCodeIsFirstHit(text, line, poLines, consumed);
    ByDescriptionIsBest(text, line, poLines, consumed);
  }

  /** The greedy choice leaves no freedom, so the function and the description agree on every input. */
  lemma GreedyChoiceUnique(
    text: Text, line: InvoiceLine, poLines: seq<PoLine>, consumed: set<int>, r: Option<nat>)
    ensures GreedyChoice(text, line, poLines, consumed, r) <==> r == PairLine(text, line, poLines, consumed)
  {
    PairLineIsGreedy(text, line, poLines, consumed);
    var p := PairLine(text, line, poLines, consumed);
    if GreedyChoice(text, line, poLines, consumed, r) && r.Some? && p.Some? {
      if r.value < p.value {
      } else if p.value < r.value {
      }
    }
  }

  /** Every invoice line in turn, each one taking its purchase order line number out of play. */
  function Pairs(text: Text, lines: seq<InvoiceLine>, poLines: seq<PoLine>): (r: seq<Option<nat>>)
    ensures |r| == |lines|
  {
    if lines == [] then []
    else
      var n := |lines| - 1;
      var init := Pairs(text, lines[..n], poLines);
      init + [PairLine(text, lines[n], poLines, Consumed(init, poLines))]
  }

  function Consumed(pairs: seq<Option<nat>>, poLines: seq<PoLine>): set<int> {
    if pairs == [] then {}
    else
      var n := |pairs| - 1;
      Consumed(pairs[..n], poLines) + Takes(pairs[n], poLines)
  }

  function Takes(pair: Option<nat>, poLines: seq<PoLine>): set<int> {
    if pair.Some? && pair.value < |poLines| then {poLines[pair.value].lineNumber} else {}
  }

  lemma PairsAppend(text: Text, lines: seq<InvoiceLine>, line: InvoiceLine, poLines: seq<PoLine>)
    ensures var init := Pairs(text, lines, poLines);
            Pairs(text, lines + [line], poLines) == init + [PairLine(text, line, poLines, Consumed(init, poLines))]
  {
    assert (lines + [line])[..|lines|] == lines;
  }

  lemma {:induction false} PairsPrefix(text: Text, lines: seq<InvoiceLine>, poLines: seq<PoLine>, n: nat)
    requires n <= |lines|
    ensures Pairs(text, lines[..n], poLines) == Pairs(text, lines, poLines)[..n]
  {
    if n == |lines| {
      assert lines[..n] == lines;
    } else {
      var m := |lines| - 1;
      PairsPrefix(text, lines[..m], poLines, n);
      assert lines[..m][..n] == lines[..n];
      assert Pairs(text, lines, poLines)[..m] == Pairs(text, lines[..m], poLines);
    }
  }

  lemma PairsAt(text: Text, lines: seq<InvoiceLine>, poLines: seq<PoLine>, k: nat)
    requires k < |lines|
    ensures var p := Pairs(text, lines, poLines);
            p[k] == PairLine(text, lines[k], poLines, Consumed(p[..k], poLines))
  {
    hide PairLine, Consumed;
    PairsPrefix(text, lines, poLines, k);
    PairsPrefix(text, lines, poLines, k + 1);
    assert lines[..k + 1] == lines[..k] + [lines[k]];
    PairsAppend(text, lines[..k], lines[k], poLines);
    assert Pairs(text, lines, poLines)[k] == Pairs(text, lines, poLines)[..k + 1][k];
  }

  lemma PairInRange(text: Text, lines: seq<InvoiceLine>, poLines: seq<PoLine>, k: nat)
    requires k < |lines|
    ensures var p := Pairs(text, lines, poLines);
            p[k].Some? ==> p[k].value < |poLines| && Free(poLines[p[k].value], Consumed(p[..k], poLines))
  {
    PairsAt(text, lines, poLines, k);
    PairLineIsGreedy(text, lines[k], poLines, Consumed(Pairs(text, lines, poLines)[..k], poLines));
  }

  lemma ConsumedStep(pairs: seq<Option<nat>>, poLines: seq<PoLine>, i: nat)
    requires i < |pairs|
    ensures Consumed(pairs[..i + 1], poLines) == Consumed(pairs[..i], poLines) + Takes(pairs[i], poLines)
  {
    assert pairs[..i + 1][..i] == pairs[..i];
  }

  /** Exactly the line numbers of the paired lines are out of play. */
  lemma {:induction false} ConsumedExact(pairs: seq<Option<nat>>, poLines: seq<PoLine>, n: int)
    ensures n in Consumed(pairs, poLines) <==> exists j :: 0 <= j < |pairs| && n in Takes(pairs[j], poLines)
  {
    if pairs != [] {
      var last := |pairs| - 1;
      ConsumedExact(pairs[..last], poLines, n);
      if n in Consumed(pairs[..last], poLines) {
        var j :| 0 <= j < last && n in Takes(pairs[..last][j], poLines);
        assert n in Takes(pairs[j], poLines);
      }
      if j :| 0 <= j < |pairs| && n in Takes(pairs[j], poLines) {
        assert j < last ==> n in Takes(pairs[..last][j], poLines);
      }
    }
  }

  /** No purchase order line number is used twice, even when the order itself repeats numbers. */
  lemma PairsInjective(text: Text, lines: seq<InvoiceLine>, poLines: seq<PoLine>, j: nat, k: nat)
    requires j < k < |lines|
    ensures var p := Pairs(text, lines, poLines);
            p[j].Some? && p[k].Some? ==>
              && p[j].value < |poLines| && p[k].value < |poLines|
              && poLines[p[j].value].lineNumber != poLines[p[k].value].lineNumber
  {
    var p := Pairs(text, lines, poLines);
    PairInRange(text, lines, poLines, j);
    PairInRange(text, lines, poLines, k);
    if p[j].Some? && p[k].Some? {
      var n := poLines[p[j].value].lineNumber;
      ConsumedExact(p[..k], poLines, n);
      assert n in Takes(p[..k][j], poLines);
    }
  }

  // The whole pairing stated without the function

  /** The order line numbers the first k lines have taken. */
  function TakenBefore(partners: seq<Option<nat>>, poLines: seq<PoLine>, k: nat): set<int>
    requires k <= |partners|
  {
    set j | 0 <= j < k && partners[j].Some? && partners[j].value < |poLines| :: poLines[partners[j].value].lineNumber
  }

  /** Every line has the partner the greedy description gives it among the order lines not taken before it. */
  ghost predicate IsPairing(
    text: Text, lines: seq<InvoiceLine>, poLines: seq<PoLine>, partners: seq<Option<nat>>)
  {
    && |partners| == |lines|
    && forall k :: 0 <= k < |lines| ==>
         GreedyChoice(text, lines[k], poLines, TakenBefore(partners, poLines, k), partners[k])
  }

  lemma TakenIsConsumed(partners: seq<Option<nat>>, poLines: seq<PoLine>, k: nat)
    requires k <= |partners|
    ensures TakenBefore(partners, poLines, k) == Consumed(partners[..k], poLines)
  {
    forall n
      ensures n in TakenBefore(partners, poLines, k) <==> n in Consumed(partners[..k], poLines)
    {
      ConsumedExact(partners[..k], poLines, n);
      if n in TakenBefore(partners, poLines, k) {
        var j :| 0 <= j < k && partners[j].Some? && partners[j].value < |poLines|
                 && poLines[partners[j].value].lineNumber == n;
        assert n in Takes(partners[..k][j], poLines);
      }
    }
  }

  /** One sequence of partners meets the description, whatever the invoice and the order, and it is the one computed. */
  lemma {:induction false} PairingUnique(
    text: Text, lines: seq<InvoiceLine>, poLines: seq<PoLine>, partners: seq<Option<nat>>)
    ensures IsPairing(text, lines, poLines, partners) <==> partners == Pairs(text, lines, poLines)
  {
    hide GreedyChoice, PairLine, Consumed;
    var pairs := Pairs(text, lines, poLines);
    forall k | 0 <= k < |lines|
      ensures GreedyChoice(text, lines[k], poLines, TakenBefore(pairs, poLines, k), pairs[k])
    {
      TakenIsConsumed(pairs, poLines, k);
      PairsAt(text, lines, poLines, k);
      GreedyChoiceUnique(text, lines[k], poLines, Consumed(pairs[..k], poLines), pairs[k]);
    }
    if IsPairing(text, lines, poLines, partners) {
      SamePartners(text, lines, poLines, partners, |lines|);
      assert pairs[..|lines|] == pairs && partners[..|lines|] == partners;
    }
  }

  lemma {:induction false} SamePartners(
    text: Text, lines: seq<InvoiceLine>, poLines: seq<PoLine>, partners: seq<Option<nat>>, k: nat)
    requires IsPairing(text, lines, poLines, partners) && k <= |lines|
    ensures partners[..k] == Pairs(text, lines, poLines)[..k]
  {
    hide GreedyChoice, PairLine, Consumed;
    if k > 0 {
      var pairs := Pairs(text, lines, poLines);
      SamePartners(text, lines, poLines, partners, k - 1);
      TakenIsConsumed(partners, poLines, k - 1);
      PairsAt(text, lines, poLines, k - 1);
      GreedyChoiceUnique(text, lines[k - 1], poLines, Consumed(partners[..k - 1], poLines), partners[k - 1]);
      assert partners[k - 1] == pairs[k - 1];
      assert partners[..k] == partners[..k - 1] + [partners[k - 1]] && pairs[..k] == pairs[..k - 1] + [pairs[k - 1]];
    }
  }
}

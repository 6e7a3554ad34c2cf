/** Small vocabulary shared by every module: optional values, sums over sequences,
    first-match search and order-preserving removal of duplicates. */
module Prelude {
  datatype Option<+T> = None | Some(value: T)

  function Sum(xs: seq<real>): real {
    if xs == [] then 0.0 else Sum(xs[..|xs| - 1]) + xs[|xs| - 1]
  }

  lemma SumAppend(xs: seq<real>, x: real)
    ensures Sum(xs + [x]) == Sum(xs) + x
  {
    assert (xs + [x])[..|xs|] == xs;
  }

  /** Adding up: nothing for nothing, an amount for itself, and part by part. */
  lemma {:induction false} SumAdds(x: real, xs: seq<real>, ys: seq<real>)
    ensures Sum([]) == 0.0 && Sum([x]) == x && Sum(xs + ys) == Sum(xs) + Sum(ys)
  {
    assert [x][..0] == [];
    if ys == [] {
      assert xs + ys == xs;
    } else {
      var n := |ys| - 1;
      assert (xs + ys)[..|xs| + n] == xs + ys[..n];
      SumAdds(x, xs, ys[..n]);
    }
  }

  lemma SumTwo(a: real, b: real)
    ensures Sum([a, b]) == a + b
  {
    SumAppend([], a);
    SumAppend([a], b);
    assert [] + [a] == [a] && [a] + [b] == [a, b];
  }

  lemma SumThree(a: real, b: real, c: real)
    ensures Sum([a, b, c]) == a + b + c
  {
    SumTwo(a, b);
    SumAppend([a, b], c);
    assert [a, b] + [c] == [a, b, c];
  }

  lemma {:induction false} SumUpdate(xs: seq<real>, i: nat, x: real)
    requires i < |xs|
    ensures Sum(xs[i := x]) == Sum(xs) - xs[i] + x
  {
    var n := |xs| - 1;
    if i == n {
      assert xs[i := x][..n] == xs[..n];
    } else {
      assert xs[i := x][..n] == xs[..n][i := x];
      SumUpdate(xs[..n], i, x);
    }
  }

  lemma {:induction false} SumNonNegative(xs: seq<real>)
    requires forall i :: 0 <= i < |xs| ==> xs[i] >= 0.0
    ensures Sum(xs) >= 0.0
  {
    if xs != [] {
      SumNonNegative(xs[..|xs| - 1]);
    }
  }

  /** Amounts that are not negative add up to nothing exactly when each is nothing. */
  lemma {:induction false} SumZeroExactly(xs: seq<real>)
    requires forall i :: 0 <= i < |xs| ==> xs[i] >= 0.0
    ensures Sum(xs) >= 0.0
    ensures Sum(xs) == 0.0 <==> forall i :: 0 <= i < |xs| ==> xs[i] == 0.0
  {
    if xs != [] {
      SumZeroExactly(xs[..|xs| - 1]);
    }
  }

  /** Distinct positions of a non-negative sequence never add up to more than the whole. */
  lemma {:induction false} SubSum(xs: seq<real>, at: seq<nat>)
    requires forall i :: 0 <= i < |xs| ==> xs[i] >= 0.0
    requires forall k :: 0 <= k < |at| ==> at[k] < |xs|
    requires forall j, k :: 0 <= j < k < |at| ==> at[j] != at[k]
    ensures Sum(seq(|at|, k requires 0 <= k < |at| => xs[at[k]])) <= Sum(xs)
    decreases |at|
  {
    var picked := seq(|at|, k requires 0 <= k < |at| => xs[at[k]]);
    if at == [] {
      SumNonNegative(xs);
    } else {
      var n := |at| - 1;
      var rest := xs[at[n] := 0.0];
      SubSum(rest, at[..n]);
      var before := seq(n, k requires 0 <= k < n => rest[at[..n][k]]);
      assert picked[..n] == before;
      SumUpdate(xs, at[n], 0.0);
    }
  }

  /** A sequence of distinct positions is no longer than the range it points into. */
  lemma {:induction false} Pigeonhole(at: seq<nat>, n: nat)
    requires forall k :: 0 <= k < |at| ==> at[k] < n
    requires forall j, k :: 0 <= j < k < |at| ==> at[j] != at[k]
    ensures |at| <= n
  {
    var ones := seq(n, i => 1.0);
    SubSum(ones, at);
    SumOnes(n);
    SumOnes(|at|);
    assert seq(|at|, k requires 0 <= k < |at| => ones[at[k]]) == seq(|at|, i => 1.0);
  }

  lemma {:induction false} SumOnes(n: nat)
    ensures Sum(seq(n, i => 1.0)) == n as real
  {
    if n > 0 {
      SumOnes(n - 1);
      assert seq(n, i => 1.0)[..n - 1] == seq(n - 1, i => 1.0);
    }
  }

  /** The position of the first element that satisfies p. */
  function FirstIndex<T>(xs: seq<T>, p: T -> bool): (r: Option<nat>)
    ensures r.Some? ==> r.value < |xs| && p(xs[r.value]) && forall j :: 0 <= j < r.value ==> !p(xs[j])
    ensures r.None? ==> forall j :: 0 <= j < |xs| ==> !p(xs[j])
  {
    FirstIndexFrom(xs, p, 0)
  }

  function FirstIndexFrom<T>(xs: seq<T>, p: T -> bool, k: nat): (r: Option<nat>)
    requires k <= |xs|
    ensures r.Some? ==> k <= r.value < |xs| && p(xs[r.value]) && forall j :: k <= j < r.value ==> !p(xs[j])
    ensures r.None? ==> forall j :: k <= j < |xs| ==> !p(xs[j])
    decreases |xs| - k
  {
    if k == |xs| then None
    else if p(xs[k]) then Some(k)
    else FirstIndexFrom(xs, p, k + 1)
  }

  /** Keeps the first occurrence of every element, in order. */
  function Dedup<T(==)>(xs: seq<T>): seq<T> {
    if xs == [] then []
    else
      var init, last := Dedup(xs[..|xs| - 1]), xs[|xs| - 1];
      if last in xs[..|xs| - 1] then init else init + [last]
  }

  /** a comes strictly before the first b in xs. */
  ghost predicate FirstBefore<T>(xs: seq<T>, a: T, b: T) {
    exists i :: 0 <= i < |xs| && xs[i] == a && b !in xs[..i + 1]
  }

  ghost predicate NoDuplicates<T>(xs: seq<T>) {
    forall i, j :: 0 <= i < j < |xs| ==> xs[i] != xs[j]
  }

  lemma {:induction false} DedupSameElements<T(!new)>(xs: seq<T>)
    ensures forall x :: x in Dedup(xs) <==> x in xs
    ensures Dedup(xs) == [] <==> xs == []
    ensures NoDuplicates(Dedup(xs))
  {
    if xs != [] {
      var n := |xs| - 1;
      DedupSameElements(xs[..n]);
      assert xs == xs[..n] + [xs[n]];
      if xs[n] in xs[..n] {
        assert Dedup(xs) == Dedup(xs[..n]);
      }
    }
  }

  /** Elements of the result stand in the order of their first occurrences. */
  lemma {:induction false} DedupKeepsOrder<T(!new)>(xs: seq<T>, i: nat, j: nat)
    requires i < j < |Dedup(xs)|
    ensures FirstBefore(xs, Dedup(xs)[i], Dedup(xs)[j])
  {
    var n := |xs| - 1;
    var init := Dedup(xs[..n]);
    DedupSameElements(xs[..n]);
    if j < |init| {
      DedupKeepsOrder(xs[..n], i, j);
      var k :| 0 <= k < n && xs[..n][k] == init[i] && init[j] !in xs[..n][..k + 1];
      assert xs[..n][..k + 1] == xs[..k + 1];
      assert xs[k] == init[i];
    } else {
      assert init[i] in xs[..n];
      var k :| 0 <= k < n && xs[..n][k] == init[i];
      assert xs[n] !in xs[..k + 1];
    }
  }

  lemma MultisetWithout<T>(xs: seq<T>, i: nat)
    requires i < |xs|
    ensures multiset(xs[..i] + xs[i + 1..]) == multiset(xs) - multiset{xs[i]}
  {
    assert xs == xs[..i] + ([xs[i]] + xs[i + 1..]);
  }

  lemma TakeOneMore<T>(xs: seq<T>, i: nat)
    requires i < |xs|
    ensures xs[..i + 1] == xs[..i] + [xs[i]]
  {
  }

  lemma FlattenOneMore<T>(xss: seq<seq<T>>, i: nat)
    requires i < |xss|
    ensures Flatten(xss[..i + 1]) == Flatten(xss[..i]) + xss[i]
  {
    assert xss[..i + 1][..i] == xss[..i];
  }

  function Flatten<T>(xss: seq<seq<T>>): seq<T> {
    if xss == [] then [] else Flatten(xss[..|xss| - 1]) + xss[|xss| - 1]
  }

  lemma {:induction false} FlattenElements<T(!new)>(xss: seq<seq<T>>)
    ensures forall x :: x in Flatten(xss) <==> exists i :: 0 <= i < |xss| && x in xss[i]
  {
    if xss != [] {
      var n := |xss| - 1;
      FlattenElements(xss[..n]);
      forall x
        ensures x in Flatten(xss) <==> exists i :: 0 <= i < |xss| && x in xss[i]
      {
        if x in Flatten(xss[..n]) {
          var i :| 0 <= i < n && x in xss[..n][i];
          assert x in xss[i];
        }
        if i :| 0 <= i < |xss| && x in xss[i] {
          if i < n {
            assert x in xss[..n][i];
          }
        }
      }
    }
  }

  lemma NonEmptyCarries<T(!new)>(xs: seq<T>, ys: seq<T>)
    requires forall x :: x in xs ==> x in ys
    ensures xs != [] ==> ys != []
  {
    if xs != [] {
      assert xs[0] in ys;
    }
  }

  ghost predicate IsPermutation(perm: seq<nat>, n: nat) {
    && |perm| == n
    && (forall k :: 0 <= k < n ==> perm[k] < n)
    && (forall j, k :: 0 <= j < k < n ==> perm[j] != perm[k])
    && (forall i :: 0 <= i < n ==> i in perm)
  }

  lemma FlattenPermuted<T(!new)>(xss: seq<seq<T>>, yss: seq<seq<T>>, perm: seq<nat>)
    requires IsPermutation(perm, |yss|) && |xss| == |yss|
    requires forall k :: 0 <= k < |xss| ==> xss[k] == yss[perm[k]]
    ensures forall x :: x in Flatten(xss) <==> x in Flatten(yss)
  {
    FlattenElements(xss);
    FlattenElements(yss);
    forall x
      ensures x in Flatten(xss) <==> x in Flatten(yss)
    {
      if x in Flatten(xss) {
        var k :| 0 <= k < |xss| && x in xss[k];
        assert x in yss[perm[k]];
      }
      if x in Flatten(yss) {
        var i: nat :| i < |yss| && x in yss[i];
        assert i in perm;
        var k :| 0 <= k < |perm| && perm[k] == i;
        assert x in xss[k];
      }
    }
  }

  // Texts joined by a separator

  /** c is a, the separator and more, and that more has moved over to the front of b. */
  predicate Shifted(a: string, b: string, c: string, d: string, separator: char) {
    |a| < |c| && c[..|a|] == a && c[|a|] == separator && b == c[|a| + 1..] + [separator] + d
  }

  predicate SameJoin(a: string, b: string, c: string, d: string, separator: char) {
    || (a == c && b == d)
    || Shifted(a, b, c, d, separator)
    || Shifted(c, d, a, b, separator)
  }

  lemma ShortFirst(a: string, b: string, c: string, d: string, separator: char)
    requires |a| < |c|
    ensures a + [separator] + b == c + [separator] + d <==> Shifted(a, b, c, d, separator)
  {
    var left, right := a + [separator] + b, c + [separator] + d;
    assert left[..|a|] == a && left[|a|] == separator && left[|a| + 1..] == b;
    assert right[..|a|] == c[..|a|] && right[|a|] == c[|a|] && right[|a| + 1..] == c[|a| + 1..] + [separator] + d;
    assert left == left[..|a|] + [left[|a|]] + left[|a| + 1..];
    assert right == right[..|a|] + [right[|a|]] + right[|a| + 1..];
  }

  /** Two joins read the same exactly when their parts are the same or the separator inside one left part lets the two
      be cut differently. */
  lemma JoinExact(a: string, b: string, c: string, d: string, separator: char)
    ensures a + [separator] + b == c + [separator] + d <==> SameJoin(a, b, c, d, separator)
  {
    if |a| < |c| {
      ShortFirst(a, b, c, d, separator);
    } else if |c| < |a| {
      ShortFirst(c, d, a, b, separator);
    } else {
      var left, right := a + [separator] + b, c + [separator] + d;
      assert left[..|a|] == a && left[|a| + 1..] == b && right[..|a|] == c && right[|a| + 1..] == d;
    }
  }

  // Subsequences

  predicate Embeds<T(==)>(few: seq<T>, many: seq<T>, at: seq<nat>) {
    && |at| == |few|
    && (forall k :: 0 <= k < |at| ==> at[k] < |many| && few[k] == many[at[k]])
    && forall j, k :: 0 <= j < k < |at| ==> at[j] < at[k]
  }

  /** Some of many, in their order. */
  ghost predicate Subsequence<T>(few: seq<T>, many: seq<T>) {
    exists at :: Embeds(few, many, at)
  }

  lemma NothingYetTaken<T>(many: seq<T>)
    ensures Subsequence([], many)
  {
    assert Embeds([], many, []);
  }

  /** One more, taken or not. */
  lemma SubsequenceGrows<T>(few: seq<T>, many: seq<T>, x: T, taken: bool)
    requires Subsequence(few, many)
    ensures Subsequence(if taken then few + [x] else few, many + [x])
  {
    var at: seq<nat> :| Embeds(few, many, at);
    assert Embeds(few, many + [x], at);
    assert Embeds(few + [x], many + [x], at + [|many|]);
  }
}

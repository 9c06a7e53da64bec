/** The area under the ROC curve, computed from ranks in the sorted negatives; rounding is not modelled. */
module Auc {
  import opened Prelude

  // ---------- The fast form ----------

  function Insert(x: real, s: seq<real>): (r: seq<real>)
    ensures |r| == |s| + 1
  {
    if s == [] then [x] else if x <= s[0] then [x] + s else [s[0]] + Insert(x, s[1..])
  }

  function Sort(s: seq<real>): (r: seq<real>)
    ensures |r| == |s|
  {
    if s == [] then [] else Insert(s[0], Sort(s[1..]))
  }

  ghost predicate Sorted(s: seq<real>) {
    forall i, j :: 0 <= i < j < |s| ==> s[i] <= s[j]
  }

  predicate Before(a: real, x: real, right: bool) {
    if right then a <= x else a < x
  }

  /** `searchsorted`: where x would be inserted, before or after its equals. */
  method SearchSorted(s: seq<real>, x: real, right: bool) returns (k: nat)
    requires Sorted(s)
    ensures k == Count(s, x, right)
  {
    var low, high := 0, |s|;
    while low < high
      invariant 0 <= low <= high <= |s|
      invariant forall i :: 0 <= i < low ==> Before(s[i], x, right)
      invariant forall i :: high <= i < |s| ==> !Before(s[i], x, right)
    {
      var middle := (low + high) / 2;
      if Before(s[middle], x, right) {
        low := middle + 1;
      } else {
        high := middle;
      }
    }
    SplitCount(s, x, right, low);
    return low;
  }

  function Chosen(values: seq<real>, labels: seq<int>, class_: int): seq<real>
    requires |values| == |labels|
  {
    if values == [] then []
    else (if labels[0] == class_ then [values[0]] else []) + Chosen(values[1..], labels[1..], class_)
  }

  predicate Usable(values: seq<real>, labels: seq<int>) {
    |values| == |labels| && (forall l :: l in labels ==> l == 0 || l == 1) && 0 in labels && 1 in labels
  }

  /** The sum over the positives of their ranks, ties counting one half. */
  method RankSum(positives: seq<real>, unsorted: seq<real>) returns (sum: real)
    ensures sum == PairSum(positives, unsorted)
  {
    var negatives := Sort(unsorted);
    SortSorts(unsorted);
    sum := 0.0;
    for i := 0 to |positives|
      invariant sum == PairSum(positives[..i], unsorted)
    {
      var below := SearchSorted(negatives, positives[i], false);
      var through := SearchSorted(negatives, positives[i], true);
      SortCounts(unsorted, positives[i], false);
      SortCounts(unsorted, positives[i], true);
      Ranks(positives[i], unsorted);
      assert positives[..i + 1][..i] == positives[..i];
      var equal := through - below;
      sum := sum + (below as real + 0.5 * equal as real);
    }
    assert positives[..|positives|] == positives;
  }

  function Average(sum: real, positives: nat, negatives: nat): real
    requires positives > 0 && negatives > 0
  {
    sum / (positives as real * negatives as real)
  }

  method RocAuc(values: seq<real>, labels: seq<int>) returns (r: Result<real>)
    ensures r.Ok? <==> Usable(values, labels)
    ensures r.Ok? ==> r.value == Definition(values, labels)
  {
    if |values| != |labels| {
      return Error("invalid AUC inputs");
    }
    if !Usable(values, labels) {
      return Error("AUC needs both binary classes");
    }
    Classes(values, labels);
    var positives, negatives := Chosen(values, labels, 1), Chosen(values, labels, 0);
    var sum := RankSum(positives, negatives);
    return Ok(Average(sum, |positives|, |negatives|));
  }

  // ---------- The definition ----------

  /** One for a positive above a negative, one half for a tie. */
  function Score(positive: real, negative: real): real {
    if positive > negative then 1.0 else if positive == negative then 0.5 else 0.0
  }

  function Row(x: real, negatives: seq<real>): real {
    if negatives == [] then 0.0 else Score(x, negatives[0]) + Row(x, negatives[1..])
  }

  function PairSum(positives: seq<real>, negatives: seq<real>): real {
    if positives == [] then 0.0
    else PairSum(positives[..|positives| - 1], negatives) + Row(positives[|positives| - 1], negatives)
  }

  /** The probability that a positive outscores a negative, over all pairs. */
  function Definition(values: seq<real>, labels: seq<int>): real
    requires Usable(values, labels)
  {
    Classes(values, labels);
    var p, n := Chosen(values, labels, 1), Chosen(values, labels, 0);
    Average(PairSum(p, n), |p|, |n|)
  }

  lemma {:induction false} Classes(values: seq<real>, labels: seq<int>)
    requires |values| == |labels|
    ensures 0 in labels ==> |Chosen(values, labels, 0)| > 0
    ensures 1 in labels ==> |Chosen(values, labels, 1)| > 0
  {
    if values != [] {
      Classes(values[1..], labels[1..]);
    }
  }

  // ---------- Ranks are counts ----------

  /** How many elements come before x. */
  function Count(s: seq<real>, x: real, right: bool): nat {
    if s == [] then 0 else (if Before(s[0], x, right) then 1 else 0) + Count(s[1..], x, right)
  }

  lemma {:induction false} SplitCount(s: seq<real>, x: real, right: bool, k: nat)
    requires k <= |s| && (forall i :: 0 <= i < k ==> Before(s[i], x, right)) && (forall i :: k <= i < |s| ==> !Before(s[i], x, right))
    ensures Count(s, x, right) == k
    decreases |s|
  {
    if s != [] {
      SplitCount(s[1..], x, right, if k > 0 then k - 1 else 0);
    }
  }

  lemma ConsSorted(x: real, s: seq<real>)
    requires Sorted(s) && forall i :: 0 <= i < |s| ==> x <= s[i]
    ensures Sorted([x] + s)
  {
  }

  lemma {:induction false} InsertKeeps(x: real, s: seq<real>)
    requires Sorted(s)
    ensures Sorted(Insert(x, s)) && forall i :: 0 <= i < |Insert(x, s)| ==> Insert(x, s)[i] == x || Insert(x, s)[i] in s
  {
    if s != [] {
      if x <= s[0] {
        ConsSorted(x, s);
      } else {
        InsertKeeps(x, s[1..]);
        ConsSorted(s[0], Insert(x, s[1..]));
      }
    }
  }

  lemma {:induction false} SortSorts(s: seq<real>)
    ensures Sorted(Sort(s))
  {
    if s != [] {
      SortSorts(s[1..]);
      InsertKeeps(s[0], Sort(s[1..]));
    }
  }

  lemma {:induction false} InsertCounts(y: real, s: seq<real>, x: real, right: bool)
    ensures Count(Insert(y, s), x, right) == Count(s, x, right) + if Before(y, x, right) then 1 else 0
  {
    if s != [] && y > s[0] {
      InsertCounts(y, s[1..], x, right);
    }
  }

  /** Sorting changes no rank. */
  lemma {:induction false} SortCounts(s: seq<real>, x: real, right: bool)
    ensures Count(Sort(s), x, right) == Count(s, x, right)
  {
    if s != [] {
      SortCounts(s[1..], x, right);
      InsertCounts(s[0], Sort(s[1..]), x, right);
    }
  }

  /** The rank formula for one positive is its row of pairs. */
  lemma {:induction false} Ranks(x: real, negatives: seq<real>)
    ensures Count(negatives, x, false) <= Count(negatives, x, true)
    ensures Row(x, negatives) == Count(negatives, x, false) as real
                                 + 0.5 * (Count(negatives, x, true) - Count(negatives, x, false)) as real
  {
    if negatives != [] {
      Ranks(x, negatives[1..]);
    }
  }

  // ---------- Range and complement ----------

  function Column(positives: seq<real>, y: real): real {
    if positives == [] then 0.0 else Column(positives[..|positives| - 1], y) + Score(positives[|positives| - 1], y)
  }

  lemma {:induction false} RowBounds(x: real, negatives: seq<real>)
    ensures 0.0 <= Row(x, negatives) <= |negatives| as real
  {
    if negatives != [] {
      RowBounds(x, negatives[1..]);
    }
  }

  lemma {:induction false} PairSumLast(positives: seq<real>, negatives: seq<real>, y: real)
    ensures PairSum(positives, [y] + negatives) == PairSum(positives, negatives) + Column(positives, y)
  {
    if positives != [] {
      PairSumLast(positives[..|positives| - 1], negatives, y);
      assert ([y] + negatives)[1..] == negatives;
    }
  }

  lemma {:induction false} RowAndColumn(x: real, others: seq<real>)
    ensures Row(x, others) + Column(others, x) == |others| as real
  {
    if others != [] {
      var n := |others| - 1;
      RowAndColumn(x, others[..n]);
      RowLast(x, others[..n], others[n]);
      assert others[..n] + [others[n]] == others;
    }
  }

  lemma {:induction false} RowLast(x: real, negatives: seq<real>, y: real)
    ensures Row(x, negatives + [y]) == Row(x, negatives) + Score(x, y)
  {
    if negatives == [] {
      assert negatives + [y] == [y];
    } else {
      RowLast(x, negatives[1..], y);
      assert (negatives + [y])[1..] == negatives[1..] + [y];
    }
  }

  lemma {:induction false} NoPairs(p: seq<real>)
    ensures PairSum(p, []) == 0.0
  {
    if p != [] {
      NoPairs(p[..|p| - 1]);
    }
  }

  lemma {:induction false} PairSumFront(x: real, p: seq<real>, n: seq<real>)
    ensures PairSum([x] + p, n) == Row(x, n) + PairSum(p, n)
  {
    if p == [] {
      assert [x] + p == [x] && [x][..0] == [];
    } else {
      var k := |p| - 1;
      PairSumFront(x, p[..k], n);
      assert ([x] + p)[..k + 1] == [x] + p[..k] && ([x] + p)[k + 1] == p[k];
    }
  }

  /** The number of pairs, as a sum. */
  function Pairs(a: nat, b: nat): nat {
    if a == 0 then 0 else b + Pairs(a - 1, b)
  }

  lemma {:induction false} PairsProduct(a: nat, b: nat)
    ensures Pairs(a, b) as real == a as real * b as real
  {
    if a > 0 {
      PairsProduct(a - 1, b);
      assert a as real * b as real == (a - 1) as real * b as real + b as real;
    }
  }

  /** Every pair is won by one side or shared. */
  lemma {:induction false} PairsShared(p: seq<real>, n: seq<real>)
    ensures PairSum(p, n) + PairSum(n, p) == Pairs(|p|, |n|) as real
  {
    if p == [] {
      NoPairs(n);
    } else {
      var x, rest := p[0], p[1..];
      PairsShared(rest, n);
      PairSumFront(x, rest, n);
      PairSumLast(n, rest, x);
      RowAndColumn(x, n);
      assert [x] + rest == p;
    }
  }

  lemma {:induction false} PairSumNonnegative(p: seq<real>, n: seq<real>)
    ensures PairSum(p, n) >= 0.0
  {
    if p != [] {
      PairSumNonnegative(p[..|p| - 1], n);
      RowBounds(p[|p| - 1], n);
    }
  }

  lemma AverageRange(sum: real, other: real, p: nat, n: nat)
    requires p > 0 && n > 0 && sum >= 0.0 && other >= 0.0 && sum + other == Pairs(p, n) as real
    ensures 0.0 <= Average(sum, p, n) <= 1.0 && Average(other, p, n) == 1.0 - Average(sum, p, n)
  {
    PairsProduct(p, n);
    Quotient(sum, other, p as real * n as real);
  }

  lemma Quotient(a: real, b: real, c: real)
    requires c > 0.0 && a >= 0.0 && b >= 0.0 && a + b == c
    ensures 0.0 <= a / c <= 1.0 && b / c == 1.0 - a / c
  {
    var x, y := a / c, b / c;
    assert x * c == a && y * c == b;
    assert (x + y - 1.0) * c == x * c + y * c - c == 0.0;
    ZeroFactor(x + y - 1.0, c);
  }

  lemma ZeroFactor(z: real, c: real)
    requires c > 0.0 && z * c == 0.0
    ensures z == 0.0
  {
  }

  lemma AverageFlip(sum: real, p: nat, n: nat)
    requires p > 0 && n > 0
    ensures Average(sum, p, n) == Average(sum, n, p)
  {
    assert p as real * n as real == n as real * p as real;
  }

  /** The area lies between 0 and 1. */
  lemma InRange(values: seq<real>, labels: seq<int>)
    requires Usable(values, labels)
    ensures 0.0 <= Definition(values, labels) <= 1.0
  {
    Classes(values, labels);
    var p, n := Chosen(values, labels, 1), Chosen(values, labels, 0);
    PairsShared(p, n);
    PairSumNonnegative(p, n);
    PairSumNonnegative(n, p);
    AverageRange(PairSum(p, n), PairSum(n, p), |p|, |n|);
  }

  function Swapped(labels: seq<int>): seq<int> {
    seq(|labels|, i requires 0 <= i < |labels| => 1 - labels[i])
  }

  lemma {:induction false} ChosenSwapped(values: seq<real>, labels: seq<int>, class_: int)
    requires |values| == |labels|
    ensures Chosen(values, Swapped(labels), class_) == Chosen(values, labels, 1 - class_)
  {
    if values != [] {
      ChosenSwapped(values[1..], labels[1..], class_);
      assert Swapped(labels)[1..] == Swapped(labels[1..]);
    }
  }

  lemma SwappedUsable(values: seq<real>, labels: seq<int>)
    requires Usable(values, labels)
    ensures Usable(values, Swapped(labels))
  {
    var i :| 0 <= i < |labels| && labels[i] == 0;
    var j :| 0 <= j < |labels| && labels[j] == 1;
    assert Swapped(labels)[i] == 1 && Swapped(labels)[j] == 0;
    forall k | 0 <= k < |labels| ensures Swapped(labels)[k] in {0, 1} {
      assert labels[k] in labels;
    }
  }

  /** Swapping the classes gives the complement. */
  lemma Complement(values: seq<real>, labels: seq<int>)
    requires Usable(values, labels)
    ensures Usable(values, Swapped(labels))
    ensures Definition(values, Swapped(labels)) == 1.0 - Definition(values, labels)
  {
    SwappedUsable(values, labels);
    ChosenSwapped(values, labels, 0);
    ChosenSwapped(values, labels, 1);
    Classes(values, labels);
    var p, n := Chosen(values, labels, 1), Chosen(values, labels, 0);
    PairsShared(p, n);
    PairSumNonnegative(p, n);
    PairSumNonnegative(n, p);
    AverageRange(PairSum(p, n), PairSum(n, p), |p|, |n|);
    AverageFlip(PairSum(n, p), |n|, |p|);
  }
}

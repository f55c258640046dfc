/**
 * The two location-list answers of the first solver (src/bin/01.rs).
 *
 * The input rows are already split into a left and a right column of
 * unsigned numbers. The first answer sorts both columns, pairs them by rank
 * and sums the distances of the pairs. The second answer counts how often
 * each number occurs in the right column, in a map built by a loop, and sums
 * every left number weighted by its count.
 */
module ListDistance {

  predicate IsSorted(s: seq<nat>)
  {
    forall i, j :: 0 <= i < j < |s| ==> s[i] <= s[j]
  }

  /** Every element of `t`, a permutation of `s` plus `x`, is at least `lo` when those are. */
  lemma BoundedBelow(t: seq<nat>, s: seq<nat>, x: nat, lo: nat)
    requires multiset(t) == multiset(s) + multiset{x}
    requires forall k :: 0 <= k < |s| ==> lo <= s[k]
    requires lo <= x
    ensures forall k :: 0 <= k < |t| ==> lo <= t[k]
  {
    forall k | 0 <= k < |t| ensures lo <= t[k] {
      assert t[k] in multiset(t);
      if t[k] != x {
        assert t[k] in multiset(s);
      }
    }
  }

  /** Inserts `x` before the first element that is not smaller. */
  function Insert(x: nat, s: seq<nat>): (r: seq<nat>)
    requires IsSorted(s)
    ensures IsSorted(r)
    ensures multiset(r) == multiset(s) + multiset{x}
  {
    if s == [] || x <= s[0] then
      ConsSorted(x, s);
      [x] + s
    else
      assert s == [s[0]] + s[1..];
      var t := Insert(x, s[1..]);
      BoundedBelow(t, s[1..], x, s[0]);
      ConsSorted(s[0], t);
      [s[0]] + t
  }

  /** A sorted sequence stays sorted under a new head no larger than any of its elements. */
  lemma ConsSorted(h: nat, t: seq<nat>)
    requires IsSorted(t)
    requires forall k :: 0 <= k < |t| ==> h <= t[k]
    ensures IsSorted([h] + t)
  {
    var r := [h] + t;
    forall i, j | 0 <= i < j < |r| ensures r[i] <= r[j] {
      if i > 0 {
        assert r[i] == t[i - 1] && r[j] == t[j - 1];
      }
    }
  }

  /** The sorted permutation of a column, standing in for `itertools::sorted`. */
  function Sort(s: seq<nat>): (r: seq<nat>)
    ensures IsSorted(r)
    ensures multiset(r) == multiset(s)
  {
    if s == [] then []
    else
      assert s == [s[0]] + s[1..];
      Insert(s[0], Sort(s[1..]))
  }

  /** The distance between two numbers: what must be added to the smaller to reach the larger. */
  function AbsDiff(a: nat, b: nat): (d: nat)
    ensures a <= b ==> a + d == b
    ensures b <= a ==> b + d == a
  {
    if a >= b then a - b else b - a
  }

  /**
   * The distances of the pairs formed by position, summed; the longer
   * sequence's extra elements are not paired. The sum is zero exactly when
   * every pair is equal.
   */
  function SumAbsDiff(a: seq<nat>, b: seq<nat>): (n: nat)
    ensures n == 0 <==> forall k :: 0 <= k < |a| && k < |b| ==> a[k] == b[k]
  {
    if |a| == 0 || |b| == 0 then 0
    else
      assert forall k :: 0 <= k < |a| - 1 && k < |b| - 1 ==> a[1..][k] == a[k + 1] && b[1..][k] == b[k + 1];
      AbsDiff(a[0], b[0]) + SumAbsDiff(a[1..], b[1..])
  }

  /**
   * The first answer: the total distance of the sorted columns paired by
   * rank. For columns of one length it is zero exactly when they hold the
   * same numbers, each as often.
   */
  function Part1(left: seq<nat>, right: seq<nat>): (n: nat)
    ensures |left| == |right| ==> (n == 0 <==> multiset(left) == multiset(right))
  {
    SortedDistanceZero(left, right);
    SumAbsDiff(Sort(left), Sort(right))
  }

  /** The sorted columns are equal exactly when the columns are permutations of each other. */
  lemma SortedDistanceZero(left: seq<nat>, right: seq<nat>)
    ensures |left| == |right| ==> (SumAbsDiff(Sort(left), Sort(right)) == 0 <==> multiset(left) == multiset(right))
  {
    var a, b := Sort(left), Sort(right);
    assert |a| == |multiset(a)| == |left| && |b| == |multiset(b)| == |right|;
    if multiset(left) == multiset(right) {
      SortedUnique(a, b);
    }
    if |left| == |right| && SumAbsDiff(a, b) == 0 {
      assert a == b;
    }
  }

  /** A sequence none of whose adjacent pairs is out of order is sorted. */
  lemma {:induction false} StepwiseSorted(s: seq<nat>)
    requires forall i :: 0 < i < |s| ==> s[i - 1] <= s[i]
    ensures IsSorted(s)
    decreases |s|
  {
    if |s| > 1 {
      var t := s[..|s| - 1];
      assert forall i :: 0 < i < |t| ==> t[i - 1] <= t[i];
      StepwiseSorted(t);
      forall i | 0 <= i < |s| - 1 ensures s[i] <= s[|s| - 1] {
        assert t[i] <= t[|t| - 1] || i == |t| - 1;
      }
    }
  }

  /** The head of a sorted sequence is its least element. */
  lemma HeadIsLeast(a: seq<nat>, v: nat)
    requires IsSorted(a) && v in a
    ensures a[0] <= v
  {
  }

  lemma TailSorted(a: seq<nat>)
    requires IsSorted(a) && a != []
    ensures IsSorted(a[1..])
  {
    forall i, j | 0 <= i < j < |a| - 1 ensures a[1..][i] <= a[1..][j] {
      assert a[1..][i] == a[i + 1] && a[1..][j] == a[j + 1];
    }
  }

  /** A column has exactly one sorted permutation. */
  lemma {:induction false} SortedUnique(a: seq<nat>, b: seq<nat>)
    requires IsSorted(a) && IsSorted(b)
    requires multiset(a) == multiset(b)
    ensures a == b
  {
    if a != [] && b != [] {
      assert a[0] in multiset(b) && b[0] in multiset(a);
      HeadIsLeast(a, b[0]);
      HeadIsLeast(b, a[0]);
      assert a[0] == b[0];
      var ta, tb := a[1..], b[1..];
      assert a == [a[0]] + ta;
      assert b == [b[0]] + tb;
      assert multiset(ta) == multiset(a) - multiset{a[0]};
      assert multiset(tb) == multiset(b) - multiset{b[0]};
      TailSorted(a);
      TailSorted(b);
      assert IsSorted(ta) && IsSorted(tb);
      assert multiset(ta) == multiset(tb);
      SortedUnique(ta, tb);
    }
  }

  /** Any sorted permutations of the columns, paired by rank, give the first answer. */
  lemma Part1PairsByRank(left: seq<nat>, right: seq<nat>, a: seq<nat>, b: seq<nat>)
    requires IsSorted(a) && multiset(a) == multiset(left)
    requires IsSorted(b) && multiset(b) == multiset(right)
    ensures Part1(left, right) == SumAbsDiff(a, b)
  {
    SortedUnique(Sort(left), a);
    SortedUnique(Sort(right), b);
  }

  /** Reordering either column leaves the first answer unchanged. */
  lemma Part1PermutationInvariant(left: seq<nat>, left': seq<nat>, right: seq<nat>, right': seq<nat>)
    requires multiset(left') == multiset(left)
    requires multiset(right') == multiset(right)
    ensures Part1(left', right') == Part1(left, right)
  {
    SortedUnique(Sort(left'), Sort(left));
    SortedUnique(Sort(right'), Sort(right));
  }

  lemma {:induction false} SumAbsDiffSymmetric(a: seq<nat>, b: seq<nat>)
    ensures SumAbsDiff(a, b) == SumAbsDiff(b, a)
  {
    if a != [] && b != [] {
      SumAbsDiffSymmetric(a[1..], b[1..]);
    }
  }

  /** Swapping the two columns leaves the first answer unchanged. */
  lemma Part1Symmetric(left: seq<nat>, right: seq<nat>)
    ensures Part1(left, right) == Part1(right, left)
  {
    SumAbsDiffSymmetric(Sort(left), Sort(right));
  }

  /**
   * The occurrence map of the right column, built as the fold does: for every
   * number in order, its entry is created at zero if missing and then
   * incremented.
   */
  method OccurrenceMap(right: seq<nat>) returns (counts: map<nat, nat>)
    ensures forall v :: v in counts <==> v in right
    ensures forall v :: v in counts ==> counts[v] == multiset(right)[v]
  {
    counts := map[];
    var i := 0;
    while i < |right|
      invariant 0 <= i <= |right|
      invariant forall v :: v in counts <==> v in right[..i]
      invariant forall v :: v in counts ==> counts[v] == multiset(right[..i])[v]
    {
      var num := right[i];
      var entry := if num in counts then counts[num] else 0;
      counts := counts[num := entry + 1];
      assert right[..i + 1] == right[..i] + [num];
      i := i + 1;
    }
    assert right[..i] == right;
  }

  /** The count of `l` in the map, with a missing entry read as zero. */
  function Lookup(counts: map<nat, nat>, l: nat): (c: nat)
    ensures c == 0 <==> l !in counts || counts[l] == 0
  {
    if l in counts then counts[l] else 0
  }

  /**
   * Every left number times its looked-up count, summed. The sum is zero
   * exactly when every left number is zero or has a zero count.
   */
  function SimilaritySum(left: seq<nat>, counts: map<nat, nat>): (n: nat)
    ensures n == 0 <==> forall k :: 0 <= k < |left| ==> left[k] == 0 || Lookup(counts, left[k]) == 0
  {
    if |left| == 0 then 0
    else
      assert forall k :: 0 <= k < |left| - 1 ==> left[1..][k] == left[k + 1];
      Lookup(counts, left[0]) * left[0] + SimilaritySum(left[1..], counts)
  }

  /** The similarity score: every left number times the number of its occurrences on the right. */
  function Similarity(left: seq<nat>, right: seq<nat>): nat
  {
    if left == [] then 0
    else left[0] * multiset(right)[left[0]] + Similarity(left[1..], right)
  }

  /** Summing through an exact occurrence map gives the similarity score. */
  lemma {:induction false} SimilaritySumMatches(left: seq<nat>, counts: map<nat, nat>, right: seq<nat>)
    requires forall v :: v in counts <==> v in right
    requires forall v :: v in counts ==> counts[v] == multiset(right)[v]
    ensures SimilaritySum(left, counts) == Similarity(left, right)
  {
    if left != [] {
      var l := left[0];
      assert Lookup(counts, l) == multiset(right)[l];
      SimilaritySumMatches(left[1..], counts, right);
    }
  }

  /** The second answer. */
  method Part2(left: seq<nat>, right: seq<nat>) returns (similarity: nat)
    ensures similarity == Similarity(left, right)
  {
    var counts := OccurrenceMap(right);
    similarity := SimilaritySum(left, counts);
    SimilaritySumMatches(left, counts, right);
  }

  /** A left number that never occurs on the right contributes nothing. */
  lemma SimilarityOfMissing(l: nat, right: seq<nat>)
    requires l !in right
    ensures Similarity([l], right) == 0
  {
    assert multiset(right)[l] == 0;
  }

  lemma {:induction false} SimilarityAppend(a: seq<nat>, b: seq<nat>, right: seq<nat>)
    ensures Similarity(a + b, right) == Similarity(a, right) + Similarity(b, right)
  {
    if a == [] {
      assert a + b == b;
    } else {
      assert (a + b)[1..] == a[1..] + b;
      SimilarityAppend(a[1..], b, right);
    }
  }

  /** Taking one number out of the left column takes out exactly its own term. */
  lemma SimilarityRemove(left: seq<nat>, k: nat, right: seq<nat>)
    requires k < |left|
    ensures Similarity(left, right) == left[k] * multiset(right)[left[k]] + Similarity(left[..k] + left[k + 1..], right)
  {
    var x := left[k];
    assert left == left[..k] + ([x] + left[k + 1..]);
    SimilarityAppend(left[..k], [x] + left[k + 1..], right);
    SimilarityAppend([x], left[k + 1..], right);
    SimilarityAppend(left[..k], left[k + 1..], right);
  }

  /** Reordering the left column leaves the similarity score unchanged. */
  lemma {:induction false} SimilarityLeftPermutation(left: seq<nat>, left': seq<nat>, right: seq<nat>)
    requires multiset(left') == multiset(left)
    ensures Similarity(left', right) == Similarity(left, right)
    decreases |left|
  {
    if left != [] {
      var x := left[0];
      assert x in multiset(left');
      var k :| 0 <= k < |left'| && left'[k] == x;
      var rest := left'[..k] + left'[k + 1..];
      assert left' == left'[..k] + [x] + left'[k + 1..];
      assert multiset(rest) == multiset(left') - multiset{x};
      assert left == [x] + left[1..];
      assert multiset(left[1..]) == multiset(left) - multiset{x};
      SimilarityLeftPermutation(left[1..], rest, right);
      SimilarityRemove(left', k, right);
    }
  }

  /** The score sees the right column only through its occurrence counts. */
  lemma {:induction false} SimilarityRightPermutation(left: seq<nat>, right: seq<nat>, right': seq<nat>)
    requires multiset(right') == multiset(right)
    ensures Similarity(left, right') == Similarity(left, right)
  {
    if left != [] {
      SimilarityRightPermutation(left[1..], right, right');
    }
  }

  /** Reordering either column leaves the similarity score unchanged. */
  lemma SimilarityPermutationInvariant(left: seq<nat>, left': seq<nat>, right: seq<nat>, right': seq<nat>)
    requires multiset(left') == multiset(left)
    requires multiset(right') == multiset(right)
    ensures Similarity(left', right') == Similarity(left, right)
  {
    SimilarityLeftPermutation(left, left', right);
    SimilarityRightPermutation(left', right, right');
  }

  lemma FixtureSortedColumns()
    ensures multiset([1, 2, 3, 3, 3, 4]) == multiset([3, 4, 2, 1, 3, 3])
    ensures multiset([3, 3, 3, 4, 5, 9]) == multiset([4, 3, 5, 3, 9, 3])
    ensures IsSorted([1, 2, 3, 3, 3, 4]) && IsSorted([3, 3, 3, 4, 5, 9])
  {
    FixtureLeftSorted();
    FixtureRightSorted();
  }

  lemma FixtureLeftSorted()
    ensures multiset([1, 2, 3, 3, 3, 4]) == multiset([3, 4, 2, 1, 3, 3])
    ensures IsSorted([1, 2, 3, 3, 3, 4])
  {
    FixtureLeftPermutation();
    StepwiseSorted([1, 2, 3, 3, 3, 4]);
  }

  lemma FixtureLeftPermutation()
    ensures multiset([1, 2, 3, 3, 3, 4]) == multiset([3, 4, 2, 1, 3, 3])
  {
  }

  lemma FixtureRightSorted()
    ensures multiset([3, 3, 3, 4, 5, 9]) == multiset([4, 3, 5, 3, 9, 3])
    ensures IsSorted([3, 3, 3, 4, 5, 9])
  {
    FixtureRightPermutation();
    StepwiseSorted([3, 3, 3, 4, 5, 9]);
  }

  lemma FixtureRightPermutation()
    ensures multiset([3, 3, 3, 4, 5, 9]) == multiset([4, 3, 5, 3, 9, 3])
  {
  }

  lemma FixtureCounts()
    ensures multiset([4, 3, 5, 3, 9, 3])[3] == 3 && multiset([4, 3, 5, 3, 9, 3])[4] == 1
    ensures multiset([4, 3, 5, 3, 9, 3])[2] == 0 && multiset([4, 3, 5, 3, 9, 3])[1] == 0
  {
  }

  /** The six-row fixture: total distance 11 and similarity 31. */
  lemma Fixture()
    ensures Part1([3, 4, 2, 1, 3, 3], [4, 3, 5, 3, 9, 3]) == 11
    ensures Similarity([3, 4, 2, 1, 3, 3], [4, 3, 5, 3, 9, 3]) == 31
  {
    FixtureSortedColumns();
    Part1PairsByRank([3, 4, 2, 1, 3, 3], [4, 3, 5, 3, 9, 3], [1, 2, 3, 3, 3, 4], [3, 3, 3, 4, 5, 9]);
    FixtureDistance();
    FixtureCounts();
    FixtureSimilarity();
  }

  lemma FixtureDistance()
    ensures SumAbsDiff([1, 2, 3, 3, 3, 4], [3, 3, 3, 4, 5, 9]) == 11
  {
    assert SumAbsDiff([4], [9]) == 5;
    assert SumAbsDiff([3, 4], [5, 9]) == 7;
    assert SumAbsDiff([3, 3, 4], [4, 5, 9]) == 8;
    assert SumAbsDiff([3, 3, 3, 4], [3, 4, 5, 9]) == 8;
    assert SumAbsDiff([2, 3, 3, 3, 4], [3, 3, 4, 5, 9]) == 9;
  }

  lemma FixtureSimilarity()
    ensures Similarity([3, 4, 2, 1, 3, 3], [4, 3, 5, 3, 9, 3]) == 31
  {
    var right := [4, 3, 5, 3, 9, 3];
    FixtureCounts();
    assert Similarity([3], right) == 9;
    assert Similarity([3, 3], right) == 18;
    assert Similarity([1, 3, 3], right) == 18;
    assert Similarity([2, 1, 3, 3], right) == 18;
    assert Similarity([4, 2, 1, 3, 3], right) == 22;
  }
}

/**
 * The report-safety validator of the second solver (src/bin/02.rs).
 *
 * A report is a sequence of levels. It is safe when it is strictly
 * increasing or strictly decreasing with every step between 1 and 3.
 * The imperative scan `ReportIsSafe` keeps a running `Direction`, fixed by
 * the first accepted step, and is proved against the declarative `Safe`.
 * The two answers count the safe reports, and the reports that are safe
 * or become safe once a single level is removed.
 */
module ReportSafety {
  import opened Wrappers

  datatype Direction = Increasing | Decreasing | Unknown

  function Abs(x: int): nat
  {
    if x < 0 then -x else x
  }

  /** Classifies one step `delta` against the direction seen so far. */
  function DeltaIsSafe(delta: int, direction: Direction): (ok: bool)
    ensures delta == 0 || Abs(delta) > 3 ==> !ok
    ensures direction == Unknown ==> (ok <==> 1 <= Abs(delta) <= 3)
    ensures direction == Increasing ==> (ok <==> 1 <= delta <= 3)
    ensures direction == Decreasing ==> (ok <==> -3 <= delta <= -1)
  {
    if delta == 0 || delta > 3 || delta < -3 then
      false
    else
      match direction
      case Increasing => !(delta < 0)
      case Decreasing => !(delta > 0)
      case Unknown => true
  }

  /** Every adjacent difference of `r` lies in `lo..hi`. */
  predicate StepsWithin(r: seq<int>, lo: int, hi: int)
  {
    forall i :: 0 < i < |r| ==> lo <= r[i] - r[i - 1] <= hi
  }

  /** The meaning of a safe report: all steps in 1..3, or all steps in -3..-1. */
  predicate Safe(r: seq<int>)
  {
    StepsWithin(r, 1, 3) || StepsWithin(r, -3, -1)
  }

  /** `r` with the level at index `i` removed, as `Vec::remove` leaves it. */
  function RemoveAt(r: seq<int>, i: nat): (s: seq<int>)
    requires i < |r|
    ensures |s| == |r| - 1
    ensures forall k :: 0 <= k < i ==> s[k] == r[k]
    ensures forall k :: i <= k < |s| ==> s[k] == r[k + 1]
  {
    r[..i] + r[i + 1..]
  }

  /** The report the scan looks at: the clone, with the `skip` index removed when there is one. */
  function Skipped(report: seq<int>, skip: Option<nat>): (s: seq<int>)
    requires skip.Some? ==> skip.value < |report|
    ensures skip.None? ==> s == report
    ensures skip.Some? ==> |s| == |report| - 1 && multiset(s) + multiset{report[skip.value]} == multiset(report)
  {
    match skip
    case None => report
    case Some(i) =>
      assert report == report[..i] + [report[i]] + report[i + 1..];
      RemoveAt(report, i)
  }

  /**
   * The scan over adjacent pairs. The direction starts Unknown, is set from
   * the sign of the first accepted step and is never changed afterwards; a
   * step that `DeltaIsSafe` rejects ends the scan with false.
   * Removing an index from the clone leaves the caller's report as it was,
   * which value semantics of `seq` give for free.
   */
  method ReportIsSafe(report: seq<int>, skip: Option<nat>) returns (safe: bool)
    requires skip.Some? ==> skip.value < |report|
    ensures safe == Safe(Skipped(report, skip))
  {
    var direction := Unknown;
    var skipped := report;
    if skip.Some? {
      var i := skip.value;
      skipped := skipped[..i] + skipped[i + 1..];
    }
    assert skipped == Skipped(report, skip);
    var i := 1;
    while i < |skipped|
      invariant i == 1 || 2 <= i <= |skipped|
      invariant i == 1 ==> direction == Unknown
      invariant i >= 2 ==> direction == FirstDirection(skipped)
      invariant direction == Increasing ==> forall k :: 0 < k < i ==> 1 <= skipped[k] - skipped[k - 1] <= 3
      invariant direction == Decreasing ==> forall k :: 0 < k < i ==> -3 <= skipped[k] - skipped[k - 1] <= -1
    {
      var num := skipped[i];
      var last := skipped[i - 1];
      var delta := num - last;
      ghost var before := direction;
      if DeltaIsSafe(delta, direction) {
        if direction == Unknown {
          if delta > 0 {
            direction := Increasing;
          } else {
            direction := Decreasing;
          }
        }
        AcceptedStep(skipped, i, before, direction);
      } else {
        RejectedStepUnsafe(skipped, i, direction);
        return false;
      }
      i := i + 1;
    }
    ScanCompleteSafe(skipped, i, direction);
    return true;
  }

  /** The direction a report of two or more levels takes from its first step. */
  function FirstDirection(r: seq<int>): (d: Direction)
    requires |r| >= 2
    ensures d != Unknown
    ensures d == Increasing <==> r[1] > r[0]
  {
    if r[1] - r[0] > 0 then Increasing else Decreasing
  }

  /** An accepted step extends the steps checked so far and fixes or keeps the direction. */
  lemma AcceptedStep(r: seq<int>, i: nat, before: Direction, after: Direction)
    requires 0 < i < |r|
    requires i == 1 ==> before == Unknown
    requires i >= 2 ==> before == FirstDirection(r)
    requires before == Increasing ==> forall k :: 0 < k < i ==> 1 <= r[k] - r[k - 1] <= 3
    requires before == Decreasing ==> forall k :: 0 < k < i ==> -3 <= r[k] - r[k - 1] <= -1
    requires DeltaIsSafe(r[i] - r[i - 1], before)
    requires after == if before == Unknown then (if r[i] - r[i - 1] > 0 then Increasing else Decreasing) else before
    ensures after == FirstDirection(r)
    ensures after == Increasing ==> forall k :: 0 < k < i + 1 ==> 1 <= r[k] - r[k - 1] <= 3
    ensures after == Decreasing ==> forall k :: 0 < k < i + 1 ==> -3 <= r[k] - r[k - 1] <= -1
  {
  }

  /** A scan that reaches the end without rejecting a step has seen a safe report. */
  lemma ScanCompleteSafe(r: seq<int>, i: nat, direction: Direction)
    requires i == 1 || 2 <= i <= |r|
    requires i >= |r|
    requires i >= 2 ==> direction == FirstDirection(r)
    requires direction == Increasing ==> forall k :: 0 < k < i ==> 1 <= r[k] - r[k - 1] <= 3
    requires direction == Decreasing ==> forall k :: 0 < k < i ==> -3 <= r[k] - r[k - 1] <= -1
    ensures Safe(r)
  {
  }

  /**
   * A step the scan rejects makes the whole report unsafe: the direction
   * in force was fixed by the first step, so that step and the rejected
   * one cannot both fit one class.
   */
  lemma RejectedStepUnsafe(r: seq<int>, i: nat, direction: Direction)
    requires 0 < i < |r|
    requires i == 1 ==> direction == Unknown
    requires i >= 2 ==> direction == FirstDirection(r)
    requires !DeltaIsSafe(r[i] - r[i - 1], direction)
    ensures !Safe(r)
  {
    if direction == Increasing {
      assert r[1] - r[0] > 0;
    } else if direction == Decreasing {
      assert r[1] - r[0] <= 0;
    }
  }

  /** A step of size 0 or more than 3 anywhere makes a report unsafe. */
  lemma BadStepUnsafe(r: seq<int>, i: nat)
    requires 0 < i < |r|
    requires r[i] == r[i - 1] || Abs(r[i] - r[i - 1]) > 3
    ensures !Safe(r)
  {
  }

  /** The number of reports that are safe as they stand. */
  function Part1(reports: seq<seq<int>>): (n: nat)
    ensures n <= |reports|
  {
    if reports == [] then 0
    else (if Safe(reports[0]) then 1 else 0) + Part1(reports[1..])
  }

  /** The `partition` into safe reports and the rest, each in input order. */
  function Partition(reports: seq<seq<int>>): (p: (seq<seq<int>>, seq<seq<int>>))
    ensures multiset(p.0) + multiset(p.1) == multiset(reports)
    ensures |p.0| == Part1(reports)
  {
    if reports == [] then ([], [])
    else
      var rest := Partition(reports[1..]);
      assert reports == [reports[0]] + reports[1..];
      if Safe(reports[0]) then ([reports[0]] + rest.0, rest.1)
      else (rest.0, [reports[0]] + rest.1)
  }

  /** The first part holds exactly the safe reports, the second the unsafe ones. */
  lemma {:induction false} PartitionBySafety(reports: seq<seq<int>>)
    ensures forall k :: 0 <= k < |Partition(reports).0| ==> Safe(Partition(reports).0[k])
    ensures forall k :: 0 <= k < |Partition(reports).1| ==> !Safe(Partition(reports).1[k])
  {
    if reports != [] {
      PartitionBySafety(reports[1..]);
    }
  }

  /** The search over the indices from `from` on, stopping at the first one whose removal makes the report safe. */
  function FindRescue(report: seq<int>, from: nat): (k: Option<nat>)
    requires from <= |report|
    ensures k.Some? ==> from <= k.value < |report| && Safe(RemoveAt(report, k.value))
    ensures k.Some? ==> forall j :: from <= j < k.value ==> !Safe(RemoveAt(report, j))
    ensures k.None? ==> forall j :: from <= j < |report| ==> !Safe(RemoveAt(report, j))
    decreases |report| - from
  {
    if from == |report| then None
    else if Safe(RemoveAt(report, from)) then Some(from)
    else FindRescue(report, from + 1)
  }

  /** The number of reports for which the search finds a rescuing removal. */
  function CountRescued(reports: seq<seq<int>>): (n: nat)
    ensures n <= |reports|
  {
    if reports == [] then 0
    else (if FindRescue(reports[0], 0).Some? then 1 else 0) + CountRescued(reports[1..])
  }

  /** The second answer: the safe reports plus the unsafe ones that one removal rescues. */
  function Part2(reports: seq<seq<int>>): (n: nat)
    ensures Part1(reports) <= n <= |reports|
  {
    var p := Partition(reports);
    assert |multiset(p.0)| + |multiset(p.1)| == |multiset(reports)|;
    |p.0| + CountRescued(p.1)
  }

  /** The single-fault-tolerant meaning: safe, or safe after removing some one level. */
  predicate Tolerant(r: seq<int>)
  {
    Safe(r) || exists i :: 0 <= i < |r| && Safe(RemoveAt(r, i))
  }

  function CountTolerant(reports: seq<seq<int>>): nat
  {
    if reports == [] then 0
    else (if Tolerant(reports[0]) then 1 else 0) + CountTolerant(reports[1..])
  }

  lemma {:induction false} CountRescuedAppend(a: seq<seq<int>>, b: seq<seq<int>>)
    ensures CountRescued(a + b) == CountRescued(a) + CountRescued(b)
  {
    if a == [] {
      assert a + b == b;
    } else {
      assert (a + b)[1..] == a[1..] + b;
      CountRescuedAppend(a[1..], b);
    }
  }

  /** A report counts in the second answer exactly when it is tolerant. */
  lemma {:induction false} Part2CountsTolerant(reports: seq<seq<int>>)
    ensures Part2(reports) == CountTolerant(reports)
  {
    if reports != [] {
      var r := reports[0];
      Part2CountsTolerant(reports[1..]);
      var rest := Partition(reports[1..]);
      if !Safe(r) {
        var k := FindRescue(r, 0);
        if k.None? {
          assert !Tolerant(r);
        } else {
          assert Tolerant(r);
        }
        CountRescuedAppend([r], rest.1);
      }
    }
  }

  lemma {:induction false} Part1AtMostTolerant(reports: seq<seq<int>>)
    ensures Part1(reports) <= CountTolerant(reports)
  {
    if reports != [] {
      Part1AtMostTolerant(reports[1..]);
    }
  }

  /** Tolerance only adds acceptances: the second answer is never below the first. */
  lemma Part2AtLeastPart1(reports: seq<seq<int>>)
    ensures Part2(reports) >= Part1(reports)
  {
    Part2CountsTolerant(reports);
    Part1AtMostTolerant(reports);
  }

  /** Reports of length 0 or 1 have no pair to check. */
  lemma ShortReportSafe(r: seq<int>)
    requires |r| <= 1
    ensures Safe(r)
  {
  }

  /** A two-level report is safe exactly when its one step has size 1 to 3. */
  lemma PairSafe(a: int, b: int)
    ensures Safe([a, b]) <==> 1 <= Abs(b - a) <= 3
  {
    assert [a, b][1] - [a, b][0] == b - a;
  }

  /** Every report of length at most two counts in the second answer. */
  lemma ShortReportTolerant(r: seq<int>)
    requires |r| <= 2
    ensures Tolerant(r)
  {
    if |r| == 2 {
      assert Safe(RemoveAt(r, 0));
    }
  }

  /** `r` read from its last level to its first. */
  function Reversed(r: seq<int>): (s: seq<int>)
    ensures |s| == |r|
    ensures forall k :: 0 <= k < |r| ==> s[k] == r[|r| - 1 - k]
  {
    seq(|r|, k requires 0 <= k < |r| => r[|r| - 1 - k])
  }

  lemma StepsWithinReversed(r: seq<int>, lo: int, hi: int)
    ensures StepsWithin(Reversed(r), -hi, -lo) <==> StepsWithin(r, lo, hi)
  {
    var s := Reversed(r);
    if StepsWithin(r, lo, hi) {
      forall i | 0 < i < |s| ensures -hi <= s[i] - s[i - 1] <= -lo {
        assert s[i] - s[i - 1] == -(r[|r| - i] - r[|r| - i - 1]);
      }
    }
    if StepsWithin(s, -hi, -lo) {
      forall i | 0 < i < |r| ensures lo <= r[i] - r[i - 1] <= hi {
        assert r[i] - r[i - 1] == -(s[|r| - i] - s[|r| - i - 1]);
      }
    }
  }

  /** Reversal swaps the increasing and decreasing classes and keeps the verdict. */
  lemma SafeReversed(r: seq<int>)
    ensures StepsWithin(Reversed(r), -3, -1) <==> StepsWithin(r, 1, 3)
    ensures StepsWithin(Reversed(r), 1, 3) <==> StepsWithin(r, -3, -1)
    ensures Safe(Reversed(r)) <==> Safe(r)
  {
    StepsWithinReversed(r, 1, 3);
    StepsWithinReversed(r, -3, -1);
  }

  /** The five removals of a five-level report, written out. */
  lemma RemovalsOfFive(r: seq<int>)
    requires |r| == 5
    ensures RemoveAt(r, 0) == [r[1], r[2], r[3], r[4]]
    ensures RemoveAt(r, 1) == [r[0], r[2], r[3], r[4]]
    ensures RemoveAt(r, 2) == [r[0], r[1], r[3], r[4]]
    ensures RemoveAt(r, 3) == [r[0], r[1], r[2], r[4]]
    ensures RemoveAt(r, 4) == [r[0], r[1], r[2], r[3]]
  {
  }

  /** A five-level report none of whose removals is safe is not rescued. */
  lemma NoRescue(r: seq<int>)
    requires |r| == 5
    requires !Safe(RemoveAt(r, 0)) && !Safe(RemoveAt(r, 1)) && !Safe(RemoveAt(r, 2))
    requires !Safe(RemoveAt(r, 3)) && !Safe(RemoveAt(r, 4))
    ensures FindRescue(r, 0).None?
  {
    assert FindRescue(r, 4).None?;
    assert FindRescue(r, 2).None?;
  }

  lemma FixtureSafeOnes()
    ensures Safe([7, 6, 4, 2, 1]) && Safe([1, 3, 6, 7, 9])
  {
  }

  lemma FixtureIncreasingJump()
    ensures !Safe([1, 2, 7, 8, 9]) && FindRescue([1, 2, 7, 8, 9], 0).None?
  {
    var r := [1, 2, 7, 8, 9];
    RemovalsOfFive(r);
    BadStepUnsafe(r, 2);
    BadStepUnsafe([2, 7, 8, 9], 1);
    BadStepUnsafe([1, 7, 8, 9], 1);
    BadStepUnsafe([1, 2, 8, 9], 2);
    BadStepUnsafe([1, 2, 7, 9], 2);
    BadStepUnsafe([1, 2, 7, 8], 2);
    NoRescue(r);
  }

  lemma FixtureDecreasingJump()
    ensures !Safe([9, 7, 6, 2, 1]) && FindRescue([9, 7, 6, 2, 1], 0).None?
  {
    var q := [9, 7, 6, 2, 1];
    RemovalsOfFive(q);
    BadStepUnsafe(q, 3);
    BadStepUnsafe([7, 6, 2, 1], 2);
    BadStepUnsafe([9, 6, 2, 1], 2);
    BadStepUnsafe([9, 7, 2, 1], 2);
    BadStepUnsafe([9, 7, 6, 1], 3);
    BadStepUnsafe([9, 7, 6, 2], 3);
    NoRescue(q);
  }

  lemma FixtureReversal()
    ensures !Safe([1, 3, 2, 4, 5]) && FindRescue([1, 3, 2, 4, 5], 0) == Some(1)
  {
    var u := [1, 3, 2, 4, 5];
    RemovalsOfFive(u);
    assert u[1] - u[0] > 0 && u[2] - u[1] < 0;
    var u0 := [3, 2, 4, 5];
    assert u0[1] - u0[0] < 0 && u0[2] - u0[1] > 0;
    assert Safe([1, 2, 4, 5]);
  }

  lemma FixtureFlatRemovals()
    ensures !Safe([8, 6, 4, 4, 1]) && !Safe([6, 4, 4, 1]) && !Safe([8, 4, 4, 1]) && Safe([8, 6, 4, 1])
  {
    BadStepUnsafe([8, 6, 4, 4, 1], 3);
    BadStepUnsafe([6, 4, 4, 1], 2);
    BadStepUnsafe([8, 4, 4, 1], 2);
  }

  lemma FixtureFlat()
    ensures !Safe([8, 6, 4, 4, 1]) && FindRescue([8, 6, 4, 4, 1], 0) == Some(2)
  {
    var v := [8, 6, 4, 4, 1];
    RemovalsOfFive(v);
    FixtureFlatRemovals();
    assert FindRescue(v, 1) == Some(2);
  }

  /** How six reports are counted, given which are safe and which are tolerant. */
  lemma CountSix(r0: seq<int>, r1: seq<int>, r2: seq<int>, r3: seq<int>, r4: seq<int>, r5: seq<int>)
    requires Safe(r0) && Safe(r5)
    requires !Safe(r1) && !Safe(r2) && !Safe(r3) && !Safe(r4)
    requires !Tolerant(r1) && !Tolerant(r2) && Tolerant(r3) && Tolerant(r4)
    ensures Part1([r0, r1, r2, r3, r4, r5]) == 2
    ensures CountTolerant([r0, r1, r2, r3, r4, r5]) == 4
  {
    assert [r0, r1, r2, r3, r4, r5][1..] == [r1, r2, r3, r4, r5];
    assert [r1, r2, r3, r4, r5][1..] == [r2, r3, r4, r5];
    assert [r2, r3, r4, r5][1..] == [r3, r4, r5];
    assert [r3, r4, r5][1..] == [r4, r5];
    assert [r4, r5][1..] == [r5];
    assert [r5][1..] == [];
    assert Part1([r5]) == 1 && CountTolerant([r5]) == 1;
    assert Part1([r4, r5]) == 1 && CountTolerant([r4, r5]) == 2;
    assert Part1([r3, r4, r5]) == 1 && CountTolerant([r3, r4, r5]) == 3;
    assert Part1([r2, r3, r4, r5]) == 1 && CountTolerant([r2, r3, r4, r5]) == 3;
    assert Part1([r1, r2, r3, r4, r5]) == 1 && CountTolerant([r1, r2, r3, r4, r5]) == 3;
  }

  /** The six-report fixture: two are safe, four count once one removal is allowed. */
  lemma Fixture()
    ensures Part1([[7, 6, 4, 2, 1], [1, 2, 7, 8, 9], [9, 7, 6, 2, 1], [1, 3, 2, 4, 5], [8, 6, 4, 4, 1], [1, 3, 6, 7, 9]]) == 2
    ensures Part2([[7, 6, 4, 2, 1], [1, 2, 7, 8, 9], [9, 7, 6, 2, 1], [1, 3, 2, 4, 5], [8, 6, 4, 4, 1], [1, 3, 6, 7, 9]]) == 4
  {
    FixtureSafeOnes();
    FixtureIncreasingJump();
    FixtureDecreasingJump();
    FixtureReversal();
    FixtureFlat();
    CountSix([7, 6, 4, 2, 1], [1, 2, 7, 8, 9], [9, 7, 6, 2, 1], [1, 3, 2, 4, 5], [8, 6, 4, 4, 1], [1, 3, 6, 7, 9]);
    Part2CountsTolerant([[7, 6, 4, 2, 1], [1, 2, 7, 8, 9], [9, 7, 6, 2, 1], [1, 3, 2, 4, 5], [8, 6, 4, 4, 1], [1, 3, 6, 7, 9]]);
  }
}

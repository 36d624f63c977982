/**
 * The current workout streak, as the e-mail summary, the achievement check
 * and the e-mail debug report compute it: the distinct local days on which
 * workouts were completed, newest first, are scanned from today; a day is
 * counted when it is the expected day or the one before it, and the next
 * expected day is the day before the one counted.
 *
 * Days are integers (one per calendar day); the conversion of a completion
 * instant to a local day is the parameter `dayOf`, and today is a parameter.
 */
module Streak {
  import opened Model

  /** Strictly newest first, so also without duplicates. */
  predicate Decreasing(s: seq<int>) {
    forall i, j :: 0 <= i < j < |s| ==> s[i] > s[j]
  }

  /** Inserts a day into a newest-first list of distinct days. */
  function InsertDay(x: int, s: seq<int>): (r: seq<int>)
    requires Decreasing(s)
    ensures Decreasing(r)
    ensures forall y :: y in r <==> y in s || y == x
    ensures |r| <= |s| + 1
    ensures |r| > 0 && (|s| == 0 || r[0] == x || r[0] == s[0])
  {
    if |s| == 0 then [x]
    else if x > s[0] then [x] + s
    else if x == s[0] then s
    else
      var t := InsertDay(x, s[1..]);
      assert forall y :: y in s[1..] ==> y < s[0];
      [s[0]] + t
  }

  /** `distinct().sortedDescending()` on days. */
  function DistinctDays(days: seq<int>): (r: seq<int>)
    ensures Decreasing(r)
    ensures forall y :: y in r <==> y in days
    ensures |r| <= |days|
    decreases |days|
  {
    if |days| == 0 then [] else InsertDay(days[|days| - 1], DistinctDays(days[..|days| - 1]))
  }

  /** The day of each history entry. */
  function DaysOf(history: seq<WorkoutHistory>, dayOf: int -> int): (days: seq<int>)
    ensures |days| == |history|
    ensures forall i :: 0 <= i < |history| ==> days[i] == dayOf(history[i].completedAt)
  {
    seq(|history|, i requires 0 <= i < |history| => dayOf(history[i].completedAt))
  }

  /** The scan: how many of the newest-first `dates` are counted, starting
      with `expected`. */
  function StreakFrom(dates: seq<int>, expected: int): (k: int)
    ensures 0 <= k <= |dates|
  {
    if |dates| == 0 then 0
    else if dates[0] == expected || dates[0] == expected - 1 then 1 + StreakFrom(dates[1..], dates[0] - 1)
    else 0
  }

  /** The streak of workouts on `days`, seen on `today`. */
  function StreakOf(days: seq<int>, today: int): int {
    StreakFrom(DistinctDays(days), today)
  }

  /** The day the scan expects at position i: today first, then the day
      before the previous day counted. */
  function Expected(dates: seq<int>, today: int, i: int): int
    requires 0 <= i <= |dates|
  {
    if i == 0 then today else dates[i - 1] - 1
  }

  /**
   * The scan counts the longest run of days, newest first, in which each
   * day is the expected one or the day before it, so one missing day does
   * not break the streak; it stops at the first day further back.
   */
  lemma {:induction false} StreakIsLongestRun(dates: seq<int>, today: int)
    ensures var k := StreakFrom(dates, today);
      && (forall i :: 0 <= i < k ==> dates[i] == Expected(dates, today, i) || dates[i] == Expected(dates, today, i) - 1)
      && (k < |dates| ==> dates[k] != Expected(dates, today, k) && dates[k] != Expected(dates, today, k) - 1)
  {
    if |dates| > 0 && (dates[0] == today || dates[0] == today - 1) {
      var tail := dates[1..];
      StreakIsLongestRun(tail, dates[0] - 1);
      forall i | 1 <= i <= |dates|
        ensures Expected(dates, today, i) == Expected(tail, dates[0] - 1, i - 1)
      {
        if i > 1 {
          assert dates[i - 1] == tail[i - 2];
        }
      }
    }
  }

  /** Newest-first lists of distinct days with the same days are equal. */
  lemma {:induction false} DecreasingUnique(a: seq<int>, b: seq<int>)
    requires Decreasing(a) && Decreasing(b)
    requires forall y :: y in a <==> y in b
    ensures a == b
    decreases |a|
  {
    if |a| > 0 {
      assert a[0] in a;
    }
    if |b| > 0 {
      assert b[0] in b;
    }
    if |a| > 0 && |b| > 0 {
      assert a[0] in b && b[0] in a;
      assert a[0] == b[0];
      forall y
        ensures y in a[1..] <==> y in b[1..]
      {
        if y in a[1..] {
          assert y < a[0] && y in b;
          assert y != b[0];
        }
        if y in b[1..] {
          assert y < b[0] && y in a;
          assert y != a[0];
        }
      }
      DecreasingUnique(a[1..], b[1..]);
      assert a == [a[0]] + a[1..] && b == [b[0]] + b[1..];
    }
  }

  /** The streak depends only on which days had workouts: not on their
      order nor on several workouts on one day. */
  lemma StreakDependsOnDaysOnly(a: seq<int>, b: seq<int>, today: int)
    requires forall y :: y in a <==> y in b
    ensures StreakOf(a, today) == StreakOf(b, today)
  {
    DecreasingUnique(DistinctDays(a), DistinctDays(b));
  }

  /** No workouts, no streak. */
  lemma StreakOfNoWorkouts(today: int)
    ensures StreakOf([], today) == 0
  {
  }

  /** The streak is positive exactly when the latest workout day is today
      or yesterday. */
  lemma StreakNeedsRecentWorkout(days: seq<int>, today: int)
    requires |days| > 0
    ensures DistinctDays(days)[0] in days
    ensures forall d :: d in days ==> d <= DistinctDays(days)[0]
    ensures StreakOf(days, today) > 0 <==> DistinctDays(days)[0] == today || DistinctDays(days)[0] == today - 1
  {
    var r := DistinctDays(days);
    assert days[0] in r;
    assert r[0] in days;
    forall d | d in days
      ensures d <= r[0]
    {
      assert d in r;
    }
  }

  /** The streak never exceeds the number of distinct workout days. */
  lemma StreakAtMostDistinctDays(days: seq<int>, today: int)
    ensures StreakOf(days, today) <= |DistinctDays(days)| <= |days|
  {
  }

  /** `calculateCurrentStreak` (also `calculateStreak`). */
  method CalculateCurrentStreak(history: seq<WorkoutHistory>, dayOf: int -> int, today: int) returns (streak: int)
    ensures streak == StreakOf(DaysOf(history, dayOf), today)
  {
    if |history| == 0 {
      return 0;
    }
    var workoutDates := DistinctDays(DaysOf(history, dayOf));
    if |workoutDates| == 0 {
      return 0;
    }
    streak := 0;
    var expectedDate := today;
    var i := 0;
    while i < |workoutDates|
      invariant 0 <= i <= |workoutDates|
      invariant StreakFrom(workoutDates, today) == streak + StreakFrom(workoutDates[i..], expectedDate)
    {
      var date := workoutDates[i];
      assert workoutDates[i..][1..] == workoutDates[i + 1..];
      if date == expectedDate || date == expectedDate - 1 {
        streak := streak + 1;
        expectedDate := date - 1;
      } else {
        break;
      }
      i := i + 1;
    }
  }
}

/**
 * `getApplicationStreak`: the run of consecutive calendar days with an application that reaches
 * today or yesterday, and the longest such run ever.
 */
module Streak {
  import opened Common

  /** The calendar day of each application date. */
  function Days(dates: seq<int>): (r: seq<int>)
    ensures |r| == |dates| && forall i :: 0 <= i < |dates| ==> r[i] == Day(dates[i])
  {
    seq(|dates|, i requires 0 <= i < |dates| => Day(dates[i]))
  }

  predicate StrictlyDecreasing(u: seq<int>)
  {
    forall i, j :: 0 <= i < j < |u| ==> u[i] > u[j]
  }

  /** Places `d` in a strictly decreasing list, unless it is already there. */
  function InsertDay(d: int, u: seq<int>): (r: seq<int>)
    requires StrictlyDecreasing(u)
    ensures StrictlyDecreasing(r)
    ensures forall x :: x in r <==> x == d || x in u
  {
    if u == [] then [d]
    else if d == u[0] then u
    else if d > u[0] then [d] + u
    else
      var rest := InsertDay(d, u[1..]);
      assert forall j :: 0 <= j < |rest| ==> rest[j] < u[0] by {
        forall j | 0 <= j < |rest| ensures rest[j] < u[0] {
          assert rest[j] in rest;
          if rest[j] != d {
            var k :| 0 <= k < |u[1..]| && u[1..][k] == rest[j];
            assert u[k + 1] == rest[j];
          }
        }
      }
      [u[0]] + rest
  }

  /** `[...new Set(days)].sort().reverse()`: each day once, latest first. */
  function DistinctDaysDesc(days: seq<int>): (u: seq<int>)
    ensures StrictlyDecreasing(u)
    ensures forall x :: x in u <==> x in days
    ensures |u| <= |days| && (days != [] ==> u != [])
  {
    if days == [] then []
    else
      var init, d := days[..|days| - 1], days[|days| - 1];
      assert days == init + [d];
      var prev := DistinctDaysDesc(init);
      InsertDayLength(d, prev);
      InsertDay(d, prev)
  }

  lemma {:induction false} InsertDayLength(d: int, u: seq<int>)
    requires StrictlyDecreasing(u)
    ensures |InsertDay(d, u)| == if d in u then |u| else |u| + 1
  {
    if u != [] && d < u[0] {
      InsertDayLength(d, u[1..]);
      assert d in u <==> d in u[1..];
    }
  }

  /** The number of consecutive days starting at position `i` and going back in time. */
  function RunFrom(u: seq<int>, i: nat): nat
    requires i < |u|
    decreases |u| - i
  {
    if i + 1 < |u| && u[i] - u[i + 1] == 1 then 1 + RunFrom(u, i + 1) else 1
  }

  /** The number of consecutive days ending at position `i`, counted towards the latest day. */
  function RunEnding(u: seq<int>, i: nat): nat
    requires i < |u|
  {
    if i > 0 && u[i - 1] - u[i] == 1 then 1 + RunEnding(u, i - 1) else 1
  }

  /** The longest run ending among the first `n` days. */
  function LongestUpTo(u: seq<int>, n: nat): nat
    requires 1 <= n <= |u|
  {
    if n == 1 then RunEnding(u, 0)
    else
      var before, here := LongestUpTo(u, n - 1), RunEnding(u, n - 1);
      if here > before then here else before
  }

  function LongestRun(u: seq<int>): nat
  {
    if u == [] then 0 else LongestUpTo(u, |u|)
  }

  /** The run starting at the latest day, if that day is today or yesterday. */
  function CurrentStreak(u: seq<int>, today: int): nat
  {
    if u != [] && (u[0] == today || u[0] == today - 1) then RunFrom(u, 0) else 0
  }

  /** `RunFrom` counts exactly a maximal stretch of days one apart. */
  lemma {:induction false} RunFromSpec(u: seq<int>, i: nat)
    requires i < |u|
    decreases |u| - i
    ensures i + RunFrom(u, i) <= |u|
    ensures forall k :: i < k < i + RunFrom(u, i) ==> u[k - 1] - u[k] == 1
    ensures i + RunFrom(u, i) == |u| || u[i + RunFrom(u, i) - 1] - u[i + RunFrom(u, i)] != 1
  {
    if i + 1 < |u| && u[i] - u[i + 1] == 1 {
      RunFromSpec(u, i + 1);
    }
  }

  /** A stretch of days one apart from `i` up to `e`, broken at `e`, is the run from `i`. */
  lemma {:induction false} RunFromIs(u: seq<int>, i: nat, e: nat)
    requires i < e <= |u|
    requires forall k :: i < k < e ==> u[k - 1] - u[k] == 1
    requires e == |u| || u[e - 1] - u[e] != 1
    decreases e - i
    ensures RunFrom(u, i) == e - i
  {
    if i + 1 < e {
      RunFromIs(u, i + 1, e);
    }
  }

  /** Inside the run starting at `i`, the run ending at `i + k` is at least `k + 1` long. */
  lemma {:induction false} RunEndingWithin(u: seq<int>, i: nat, k: nat)
    requires i < |u| && k < RunFrom(u, i)
    ensures i + k < |u| && RunEnding(u, i + k) >= k + 1
  {
    RunFromSpec(u, i);
    if k > 0 {
      RunEndingWithin(u, i, k - 1);
    }
  }

  /** The longest run bounds every run ending in range, and some run attains it. */
  lemma {:induction false} LongestUpToSpec(u: seq<int>, n: nat)
    requires 1 <= n <= |u|
    ensures LongestUpTo(u, n) >= 1
    ensures forall i :: 0 <= i < n ==> RunEnding(u, i) <= LongestUpTo(u, n)
    ensures exists i :: 0 <= i < n && RunEnding(u, i) == LongestUpTo(u, n)
  {
    if n > 1 {
      LongestUpToSpec(u, n - 1);
    } else {
      assert RunEnding(u, 0) == LongestUpTo(u, 1);
    }
  }

  /** With any application, the longest streak is at least one and at least the current streak. */
  lemma StreakBounds(u: seq<int>, today: int)
    ensures u == [] ==> CurrentStreak(u, today) == 0 && LongestRun(u) == 0
    ensures u != [] ==> 1 <= LongestRun(u) && CurrentStreak(u, today) <= LongestRun(u)
  {
    if u != [] {
      LongestUpToSpec(u, |u|);
      var c := RunFrom(u, 0);
      RunEndingWithin(u, 0, c - 1);
    }
  }

  /** A latest day older than yesterday means no current streak. */
  lemma StaleStreak(u: seq<int>, today: int)
    requires u != [] && u[0] < today - 1
    ensures CurrentStreak(u, today) == 0
  {
  }

  /** Three applications on today, yesterday and the day before: a current and longest streak of three. */
  lemma ThreeDayExample(today: int)
    ensures CurrentStreak([today, today - 1, today - 2], today) == 3
    ensures LongestRun([today, today - 1, today - 2]) == 3
  {
    var u := [today, today - 1, today - 2];
    assert RunFrom(u, 2) == 1 && RunFrom(u, 1) == 2 && RunFrom(u, 0) == 3;
    assert RunEnding(u, 0) == 1 && RunEnding(u, 1) == 2 && RunEnding(u, 2) == 3;
    assert LongestUpTo(u, 1) == 1 && LongestUpTo(u, 2) == 2;
  }

  /** Applications today and five days ago: both streaks are one. */
  lemma GapExample(today: int)
    ensures CurrentStreak([today, today - 5], today) == 1
    ensures LongestRun([today, today - 5]) == 1
  {
    var u := [today, today - 5];
    assert RunFrom(u, 0) == 1;
    assert RunEnding(u, 0) == 1 && RunEnding(u, 1) == 1;
    assert LongestUpTo(u, 1) == 1 && LongestUpTo(u, 2) == 1;
  }

  /** The first loop: counts the days one apart from the latest day, stopping at the first gap. */
  method CountCurrent(u: seq<int>) returns (currentStreak: nat)
    requires u != []
    ensures currentStreak == RunFrom(u, 0)
  {
    currentStreak := 1;
    var i := 1;
    while i < |u|
      invariant 1 <= i <= |u| && currentStreak == i
      invariant forall k :: 0 < k < i ==> u[k - 1] - u[k] == 1
    {
      if u[i - 1] - u[i] == 1 {
        currentStreak := currentStreak + 1;
      } else {
        break;
      }
      i := i + 1;
    }
    RunFromIs(u, 0, i);
  }

  /** The second loop: tracks the run ending at each day and keeps the longest run of two or more. */
  method CountLongest(u: seq<int>) returns (longestStreak: nat)
    requires u != []
    ensures longestStreak == if LongestRun(u) >= 2 then LongestRun(u) else 0
  {
    longestStreak := 0;
    var tempStreak := 1;
    var i := 1;
    while i < |u|
      invariant 1 <= i <= |u| && tempStreak == RunEnding(u, i - 1)
      invariant longestStreak == if LongestUpTo(u, i) >= 2 then LongestUpTo(u, i) else 0
    {
      if u[i - 1] - u[i] == 1 {
        tempStreak := tempStreak + 1;
        longestStreak := if longestStreak > tempStreak then longestStreak else tempStreak;
      } else {
        tempStreak := 1;
      }
      i := i + 1;
    }
  }

  /**
   * `getApplicationStreak` over the user's application dates at time `now`: (0, 0) without
   * applications, otherwise the current and the longest run of distinct consecutive days.
   */
  method GetStreak(dates: seq<int>, now: int) returns (currentStreak: nat, longestStreak: nat)
    ensures dates == [] ==> currentStreak == 0 && longestStreak == 0
    ensures dates != [] ==>
      var u := DistinctDaysDesc(Days(dates));
      currentStreak == CurrentStreak(u, Day(now)) && longestStreak == LongestRun(u)
  {
    if |dates| == 0 {
      return 0, 0;
    }
    var u := DistinctDaysDesc(Days(dates));
    currentStreak := 0;
    var today := Day(now);
    var yesterday := Day(now - DAY_MS);
    DayBefore(now);
    if u[0] == today || u[0] == yesterday {
      currentStreak := CountCurrent(u);
    }
    longestStreak := CountLongest(u);
    StreakBounds(u, today);
    var m := if longestStreak > currentStreak then longestStreak else currentStreak;
    longestStreak := if m > 1 then m else 1;
  }
}

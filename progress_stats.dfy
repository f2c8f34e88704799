/** The statistics page of the 15-day programme: the current streak, the
    completed / in-progress / not-started counts, the success rate, the six
    achievement badges and the day-by-day grid. Days are integer day
    numbers here (1 to 15 in the grid). */
module ProgressStats {

  /** The fixed length of the programme. */
  const TotalDays: int := 15

  // ---------------------------------------------------------------------------
  // Sorting a copy of the completed days, largest first
  // ---------------------------------------------------------------------------

  predicate NonIncreasing(s: seq<int>)
  {
    forall i, j :: 0 <= i < j < |s| ==> s[i] >= s[j]
  }

  /** Inserts `x` into a non-increasing sequence, before the first element
      that is not larger than `x`. */
  function InsertDescending(x: int, s: seq<int>): (r: seq<int>)
    ensures multiset(r) == multiset(s) + multiset{x}
    ensures |r| == |s| + 1
  {
    if s == [] || x >= s[0] then [x] + s
    else
      assert s == [s[0]] + s[1..];
      [s[0]] + InsertDescending(x, s[1..])
  }

  /** Every element of `s` is at most `bound`. */
  predicate AtMost(s: seq<int>, bound: int)
  {
    forall i :: 0 <= i < |s| ==> s[i] <= bound
  }

  /** A bound on the elements carries over to any permutation. */
  lemma AtMostPermutation(a: seq<int>, b: seq<int>, bound: int)
    requires multiset(a) == multiset(b) && AtMost(a, bound)
    ensures AtMost(b, bound)
  {
    forall i | 0 <= i < |b| ensures b[i] <= bound {
      assert b[i] in multiset(a);
    }
  }

  /** Insertion keeps the sequence non-increasing. */
  lemma {:induction false} InsertKeepsOrder(x: int, s: seq<int>)
    requires NonIncreasing(s)
    ensures NonIncreasing(InsertDescending(x, s))
  {
    if s != [] && x < s[0] {
      var rest := InsertDescending(x, s[1..]);
      InsertKeepsOrder(x, s[1..]);
      assert AtMost(s[1..] + [x], s[0]);
      assert multiset(s[1..] + [x]) == multiset(rest);
      AtMostPermutation(s[1..] + [x], rest, s[0]);
      assert InsertDescending(x, s) == [s[0]] + rest;
    }
  }

  /** The copy of the completed days ordered by the comparator `(a, b) => b - a`:
      largest day first. Any correct sort gives this sequence, since a
      non-increasing permutation of a multiset is unique. */
  function SortDescending(s: seq<int>): (r: seq<int>)
    ensures NonIncreasing(r)
    ensures multiset(r) == multiset(s)
    ensures |r| == |s|
  {
    if s == [] then []
    else
      assert s == [s[0]] + s[1..];
      InsertKeepsOrder(s[0], SortDescending(s[1..]));
      InsertDescending(s[0], SortDescending(s[1..]))
  }

  // ---------------------------------------------------------------------------
  // What the streak is, stated on the multiset of completed days
  // ---------------------------------------------------------------------------

  /** The largest completed day. */
  function Max(s: seq<int>): (m: int)
    requires s != []
    ensures m in s
    ensures forall k :: 0 <= k < |s| ==> s[k] <= m
  {
    if |s| == 1 then s[0]
    else
      var m' := Max(s[1..]);
      assert forall k :: 1 <= k < |s| ==> s[k] == s[1..][k - 1];
      if s[0] >= m' then s[0] else m'
  }

  /** The `k` integers `top, top - 1, ..., top - k + 1` all occur among the
      days, and every one of them except possibly the lowest occurs exactly once. */
  ghost predicate RunFromTop(days: seq<int>, top: int, k: nat)
  {
    && (forall v :: top - k < v <= top ==> v in multiset(days))
    && (forall v :: top - k + 1 < v <= top ==> multiset(days)[v] == 1)
  }

  /** `k` is the current streak of `days`: zero without days, otherwise the
      longest run of consecutive integers descending from the largest day,
      where a repeated day ends the run just as a gap does. */
  ghost predicate IsStreak(days: seq<int>, k: nat)
  {
    if days == [] then k == 0
    else 1 <= k && RunFromTop(days, Max(days), k) && !RunFromTop(days, Max(days), k + 1)
  }

  /** `calculateStreak`: sort a copy largest first, then count the steps of
      exactly one from the top until the first step that is not one. */
  method CalculateStreak(completedDays: seq<int>) returns (streak: nat)
    ensures IsStreak(completedDays, streak)
    ensures streak == 0 <==> completedDays == []
    ensures streak <= |completedDays|
  {
    if |completedDays| == 0 {
      return 0;
    }
    var sorted := SortDescending(completedDays);
    streak := 1;
    var i := 0;
    while i < |sorted| - 1
      invariant 0 <= i <= |sorted| - 1
      invariant streak == i + 1
      invariant forall j :: 0 <= j < i ==> sorted[j] - sorted[j + 1] == 1
    {
      if sorted[i] - sorted[i + 1] == 1 {
        streak := streak + 1;
      } else {
        break;
      }
      i := i + 1;
    }
    StreakOfSorted(completedDays, sorted, streak);
  }

  /** A chain of steps of exactly one from the head of `s` descends from `s[0]`. */
  lemma {:induction false} ChainValues(s: seq<int>, k: nat)
    requires k <= |s|
    requires forall j :: 0 <= j < k - 1 ==> s[j] - s[j + 1] == 1
    ensures forall j :: 0 <= j < k ==> s[j] == s[0] - j
  {
    if k > 1 {
      ChainValues(s, k - 1);
      assert s[k - 2] - s[k - 1] == 1;
    }
  }

  /** The head of the sorted copy is the largest day. */
  lemma SortedHeadIsMax(days: seq<int>, s: seq<int>)
    requires days != []
    requires NonIncreasing(s) && multiset(s) == multiset(days)
    ensures |s| == |days| && s[0] == Max(days)
  {
    assert |s| == |multiset(s)| == |multiset(days)| == |days|;
    var m := Max(days);
    assert m in multiset(s);
    assert s[0] in multiset(days);
  }

  /** Along the chain, every value of the run occurs. */
  lemma RunOccurs(s: seq<int>, k: nat)
    requires 1 <= k <= |s|
    requires forall j :: 0 <= j < k ==> s[j] == s[0] - j
    ensures forall v :: s[0] - k < v <= s[0] ==> v in multiset(s)
  {
    forall v | s[0] - k < v <= s[0]
      ensures v in multiset(s)
    {
      assert s[s[0] - v] == v;
    }
  }

  /** A value found at one index only occurs once. */
  lemma OccursOnce(s: seq<int>, j: nat)
    requires j < |s|
    requires forall i :: 0 <= i < |s| && i != j ==> s[i] != s[j]
    ensures multiset(s)[s[j]] == 1
  {
    var v := s[j];
    assert s == s[..j] + [v] + s[j + 1..];
    assert v !in s[..j] by {
      forall i | 0 <= i < j ensures s[..j][i] != v { assert s[..j][i] == s[i]; }
    }
    var rest := s[j + 1..];
    assert v !in rest by {
      forall i | 0 <= i < |rest| ensures rest[i] != v { assert rest[i] == s[j + 1 + i]; }
    }
    assert multiset(s) == multiset(s[..j]) + multiset{v} + multiset(rest);
  }

  /** Along the chain of a non-increasing sequence, every value of the run
      except the lowest occurs exactly once. */
  lemma RunUnique(s: seq<int>, k: nat)
    requires NonIncreasing(s)
    requires 1 <= k <= |s|
    requires forall j :: 0 <= j < k ==> s[j] == s[0] - j
    ensures forall v :: s[0] - k + 1 < v <= s[0] ==> multiset(s)[v] == 1
  {
    var m := s[0];
    forall v | m - k + 1 < v <= m
      ensures multiset(s)[v] == 1
    {
      var j := m - v;
      assert s[j] == v && s[j + 1] == v - 1;
      forall i | 0 <= i < |s| && i != j ensures s[i] != v {
        if i < j { assert s[i] == m - i; } else { assert s[i] <= s[j + 1]; }
      }
      OccursOnce(s, j);
    }
  }

  /** Where the chain ends, the run ends: the next lower value is missing, or
      the lowest value of the run is repeated. */
  lemma RunStops(s: seq<int>, k: nat)
    requires NonIncreasing(s)
    requires 1 <= k <= |s|
    requires forall j :: 0 <= j < k ==> s[j] == s[0] - j
    requires k == |s| || s[k - 1] - s[k] != 1
    ensures s[0] - k !in multiset(s) || multiset(s)[s[0] - k + 1] >= 2
  {
    var m := s[0];
    if k == |s| {
      forall i | 0 <= i < |s| ensures s[i] != m - k { assert s[i] == m - i; }
    } else if s[k] == m - k + 1 {
      var v := m - k + 1;
      assert s == s[..k - 1] + [v, v] + s[k + 1..];
      assert multiset(s) == multiset(s[..k - 1]) + multiset{v, v} + multiset(s[k + 1..]);
    } else {
      assert s[k] < m - k by { assert s[k] <= s[k - 1]; }
      forall i | 0 <= i < |s| ensures s[i] != m - k {
        if i < k { assert s[i] == m - i; } else { assert s[i] <= s[k]; }
      }
    }
  }

  /** The counting loop's result over the sorted copy is the streak of the days. */
  lemma StreakOfSorted(days: seq<int>, s: seq<int>, k: nat)
    requires days != []
    requires NonIncreasing(s) && multiset(s) == multiset(days)
    requires 1 <= k <= |s|
    requires forall j :: 0 <= j < k - 1 ==> s[j] - s[j + 1] == 1
    requires k == |s| || s[k - 1] - s[k] != 1
    ensures IsStreak(days, k)
  {
    SortedHeadIsMax(days, s);
    ChainValues(s, k);
    RunOccurs(s, k);
    RunUnique(s, k);
    RunStops(s, k);
    assert RunFromTop(days, s[0], k);
  }

  // ---------------------------------------------------------------------------
  // Counts and the success rate
  // ---------------------------------------------------------------------------

  /** The success rate in percent, `completed / attempted * 100`, and 0
      without attempts; the page works in floating point, the model in exact
      rationals. */
  function SuccessRate(completedCount: int, attemptedCount: int): (rate: real)
    ensures attemptedCount <= 0 ==> rate == 0.0
    ensures attemptedCount > 0 ==> rate * attemptedCount as real == completedCount as real * 100.0
  {
    if attemptedCount > 0 then (completedCount as real / attemptedCount as real) * 100.0 else 0.0
  }

  /** The rate is exactly 100 iff there were attempts and every attempt was completed. */
  lemma FullRate(completedCount: int, attemptedCount: int)
    ensures SuccessRate(completedCount, attemptedCount) == 100.0
            <==> attemptedCount > 0 && completedCount == attemptedCount
  {
    if attemptedCount > 0 {
      var r := SuccessRate(completedCount, attemptedCount);
      var a := attemptedCount as real;
      assert r * a == completedCount as real * 100.0;
      if r == 100.0 {
        assert 100.0 * a == completedCount as real * 100.0;
      }
      if completedCount == attemptedCount {
        assert a / a == 1.0;
      }
    }
  }

  /** The three summary figures under the progress bar. */
  datatype Breakdown = Breakdown(completed: int, inProgress: int, notStarted: int)

  /** Completed is the number of completed entries, in progress is attempted
      minus completed and not started is 15 minus attempted. Neither list is
      deduplicated or checked against the other, so the last two may be negative. */
  function DayBreakdown(completedDays: seq<int>, attemptedDays: seq<int>): (b: Breakdown)
    ensures b.completed == |completedDays|
    ensures b.completed + b.inProgress == |attemptedDays|
    ensures b.completed + b.inProgress + b.notStarted == TotalDays
    ensures b.inProgress >= 0 <==> |completedDays| <= |attemptedDays|
    ensures b.notStarted >= 0 <==> |attemptedDays| <= TotalDays
  {
    Breakdown(|completedDays|, |attemptedDays| - |completedDays|, TotalDays - |attemptedDays|)
  }

  // ---------------------------------------------------------------------------
  // Achievement badges
  // ---------------------------------------------------------------------------

  datatype Achievement = Achievement(name: string, description: string, unlocked: bool)

  /** The six badges, in display order, each with its unlock predicate. */
  function Achievements(completedCount: int, attemptedCount: int, streak: int): (badges: seq<Achievement>)
    ensures |badges| == 6
    ensures && badges[0].name == "First Step" && badges[1].name == "On Fire"
            && badges[2].name == "Half Way" && badges[3].name == "Almost There"
            && badges[4].name == "Perfect Score" && badges[5].name == "Master"
  {
    [ Achievement("First Step", "Complete your first query", completedCount >= 1),
      Achievement("On Fire", "3-day streak", streak >= 3),
      Achievement("Half Way", "Complete 7+ queries", completedCount >= 7),
      Achievement("Almost There", "Complete 10+ queries", completedCount >= 10),
      Achievement("Perfect Score", "100% success rate with 5+ attempts",
                  SuccessRate(completedCount, attemptedCount) == 100.0 && attemptedCount >= 5),
      Achievement("Master", "Complete all 15 queries", completedCount == TotalDays) ]
  }

  /** Which badges are unlocked, stated on the counts alone. */
  lemma UnlockConditions(completedCount: int, attemptedCount: int, streak: int)
    ensures var b := Achievements(completedCount, attemptedCount, streak);
      && (b[0].unlocked <==> completedCount >= 1)
      && (b[1].unlocked <==> streak >= 3)
      && (b[2].unlocked <==> completedCount >= 7)
      && (b[3].unlocked <==> completedCount >= 10)
      && (b[4].unlocked <==> attemptedCount >= 5 && completedCount == attemptedCount)
      && (b[5].unlocked <==> completedCount == 15)
  {
    FullRate(completedCount, attemptedCount);
  }

  /** The badges the statistics page shows for its two lists: the counts are
      the list lengths and the streak is the one `calculateStreak` returns. */
  method PageBadges(completedDays: seq<int>, attemptedDays: seq<int>)
    returns (streak: nat, badges: seq<Achievement>)
    ensures IsStreak(completedDays, streak)
    ensures badges == Achievements(|completedDays|, |attemptedDays|, streak)
    ensures badges[1].name == "On Fire" && (badges[1].unlocked <==> streak >= 3)
    ensures badges[1].unlocked ==> |completedDays| >= 3
    ensures badges[4].name == "Perfect Score"
            && (badges[4].unlocked <==> |attemptedDays| >= 5 && |completedDays| == |attemptedDays|)
  {
    streak := CalculateStreak(completedDays);
    badges := Achievements(|completedDays|, |attemptedDays|, streak);
    UnlockConditions(|completedDays|, |attemptedDays|, streak);
  }

  /** Completing more queries never locks "First Step", "Half Way" or
      "Almost There" again; "Master" is the exception, since 16 completions lock it. */
  lemma CountBadgesMonotone(c: int, c': int, attemptedCount: int, streak: int)
    requires c <= c'
    ensures var before := Achievements(c, attemptedCount, streak);
            var after := Achievements(c', attemptedCount, streak);
      forall i :: i in {0, 2, 3} && before[i].unlocked ==> after[i].unlocked
    ensures Achievements(16, attemptedCount, streak)[5].unlocked == false
  {
  }

  // ---------------------------------------------------------------------------
  // The day-by-day grid
  // ---------------------------------------------------------------------------

  datatype DayClass = Completed | Attempted | NotStarted

  /** The class of one day: completed before attempted before not started. */
  function ClassifyDay(day: int, completedDays: seq<int>, attemptedDays: seq<int>): DayClass
  {
    if day in completedDays then Completed
    else if day in attemptedDays then Attempted
    else NotStarted
  }

  /** The grid of days 1..15: cell `i` shows day `i + 1`, and its class is
      decided by the two lists alone, with completed taking precedence. */
  function DayGrid(completedDays: seq<int>, attemptedDays: seq<int>): (grid: seq<DayClass>)
    ensures |grid| == TotalDays
    ensures forall i :: 0 <= i < |grid| ==>
      && (grid[i] == Completed <==> i + 1 in completedDays)
      && (grid[i] == Attempted <==> i + 1 in attemptedDays && i + 1 !in completedDays)
      && (grid[i] == NotStarted <==> i + 1 !in attemptedDays && i + 1 !in completedDays)
  {
    seq(TotalDays, i => ClassifyDay(i + 1, completedDays, attemptedDays))
  }
}

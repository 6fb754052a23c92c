/**
 * The analytics service (`AnalyticsService`): statistics, the day streak,
 * ranked insights, the peak activity hour and the current health snapshot,
 * all computed from the newest-first record list and the current time.
 */
module Analytics {
  import opened LogModel
  import opened TypeStats

  // ---------------------------------------------------------------------
  // Day streak
  // ---------------------------------------------------------------------

  /** The distinct day numbers of the records. */
  function DatesOf(logs: seq<Log>): set<int>
  {
    if logs == [] then {} else DatesOf(logs[..|logs| - 1]) + {logs[|logs| - 1].date}
  }

  ghost predicate StrictlyDescending(ds: seq<int>) {
    forall i, j :: 0 <= i < j < |ds| ==> ds[i] > ds[j]
  }

  lemma DescendingTail(ds: seq<int>)
    requires StrictlyDescending(ds) && ds != []
    ensures StrictlyDescending(ds[1..])
    ensures forall x :: x in ds <==> x == ds[0] || x in ds[1..]
    ensures forall x :: x in ds[1..] ==> x < ds[0]
  {
    assert ds == [ds[0]] + ds[1..];
    forall x | x in ds[1..] ensures x < ds[0] {
      var k :| 0 <= k < |ds[1..]| && ds[1..][k] == x;
      assert ds[k + 1] == x;
    }
  }

  lemma DescendingCons(h: int, t: seq<int>)
    requires StrictlyDescending(t) && forall x :: x in t ==> x < h
    ensures StrictlyDescending([h] + t)
  {
    var r := [h] + t;
    forall i, j | 0 <= i < j < |r| ensures r[i] > r[j] {
      assert r[j] == t[j - 1];
      if i == 0 {
        assert t[j - 1] in t;
      } else {
        assert r[i] == t[i - 1];
      }
    }
  }

  /** Adds `d` to a strictly descending list of days unless it is already there. */
  function InsertDescending(ds: seq<int>, d: int): (r: seq<int>)
    requires StrictlyDescending(ds)
    ensures StrictlyDescending(r)
    ensures forall x :: x in r <==> x in ds || x == d
    ensures |r| == if d in ds then |ds| else |ds| + 1
  {
    if ds == [] then [d]
    else if d == ds[0] then ds
    else
      DescendingTail(ds);
      if d > ds[0] then
        DescendingCons(d, ds);
        [d] + ds
      else
        var rest := InsertDescending(ds[1..], d);
        DescendingCons(ds[0], rest);
        [ds[0]] + rest
  }

  /** `[...new Set(logs.map(log => log.date))].sort().reverse()`: the distinct days, latest first. */
  function DatesDescending(logs: seq<Log>): (r: seq<int>)
    ensures StrictlyDescending(r)
    ensures forall d :: d in r <==> d in DatesOf(logs)
    ensures |r| == |DatesOf(logs)|
  {
    if logs == [] then []
    else
      var init, d := logs[..|logs| - 1], logs[|logs| - 1].date;
      var prev := DatesDescending(init);
      DatesSize(DatesOf(init), d);
      InsertDescending(prev, d)
  }

  lemma DatesSize(s: set<int>, d: int)
    ensures |s + {d}| == if d in s then |s| else |s| + 1
  {
    if d in s {
      assert s + {d} == s;
    }
  }

  /**
   * `k` is the streak ending `today`: with no record dated after today, the
   * days `today - k + 1 .. today` all have records and `today - k` has none;
   * a record dated after today makes the streak 0.
   */
  ghost predicate IsStreak(dates: set<int>, today: int, k: nat) {
    && ((exists d :: d in dates && d > today) ==> k == 0)
    && ((forall d :: d in dates ==> d <= today) ==>
          (forall d :: today - k < d <= today ==> d in dates) && today - k !in dates)
  }

  /** The streak of a day set is unique. */
  lemma StreakUnique(dates: set<int>, today: int, k1: nat, k2: nat)
    requires IsStreak(dates, today, k1) && IsStreak(dates, today, k2)
    ensures k1 == k2
  {
    if forall d :: d in dates ==> d <= today {
      assert today - k1 !in dates && today - k2 !in dates;
    }
  }

  /** How the scan of the descending day list ends determines the streak. */
  lemma StreakOfScan(ds: seq<int>, dates: set<int>, today: int, k: nat)
    requires StrictlyDescending(ds)
    requires forall d :: d in ds <==> d in dates
    requires k <= |ds|
    requires forall j :: 0 <= j < k ==> ds[j] == today - j
    requires k < |ds| ==> ds[k] != today - k
    ensures IsStreak(dates, today, k)
  {
    if exists d :: d in dates && d > today {
      var d :| d in dates && d > today;
      var p :| 0 <= p < |ds| && ds[p] == d;
      assert ds[0] >= d;
    }
    if forall d :: d in dates ==> d <= today {
      forall d | today - k < d <= today ensures d in dates {
        assert ds[today - d] == d;
      }
      if k < |ds| {
        assert ds[k] < today - k by {
          if k > 0 {
            assert ds[k] < ds[k - 1];
          } else {
            assert ds[0] in dates;
          }
        }
      }
      forall p | 0 <= p < |ds| ensures ds[p] != today - k {
        if p > k {
          assert ds[p] < ds[k];
        }
      }
    }
  }

  /**
   * `calculateStreak`: walks the distinct days latest first and counts while
   * each is exactly `streak` days before `today` (the loop guard folds in the
   * source's `break`).
   */
  method CalculateStreak(logs: seq<Log>, today: int) returns (streak: nat)
    ensures IsStreak(DatesOf(logs), today, streak)
    ensures streak <= |DatesOf(logs)|
    ensures streak >= 1 ==> today in DatesOf(logs)
  {
    if |logs| == 0 {
      return 0;
    }
    var dates := DatesDescending(logs);
    streak := CountBack(dates, today);
    ScanEnds(logs, dates, today, streak);
  }

  /** The loop of `calculateStreak`: counts the leading days that are exactly `streak` days before `today`. */
  method CountBack(dates: seq<int>, today: int) returns (streak: nat)
    ensures streak <= |dates|
    ensures forall j :: 0 <= j < streak ==> dates[j] == today - j
    ensures streak < |dates| ==> dates[streak] != today - streak
  {
    streak := 0;
    while streak < |dates| && today - dates[streak] == streak
      invariant streak <= |dates|
      invariant forall j :: 0 <= j < streak ==> dates[j] == today - j
    {
      streak := streak + 1;
    }
  }

  /** The facts the streak scan establishes, stated over the record days. */
  lemma ScanEnds(logs: seq<Log>, dates: seq<int>, today: int, k: nat)
    requires dates == DatesDescending(logs)
    requires k <= |dates|
    requires forall j :: 0 <= j < k ==> dates[j] == today - j
    requires k < |dates| ==> dates[k] != today - k
    ensures IsStreak(DatesOf(logs), today, k)
    ensures k <= |DatesOf(logs)|
    ensures k >= 1 ==> today in DatesOf(logs)
  {
    StreakOfScan(dates, DatesOf(logs), today, k);
    if k >= 1 {
      assert dates[0] in DatesOf(logs);
    }
  }

  // ---------------------------------------------------------------------
  // Statistics
  // ---------------------------------------------------------------------

  /** The result of `calculateStats`; `avgRecovery` is the one-decimal mean, in tenths. */
  datatype Stats = Stats(
    totalReboots: nat,
    avgRecovery: int,
    bestReboot: Option<string>,
    streakDays: nat,
    totalMinutes: int,
    avgDuration: int)

  const EmptyStats: Stats := Stats(0, 0, None, 0, 0, 0)

  /** What `calculateStats` promises about its result. */
  ghost predicate StatsOf(logs: seq<Log>, today: int, st: Stats) {
    if logs == [] then st == EmptyStats
    else
      && st.totalReboots == |logs|
      && st.avgRecovery == Tenths(MeanRecovery(logs))
      && st.bestReboot.Some? && IsBestType(logs, st.bestReboot.value)
      && IsStreak(DatesOf(logs), today, st.streakDays)
      && st.totalMinutes == SumDuration(logs)
      && st.avgDuration == Round(SumDuration(logs) as real / |logs| as real)
  }

  /** `calculateStats`: counts, means, the best type and the streak. */
  method CalculateStats(logs: seq<Log>, today: int) returns (stats: Stats)
    ensures StatsOf(logs, today, stats)
  {
    if |logs| == 0 {
      return EmptyStats;
    }
    var totalReboots := |logs|;
    var avgRecovery := SumRecovery(logs) as real / totalReboots as real;
    var totalMinutes := SumDuration(logs);
    var avgDuration := totalMinutes as real / totalReboots as real;
    var bestReboot := BestType(logs);
    var streakDays := CalculateStreak(logs, today);
    stats := Stats(totalReboots, Tenths(avgRecovery), bestReboot, streakDays, totalMinutes, Round(avgDuration));
  }

  /**
   * Recoveries 8 and 6 for two spa records and 4 for one sleep record: spa
   * (mean 7) is the best type, not sleep (mean 4).
   */
  lemma BestRebootExample(logs: seq<Log>, today: int, st: Stats)
    requires |logs| == 3
    requires logs[0].rebootType == "spa" && logs[0].postRecovery == 8
    requires logs[1].rebootType == "spa" && logs[1].postRecovery == 6
    requires logs[2].rebootType == "sleep" && logs[2].postRecovery == 4
    requires StatsOf(logs, today, st)
    ensures st.bestReboot == Some("spa")
  {
    assert logs[..2][..1] == logs[..1] && logs[..1][..0] == [];
    assert logs[..|logs| - 1] == logs[..2];
    assert TypesOf(logs[..1]) == {"spa"};
    assert TypesOf(logs[..2]) == {"spa"};
    assert TypesOf(logs) == {"spa", "sleep"};
    assert CountOfType(logs[..1], "spa") == 1 && RecoveryOfType(logs[..1], "spa") == 8;
    assert CountOfType(logs[..2], "spa") == 2 && RecoveryOfType(logs[..2], "spa") == 14;
    assert CountOfType(logs, "spa") == 2 && RecoveryOfType(logs, "spa") == 14;
    TypePresence(logs[..2], "sleep");
    assert CountOfType(logs, "sleep") == 1 && RecoveryOfType(logs, "sleep") == 4;
    assert TypeMean(logs, "spa") == 7.0;
    assert TypeMean(logs, "sleep") == 4.0;
  }

  /** Records today, yesterday and three days ago: a streak of 2. */
  lemma StreakExample(logs: seq<Log>, today: int, k: nat)
    requires DatesOf(logs) == {today, today - 1, today - 3}
    requires IsStreak(DatesOf(logs), today, k)
    ensures k == 2
  {
    assert IsStreak(DatesOf(logs), today, 2);
    StreakUnique(DatesOf(logs), today, k, 2);
  }

  /** With valid scores the reported mean lies in [1.0, 10.0]. */
  lemma AvgRecoveryBounds(logs: seq<Log>, today: int, st: Stats)
    requires logs != [] && ValidScores(logs) && StatsOf(logs, today, st)
    ensures 10 <= st.avgRecovery <= 100
  {
    MeanRecoveryBounds(logs);
    var m := MeanRecovery(logs);
    assert 10.0 <= m * 10.0 <= 100.0;
  }

  /**
   * The insight thresholds act on the rounded mean: below 5.0 exactly when
   * the true mean is below 4.95, at least 7.0 exactly when it is at least 6.95.
   */
  lemma RecoveryThresholds(mean: real)
    requires mean >= 0.0
    ensures Tenths(mean) < 50 <==> mean < 4.95
    ensures Tenths(mean) >= 70 <==> mean >= 6.95
  {
  }

  // ---------------------------------------------------------------------
  // Time-of-day pattern
  // ---------------------------------------------------------------------

  /** `new Date(timestamp).getHours()` in a zone `zoneOffset` ms ahead of UTC. */
  function LocalHour(timestamp: int, zoneOffset: int): (h: int)
    ensures 0 <= h < 24
  {
    ((timestamp + zoneOffset) / HourMs) % 24
  }

  /** The number of records whose local hour is `h`. */
  function HourCount(logs: seq<Log>, zoneOffset: int, h: int): (r: nat)
    ensures r <= |logs|
  {
    if logs == [] then 0
    else HourCount(logs[..|logs| - 1], zoneOffset, h)
         + (if LocalHour(logs[|logs| - 1].timestamp, zoneOffset) == h then 1 else 0)
  }

  lemma {:induction false} HourCountOutOfDay(logs: seq<Log>, zoneOffset: int, h: int)
    requires h < 0 || h >= 24
    ensures HourCount(logs, zoneOffset, h) == 0
  {
    if logs != [] {
      HourCountOutOfDay(logs[..|logs| - 1], zoneOffset, h);
    }
  }

  /** The hour of any record is counted. */
  lemma {:induction false} HourCountOfAny(logs: seq<Log>, zoneOffset: int, i: int)
    requires 0 <= i < |logs|
    ensures HourCount(logs, zoneOffset, LocalHour(logs[i].timestamp, zoneOffset)) > 0
  {
    if i < |logs| - 1 {
      HourCountOfAny(logs[..|logs| - 1], zoneOffset, i);
    }
  }

  datatype Period = Morning | Afternoon | Evening

  /** The label: before 12 morning, before 18 afternoon, otherwise evening. */
  function PeriodOf(hour: int): (p: Period)
    ensures p == Morning <==> hour < 12
    ensures p == Afternoon <==> 12 <= hour < 18
    ensures p == Evening <==> hour >= 18
  {
    if hour < 12 then Morning else if hour < 18 then Afternoon else Evening
  }

  datatype PeakHour = PeakHour(hour: int, period: Period)

  /**
   * What `analyzeTimePatterns` promises: nothing below 10 records, otherwise
   * the earliest hour among those with the most records, and its label.
   */
  ghost predicate PeakOf(logs: seq<Log>, zoneOffset: int, peak: Option<PeakHour>) {
    && (peak.None? <==> |logs| < 10)
    && (peak.Some? ==>
          && 0 <= peak.value.hour < 24
          && peak.value.period == PeriodOf(peak.value.hour)
          && HourCount(logs, zoneOffset, peak.value.hour) > 0
          && (forall h :: HourCount(logs, zoneOffset, h) <= HourCount(logs, zoneOffset, peak.value.hour))
          && (forall h :: h < peak.value.hour ==> HourCount(logs, zoneOffset, h) < HourCount(logs, zoneOffset, peak.value.hour)))
  }

  /**
   * `analyzeTimePatterns`: counts records per local hour, then takes the
   * first entry of the table sorted by descending count. The table's
   * integer keys enumerate in ascending order and the sort is stable, so
   * ties go to the earliest hour.
   */
  method AnalyzeTimePatterns(logs: seq<Log>, zoneOffset: int) returns (peak: Option<PeakHour>)
    ensures PeakOf(logs, zoneOffset, peak)
  {
    if |logs| < 10 {
      return None;
    }
    var hourCounts: map<int, nat> := map[];
    var i := 0;
    while i < |logs|
      invariant 0 <= i <= |logs|
      invariant forall h :: h in hourCounts <==> HourCount(logs[..i], zoneOffset, h) > 0
      invariant forall h :: h in hourCounts ==> hourCounts[h] == HourCount(logs[..i], zoneOffset, h)
    {
      var hour := LocalHour(logs[i].timestamp, zoneOffset);
      hourCounts := hourCounts[hour := (if hour in hourCounts then hourCounts[hour] else 0) + 1];
      assert logs[..i + 1][..i] == logs[..i];
      i := i + 1;
    }
    assert logs[..|logs|] == logs;
    var best := -1;
    var bestCount := 0;
    var h := 0;
    while h < 24
      invariant 0 <= h <= 24
      invariant forall g :: 0 <= g < h ==> HourCount(logs, zoneOffset, g) <= bestCount
      invariant best < 0 ==> bestCount == 0
      invariant best >= 0 ==> 0 <= best < h && bestCount == HourCount(logs, zoneOffset, best) > 0
      invariant best >= 0 ==> forall g :: 0 <= g < best ==> HourCount(logs, zoneOffset, g) < bestCount
    {
      if h in hourCounts && hourCounts[h] > bestCount {
        best := h;
        bestCount := hourCounts[h];
      }
      h := h + 1;
    }
    HourCountOfAny(logs, zoneOffset, 0);
    assert best >= 0;
    forall g ensures HourCount(logs, zoneOffset, g) <= bestCount {
      if g < 0 || g >= 24 {
        HourCountOutOfDay(logs, zoneOffset, g);
      }
    }
    forall g | g < best ensures HourCount(logs, zoneOffset, g) < bestCount {
      if g < 0 {
        HourCountOutOfDay(logs, zoneOffset, g);
      }
    }
    peak := Some(PeakHour(best, PeriodOf(best)));
  }

  // ---------------------------------------------------------------------
  // Insights
  // ---------------------------------------------------------------------

  datatype Priority = Low | Medium | High

  /** The sort key `{ high: 3, medium: 2, low: 1 }`. */
  function Rank(p: Priority): nat {
    match p
    case High => 3
    case Medium => 2
    case Low => 1
  }

  /** What an insight says; its display text and icon are not modelled. */
  datatype InsightKind =
    | Placeholder                    // no records yet
    | BestMethod(rebootType: string) // the most effective type
    | Frequency(count: nat)          // records in the last seven days
    | LowRecovery                    // mean recovery below 5
    | HighRecovery(avgRecovery: int) // mean recovery at least 7 (in tenths)
    | HabitStreak(days: nat)         // streak of at least 7 days
    | PeakActivity(peak: PeakHour)   // the peak hour

  datatype Insight = Insight(kind: InsightKind, priority: Priority)

  /** The heuristic that generates an insight, in generation order. */
  function Step(k: InsightKind): nat {
    match k
    case Placeholder => 0
    case BestMethod(_) => 1
    case Frequency(_) => 2
    case LowRecovery => 3
    case HighRecovery(_) => 3
    case HabitStreak(_) => 4
    case PeakActivity(_) => 5
  }

  /** The frequency insight is medium below seven records a week, low otherwise. */
  function FrequencyPriority(weekCount: nat): Priority {
    if weekCount < 7 then Medium else Low
  }

  /** The insights of one priority, in their original order. */
  function WithPriority(xs: seq<Insight>, p: Priority): seq<Insight>
  {
    if xs == [] then []
    else (if xs[0].priority == p then [xs[0]] else []) + WithPriority(xs[1..], p)
  }

  lemma {:induction false} WithPriorityMembers(xs: seq<Insight>, p: Priority)
    ensures forall x :: x in WithPriority(xs, p) <==> x in xs && x.priority == p
  {
    if xs != [] {
      WithPriorityMembers(xs[1..], p);
      assert xs == [xs[0]] + xs[1..];
    }
  }

  lemma {:induction false} WithPriorityConcat(a: seq<Insight>, b: seq<Insight>, p: Priority)
    ensures WithPriority(a + b, p) == WithPriority(a, p) + WithPriority(b, p)
  {
    if a != [] {
      assert (a + b)[1..] == a[1..] + b;
      WithPriorityConcat(a[1..], b, p);
    } else {
      assert a + b == b;
    }
  }

  lemma {:induction false} WithPriorityUniform(xs: seq<Insight>, p: Priority, q: Priority)
    requires forall x :: x in xs ==> x.priority == p
    ensures WithPriority(xs, q) == if p == q then xs else []
  {
    if xs != [] {
      assert xs[0] in xs;
      assert forall x :: x in xs[1..] ==> x in xs;
      WithPriorityUniform(xs[1..], p, q);
      assert xs == [xs[0]] + xs[1..];
    }
  }

  lemma WithPriorityPartition(xs: seq<Insight>)
    ensures multiset(WithPriority(xs, High) + WithPriority(xs, Medium) + WithPriority(xs, Low)) == multiset(xs)
  {
    GroupMultisets(xs);
    var h, m, l := WithPriority(xs, High), WithPriority(xs, Medium), WithPriority(xs, Low);
    assert multiset(h + m + l) == multiset(h) + multiset(m) + multiset(l);
  }

  /** Every insight falls in exactly one priority group. */
  lemma {:induction false} GroupMultisets(xs: seq<Insight>)
    ensures multiset(WithPriority(xs, High)) + multiset(WithPriority(xs, Medium)) + multiset(WithPriority(xs, Low))
            == multiset(xs)
  {
    if xs != [] {
      var x, rest := xs[0], xs[1..];
      GroupMultisets(rest);
      GroupHead(xs, High);
      GroupHead(xs, Medium);
      GroupHead(xs, Low);
      assert xs == [x] + rest;
      assert multiset(xs) == multiset{x} + multiset(rest);
      var h, m, l := multiset(WithPriority(rest, High)), multiset(WithPriority(rest, Medium)),
                     multiset(WithPriority(rest, Low));
      AddToOne(x, h, m, l, multiset(rest));
    }
  }

  /** Adding an element to one of three multisets adds it to their sum. */
  lemma AddToOne<T>(x: T, a: multiset<T>, b: multiset<T>, c: multiset<T>, all: multiset<T>)
    requires a + b + c == all
    ensures (multiset{x} + a) + b + c == multiset{x} + all
    ensures a + (multiset{x} + b) + c == multiset{x} + all
    ensures a + b + (multiset{x} + c) == multiset{x} + all
  {
  }

  /** The group of priority `p` of a non-empty list: the head's share plus the tail's group. */
  lemma GroupHead(xs: seq<Insight>, p: Priority)
    requires xs != []
    ensures xs[0].priority == p ==> multiset(WithPriority(xs, p)) == multiset{xs[0]} + multiset(WithPriority(xs[1..], p))
    ensures xs[0].priority != p ==> WithPriority(xs, p) == WithPriority(xs[1..], p)
  {
    if xs[0].priority == p {
      assert WithPriority(xs, p) == [xs[0]] + WithPriority(xs[1..], p);
    } else {
      assert WithPriority(xs, p) == [] + WithPriority(xs[1..], p);
    }
  }

  ghost predicate StepsIncreasing(xs: seq<Insight>) {
    forall i, j :: 0 <= i < j < |xs| ==> Step(xs[i].kind) < Step(xs[j].kind)
  }

  lemma {:induction false} WithPriorityKeepsSteps(xs: seq<Insight>, p: Priority)
    ensures StepsIncreasing(xs) ==> StepsIncreasing(WithPriority(xs, p))
  {
    if xs != [] && StepsIncreasing(xs) {
      WithPriorityKeepsSteps(xs[1..], p);
      WithPriorityMembers(xs[1..], p);
      var rest := WithPriority(xs[1..], p);
      forall x | x in rest ensures Step(xs[0].kind) < Step(x.kind) {
        var k :| 0 <= k < |xs[1..]| && xs[1..][k] == x;
        assert xs[k + 1] == x;
      }
    }
  }

  /** Non-increasing by priority. */
  ghost predicate ByPriority(xs: seq<Insight>) {
    forall i, j :: 0 <= i < j < |xs| ==> Rank(xs[i].priority) >= Rank(xs[j].priority)
  }

  /** Non-increasing by priority, and in generation order within a priority. */
  ghost predicate StableRanked(xs: seq<Insight>) {
    forall i, j :: 0 <= i < j < |xs| ==>
      Rank(xs[i].priority) > Rank(xs[j].priority)
      || (xs[i].priority == xs[j].priority && Step(xs[i].kind) < Step(xs[j].kind))
  }

  /**
   * `insights.sort((a, b) => priority[b.priority] - priority[a.priority])`:
   * the sort is stable, so its result is the high, medium and low insights
   * one after the other, each group in its original order.
   */
  function SortByPriority(xs: seq<Insight>): (r: seq<Insight>)
    ensures multiset(r) == multiset(xs)
    ensures ByPriority(r)
    ensures forall p :: WithPriority(r, p) == WithPriority(xs, p)
    ensures StepsIncreasing(xs) ==> StableRanked(r)
  {
    var hi, mid, lo := WithPriority(xs, High), WithPriority(xs, Medium), WithPriority(xs, Low);
    WithPriorityPartition(xs);
    WithPriorityKeepsSteps(xs, High);
    WithPriorityKeepsSteps(xs, Medium);
    WithPriorityKeepsSteps(xs, Low);
    WithPriorityMembers(xs, High);
    WithPriorityMembers(xs, Medium);
    WithPriorityMembers(xs, Low);
    GroupsRanked(hi, mid, lo, StepsIncreasing(xs));
    GroupsRefilter(xs, hi, mid, lo);
    hi + mid + lo
  }

  lemma GroupsRefilter(xs: seq<Insight>, hi: seq<Insight>, mid: seq<Insight>, lo: seq<Insight>)
    requires hi == WithPriority(xs, High) && mid == WithPriority(xs, Medium) && lo == WithPriority(xs, Low)
    ensures forall p :: WithPriority(hi + mid + lo, p) == WithPriority(xs, p)
  {
    WithPriorityMembers(xs, High);
    WithPriorityMembers(xs, Medium);
    WithPriorityMembers(xs, Low);
    forall p ensures WithPriority(hi + mid + lo, p) == WithPriority(xs, p) {
      GroupRefilter(hi, mid, lo, p);
    }
  }

  lemma GroupRefilter(hi: seq<Insight>, mid: seq<Insight>, lo: seq<Insight>, p: Priority)
    requires forall x :: x in hi ==> x.priority == High
    requires forall x :: x in mid ==> x.priority == Medium
    requires forall x :: x in lo ==> x.priority == Low
    ensures WithPriority(hi + mid + lo, p) == match p case High => hi case Medium => mid case Low => lo
  {
    WithPriorityConcat(hi + mid, lo, p);
    WithPriorityConcat(hi, mid, p);
    WithPriorityUniform(hi, High, p);
    WithPriorityUniform(mid, Medium, p);
    WithPriorityUniform(lo, Low, p);
    match p
    case High => assert hi + [] + [] == hi;
    case Medium => assert [] + mid + [] == mid;
    case Low => assert [] + [] + lo == lo;
  }

  lemma GroupsRanked(hi: seq<Insight>, mid: seq<Insight>, lo: seq<Insight>, stepped: bool)
    requires forall x :: x in hi ==> x.priority == High
    requires forall x :: x in mid ==> x.priority == Medium
    requires forall x :: x in lo ==> x.priority == Low
    requires stepped ==> StepsIncreasing(hi) && StepsIncreasing(mid) && StepsIncreasing(lo)
    ensures ByPriority(hi + mid + lo)
    ensures stepped ==> StableRanked(hi + mid + lo)
  {
    var r := hi + mid + lo;
    forall i | 0 <= i < |r|
      ensures i < |hi| ==> r[i] == hi[i]
      ensures |hi| <= i < |hi| + |mid| ==> r[i] == mid[i - |hi|]
      ensures |hi| + |mid| <= i ==> r[i] == lo[i - |hi| - |mid|]
    {
    }
    forall i | 0 <= i < |r|
      ensures r[i].priority == if i < |hi| then High else if i < |hi| + |mid| then Medium else Low
    {
      if i < |hi| {
        assert hi[i] in hi;
      } else if i < |hi| + |mid| {
        assert mid[i - |hi|] in mid;
      } else {
        assert lo[i - |hi| - |mid|] in lo;
      }
    }
  }

  /** The rule table of `generateInsights` for a non-empty history. */
  ghost predicate Emitted(x: Insight, best: Option<string>, avgRecovery: int, streakDays: nat,
                          weekCount: nat, peak: Option<PeakHour>) {
    match x.kind
    case Placeholder => false
    case BestMethod(t) => x.priority == High && best == Some(t) && t != ""
    case Frequency(c) => c == weekCount && x.priority == FrequencyPriority(weekCount)
    case LowRecovery => x.priority == High && avgRecovery < 50
    case HighRecovery(v) => x.priority == Low && v == avgRecovery && avgRecovery >= 70
    case HabitStreak(d) => x.priority == Low && d == streakDays && streakDays >= 7
    case PeakActivity(p) => x.priority == Medium && peak == Some(p)
  }

  // The five heuristics, each contributing at most one insight.

  function BestPart(best: Option<string>): seq<Insight> {
    if best.Some? && best.value != "" then [Insight(BestMethod(best.value), High)] else []
  }

  function FrequencyPart(weekCount: nat): seq<Insight> {
    [Insight(Frequency(weekCount), FrequencyPriority(weekCount))]
  }

  function RecoveryPart(avgRecovery: int): seq<Insight> {
    if avgRecovery < 50 then [Insight(LowRecovery, High)]
    else if avgRecovery >= 70 then [Insight(HighRecovery(avgRecovery), Low)]
    else []
  }

  function StreakPart(streakDays: nat): seq<Insight> {
    if streakDays >= 7 then [Insight(HabitStreak(streakDays), Low)] else []
  }

  function PeakPart(peak: Option<PeakHour>): seq<Insight> {
    if peak.Some? then [Insight(PeakActivity(peak.value), Medium)] else []
  }

  /** Appending a heuristic's output keeps generation order. */
  lemma StepsAppend(xs: seq<Insight>, ys: seq<Insight>, n: nat)
    requires StepsIncreasing(xs) && forall x :: x in xs ==> Step(x.kind) < n
    requires |ys| <= 1 && forall y :: y in ys ==> Step(y.kind) == n
    ensures StepsIncreasing(xs + ys)
    ensures forall x :: x in xs + ys ==> Step(x.kind) < n + 1
  {
    if |ys| == 1 {
      assert ys[0] in ys;
      forall i | 0 <= i < |xs| ensures Step(xs[i].kind) < n {
        assert xs[i] in xs;
      }
    }
  }

  /** The insights in the order the heuristics push them. */
  function Generated(best: Option<string>, avgRecovery: int, streakDays: nat, weekCount: nat,
                     peak: Option<PeakHour>): seq<Insight> {
    BestPart(best) + FrequencyPart(weekCount) + RecoveryPart(avgRecovery) + StreakPart(streakDays) + PeakPart(peak)
  }

  lemma GeneratedMember(x: Insight, best: Option<string>, avgRecovery: int, streakDays: nat, weekCount: nat,
                        peak: Option<PeakHour>)
    ensures (x in Generated(best, avgRecovery, streakDays, weekCount, peak))
        <==> Emitted(x, best, avgRecovery, streakDays, weekCount, peak)
  {
    var g := Generated(best, avgRecovery, streakDays, weekCount, peak);
    assert x in g <==> x in BestPart(best) || x in FrequencyPart(weekCount) || x in RecoveryPart(avgRecovery)
                       || x in StreakPart(streakDays) || x in PeakPart(peak);
    match x.kind
    case Placeholder =>
    case BestMethod(_) =>
    case Frequency(_) =>
    case LowRecovery =>
    case HighRecovery(_) =>
    case HabitStreak(_) =>
    case PeakActivity(_) =>
  }

  lemma GeneratedInOrder(best: Option<string>, avgRecovery: int, streakDays: nat, weekCount: nat,
                         peak: Option<PeakHour>)
    ensures StepsIncreasing(Generated(best, avgRecovery, streakDays, weekCount, peak))
  {
    var g1 := BestPart(best);
    var g2 := g1 + FrequencyPart(weekCount);
    var g3 := g2 + RecoveryPart(avgRecovery);
    var g4 := g3 + StreakPart(streakDays);
    StepsAppend(g1, FrequencyPart(weekCount), 2);
    StepsAppend(g2, RecoveryPart(avgRecovery), 3);
    StepsAppend(g3, StreakPart(streakDays), 4);
    StepsAppend(g4, PeakPart(peak), 5);
  }

  /**
   * The heuristics of `generateInsights` for a non-empty history, each
   * appended when its condition holds, then sorted by priority.
   */
  method RankInsights(best: Option<string>, avgRecovery: int, streakDays: nat, weekCount: nat,
                      peak: Option<PeakHour>) returns (insights: seq<Insight>)
    ensures forall x :: x in insights <==> Emitted(x, best, avgRecovery, streakDays, weekCount, peak)
    ensures StableRanked(insights)
    ensures Insight(Frequency(weekCount), FrequencyPriority(weekCount)) in insights
    ensures forall i, j :: (0 <= i < |insights| && 0 <= j < |insights| &&
              insights[i].kind.Frequency? && insights[j].kind.Frequency?) ==> i == j
    ensures forall i, j :: (0 <= i < |insights| && 0 <= j < |insights| &&
              Step(insights[i].kind) == 3 && Step(insights[j].kind) == 3) ==> i == j
  {
    var pushed := PushHeuristics(best, avgRecovery, streakDays, weekCount, peak);
    insights := SortByPriority(pushed);
    RankedFacts(insights, best, avgRecovery, streakDays, weekCount, peak);
  }

  /** The five `if` blocks of `generateInsights`, each appending at most one insight, in order. */
  method PushHeuristics(best: Option<string>, avgRecovery: int, streakDays: nat, weekCount: nat,
                        peak: Option<PeakHour>) returns (pushed: seq<Insight>)
    ensures pushed == Generated(best, avgRecovery, streakDays, weekCount, peak)
    ensures forall x :: x in pushed <==> Emitted(x, best, avgRecovery, streakDays, weekCount, peak)
    ensures StepsIncreasing(pushed)
  {
    pushed := [];
    if best.Some? && best.value != "" {
      pushed := pushed + [Insight(BestMethod(best.value), High)];
    }
    ghost var parts := BestPart(best);
    assert pushed == parts;
    if weekCount < 7 {
      pushed := pushed + [Insight(Frequency(weekCount), Medium)];
    } else {
      pushed := pushed + [Insight(Frequency(weekCount), Low)];
    }
    assert pushed == parts + FrequencyPart(weekCount);
    parts := parts + FrequencyPart(weekCount);
    if avgRecovery < 50 {
      pushed := pushed + [Insight(LowRecovery, High)];
    } else if avgRecovery >= 70 {
      pushed := pushed + [Insight(HighRecovery(avgRecovery), Low)];
    }
    assert pushed == parts + RecoveryPart(avgRecovery);
    parts := parts + RecoveryPart(avgRecovery);
    if streakDays >= 7 {
      pushed := pushed + [Insight(HabitStreak(streakDays), Low)];
    }
    assert pushed == parts + StreakPart(streakDays);
    parts := parts + StreakPart(streakDays);
    if peak.Some? {
      pushed := pushed + [Insight(PeakActivity(peak.value), Medium)];
    }
    assert pushed == parts + PeakPart(peak);
    assert pushed == Generated(best, avgRecovery, streakDays, weekCount, peak);
    forall x ensures x in pushed <==> Emitted(x, best, avgRecovery, streakDays, weekCount, peak) {
      GeneratedMember(x, best, avgRecovery, streakDays, weekCount, peak);
    }
    GeneratedInOrder(best, avgRecovery, streakDays, weekCount, peak);
  }

  /** What sorting the generated insights by priority yields. */
  lemma RankedFacts(insights: seq<Insight>, best: Option<string>, avgRecovery: int, streakDays: nat,
                    weekCount: nat, peak: Option<PeakHour>)
    requires insights == SortByPriority(Generated(best, avgRecovery, streakDays, weekCount, peak))
    ensures forall x :: x in insights <==> Emitted(x, best, avgRecovery, streakDays, weekCount, peak)
    ensures StableRanked(insights)
    ensures Insight(Frequency(weekCount), FrequencyPriority(weekCount)) in insights
    ensures forall i, j :: (0 <= i < |insights| && 0 <= j < |insights| &&
              insights[i].kind.Frequency? && insights[j].kind.Frequency?) ==> i == j
    ensures forall i, j :: (0 <= i < |insights| && 0 <= j < |insights| &&
              Step(insights[i].kind) == 3 && Step(insights[j].kind) == 3) ==> i == j
  {
    var pushed := Generated(best, avgRecovery, streakDays, weekCount, peak);
    forall x ensures x in pushed <==> Emitted(x, best, avgRecovery, streakDays, weekCount, peak) {
      GeneratedMember(x, best, avgRecovery, streakDays, weekCount, peak);
    }
    GeneratedInOrder(best, avgRecovery, streakDays, weekCount, peak);
    SameElements(insights, pushed);
    UniqueHeuristics(insights, best, avgRecovery, streakDays, weekCount, peak);
    forall i, j | (0 <= i < |insights| && 0 <= j < |insights| &&
                   insights[i].kind.Frequency? && insights[j].kind.Frequency?)
      ensures i == j
    {
      assert Step(insights[i].kind) == Step(insights[j].kind);
    }
  }

  lemma SameElements(a: seq<Insight>, b: seq<Insight>)
    requires multiset(a) == multiset(b)
    ensures forall x :: x in a <==> x in b
  {
    forall x ensures x in a <==> x in b {
      assert x in a <==> x in multiset(a);
    }
  }

  /** Two emitted insights of the same heuristic have the same priority. */
  lemma EmittedPriority(x: Insight, y: Insight, best: Option<string>, avgRecovery: int, streakDays: nat,
                        weekCount: nat, peak: Option<PeakHour>)
    requires Emitted(x, best, avgRecovery, streakDays, weekCount, peak)
    requires Emitted(y, best, avgRecovery, streakDays, weekCount, peak)
    requires Step(x.kind) == Step(y.kind)
    ensures x.priority == y.priority
  {
  }

  lemma UniqueHeuristics(insights: seq<Insight>, best: Option<string>, avgRecovery: int, streakDays: nat,
                         weekCount: nat, peak: Option<PeakHour>)
    requires forall x :: x in insights <==> Emitted(x, best, avgRecovery, streakDays, weekCount, peak)
    requires StableRanked(insights)
    ensures forall i, j :: (0 <= i < |insights| && 0 <= j < |insights| &&
              Step(insights[i].kind) == Step(insights[j].kind)) ==> i == j
  {
    forall i, j | 0 <= i < |insights| && 0 <= j < |insights| && Step(insights[i].kind) == Step(insights[j].kind)
      ensures i == j
    {
      EmittedPriority(insights[i], insights[j], best, avgRecovery, streakDays, weekCount, peak);
      SameStepSamePosition(insights);
    }
  }

  /** In a stably ranked list an insight's priority and heuristic fix its position. */
  lemma SameStepSamePosition(xs: seq<Insight>)
    requires StableRanked(xs)
    ensures forall i, j :: (0 <= i < |xs| && 0 <= j < |xs| && xs[i].priority == xs[j].priority &&
              Step(xs[i].kind) == Step(xs[j].kind)) ==> i == j
  {
  }

  /** The number of records younger than seven days. */
  function WeekCount(logs: seq<Log>, now: int): (r: nat)
    ensures r <= |logs|
    ensures r == 0 <==> forall i :: 0 <= i < |logs| ==> now - logs[i].timestamp >= WeekMs
    ensures (forall i :: 0 <= i < |logs| ==> now - logs[i].timestamp < WeekMs) ==> r == |logs|
  {
    YoungerThanEmpty(logs, now, WeekMs);
    YoungerThanAllYoungIf(logs, now, WeekMs);
    |YoungerThan(logs, now, WeekMs)|
  }

  lemma YoungerThanAllYoungIf(logs: seq<Log>, now: int, span: int)
    ensures (forall i :: 0 <= i < |logs| ==> now - logs[i].timestamp < span) ==> YoungerThan(logs, now, span) == logs
  {
    if forall i :: 0 <= i < |logs| ==> now - logs[i].timestamp < span {
      YoungerThanAllYoung(logs, now, span);
    }
  }

  /**
   * `generateInsights`: one placeholder without records; otherwise the
   * insights the rule table emits for the statistics and the peak hour,
   * sorted by priority and, within a priority, in generation order.
   */
  method GenerateInsights(logs: seq<Log>, now: int, today: int, zoneOffset: int)
    returns (insights: seq<Insight>, ghost stats: Stats, ghost peak: Option<PeakHour>)
    ensures logs == [] ==> insights == [Insight(Placeholder, Low)]
    ensures logs != [] ==> StatsOf(logs, today, stats) && PeakOf(logs, zoneOffset, peak)
    ensures logs != [] ==> forall x :: x in insights <==>
              Emitted(x, stats.bestReboot, stats.avgRecovery, stats.streakDays, WeekCount(logs, now), peak)
    ensures StableRanked(insights)
    ensures logs != [] ==> Insight(Frequency(WeekCount(logs, now)), FrequencyPriority(WeekCount(logs, now))) in insights
    ensures logs != [] ==> forall i, j :: (0 <= i < |insights| && 0 <= j < |insights| &&
              insights[i].kind.Frequency? && insights[j].kind.Frequency?) ==> i == j
    ensures logs != [] ==> (Insight(LowRecovery, High) in insights <==> Tenths(MeanRecovery(logs)) < 50)
  {
    if |logs| == 0 {
      insights, stats, peak := [Insight(Placeholder, Low)], EmptyStats, None;
      return;
    }
    var st := CalculateStats(logs, today);
    var recentLogs := YoungerThan(logs, now, WeekMs);
    var pk := AnalyzeTimePatterns(logs, zoneOffset);
    insights := RankInsights(st.bestReboot, st.avgRecovery, st.streakDays, |recentLogs|, pk);
    stats, peak := st, pk;
    assert Emitted(Insight(LowRecovery, High), st.bestReboot, st.avgRecovery, st.streakDays, |recentLogs|, pk)
           <==> st.avgRecovery < 50;
  }

  // ---------------------------------------------------------------------
  // Health snapshot
  // ---------------------------------------------------------------------

  datatype Health = Health(score: int, focus: int, fatigue: int, recovery: int)

  const NeutralHealth: Health := Health(50, 50, 50, 50)
  const StaleHealth: Health := Health(50, 50, 70, 30)

  /** The recovery estimate before rounding: the last score minus 5 per hour, at most 30, never below 0. */
  function RecoveryEstimate(postRecovery: int, hours: real): real {
    Max(postRecovery as real * 10.0 - Min(hours * 5.0, 30.0), 0.0)
  }

  /**
   * `getCurrentHealth`: neutral without records, the stale tuple when no
   * record is younger than 24 hours, otherwise derived from the newest
   * record's recovery and the hours since it.
   */
  function GetCurrentHealth(logs: seq<Log>, now: int): (h: Health)
    ensures logs == [] ==> h == NeutralHealth
    ensures logs != [] && YoungerThan(logs, now, DayMs) == [] ==> h == StaleHealth
    ensures logs != [] && YoungerThan(logs, now, DayMs) != [] && now >= logs[0].timestamp
            && 1 <= logs[0].postRecovery <= 10 ==>
              && 0 <= h.focus <= h.recovery <= 100
              && 20 <= h.fatigue <= 100
              && 0 <= h.score <= 100
  {
    if logs == [] then NeutralHealth
    else if YoungerThan(logs, now, DayMs) == [] then StaleHealth
    else
      var lastLog := logs[0];
      var hours := (now - lastLog.timestamp) as real / HourMs as real;
      var recovery := RecoveryEstimate(lastLog.postRecovery, hours);
      var fatigue := Min(100.0 - recovery + 20.0, 100.0);
      var focus := Max(recovery - 10.0, 0.0);
      var score := Round(recovery * 0.5 + focus * 0.3 + (100.0 - fatigue) * 0.2);
      assert now >= lastLog.timestamp && 1 <= lastLog.postRecovery <= 10 ==>
        0.0 <= focus <= recovery <= 100.0 && 20.0 <= fatigue <= 100.0
        && 0.0 <= recovery * 0.5 + focus * 0.3 + (100.0 - fatigue) * 0.2 <= 100.0;
      Health(score, Round(focus), Round(fatigue), Round(recovery))
  }

  /** While the newest record is fresh, the recovery score never rises as time passes. */
  lemma HealthRecoveryDecays(logs: seq<Log>, now1: int, now2: int)
    requires logs != [] && logs[0].timestamp <= now1 <= now2
    requires YoungerThan(logs, now2, DayMs) != []
    ensures YoungerThan(logs, now1, DayMs) != []
    ensures GetCurrentHealth(logs, now2).recovery <= GetCurrentHealth(logs, now1).recovery
  {
    var x := YoungerThan(logs, now2, DayMs)[0];
    assert x in YoungerThan(logs, now2, DayMs);
    assert x in YoungerThan(logs, now1, DayMs);
    var h1 := (now1 - logs[0].timestamp) as real / HourMs as real;
    var h2 := (now2 - logs[0].timestamp) as real / HourMs as real;
    assert h1 <= h2;
    RoundMonotone(RecoveryEstimate(logs[0].postRecovery, h2), RecoveryEstimate(logs[0].postRecovery, h1));
  }

  /** Six hours or more after the newest record, the time penalty is the full 30 points. */
  lemma HealthPenaltySaturates(logs: seq<Log>, now: int)
    requires logs != [] && YoungerThan(logs, now, DayMs) != []
    requires now - logs[0].timestamp >= 6 * HourMs
    ensures GetCurrentHealth(logs, now).recovery == if logs[0].postRecovery >= 3 then logs[0].postRecovery * 10 - 30 else 0
  {
  }

  /** One record with recovery 8, two hours old: recovery 70, fatigue 50, focus 60, score 63. */
  lemma HealthExample(log: Log, now: int)
    requires log.postRecovery == 8 && now - log.timestamp == 2 * HourMs
    ensures GetCurrentHealth([log], now) == Health(63, 60, 50, 70)
  {
    assert YoungerThan([log], now, DayMs) == [log];
  }
}

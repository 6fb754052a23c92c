/**
 * The decision agent (`AIAgent`): features computed from the record list and
 * the current time, and four sequential rules that decide whether to prompt
 * the user to take a break, and with what confidence.
 */
module Agent {
  import opened LogModel
  import opened TypeStats

  const FatigueThreshold: int := 7
  const OptimalRebootInterval: real := 180.0
  const LowRecoveryThreshold: real := 4.0

  // ---------------------------------------------------------------------
  // Features
  // ---------------------------------------------------------------------

  /** Minutes since the newest record; `Never` stands for the source's `Infinity`. */
  datatype Elapsed = Never | After(minutes: real)

  function ElapsedSince(logs: seq<Log>, now: int): (e: Elapsed)
    ensures e.Never? <==> logs == []
    ensures e.After? ==> e.minutes * MinuteMs as real == (now - logs[0].timestamp) as real
  {
    if logs == [] then Never else After((now - logs[0].timestamp) as real / MinuteMs as real)
  }

  /** `timeSinceLastReboot > limit`; `Infinity` exceeds every limit. */
  predicate Exceeds(e: Elapsed, limit: real) {
    e.Never? || e.minutes > limit
  }

  /** `Math.floor(t / 60)` hours and `Math.floor(t % 60)` minutes, as the long-gap message shows them. */
  function HoursAndMinutes(minutes: real): (hm: (int, int))
    requires minutes >= 0.0
    ensures hm.0 >= 0 && 0 <= hm.1 < 60
    ensures (hm.0 * 60 + hm.1) as real <= minutes < (hm.0 * 60 + hm.1 + 1) as real
  {
    var h := (minutes / 60.0).Floor;
    (h, (minutes - (h * 60) as real).Floor)
  }

  lemma HoursAndMinutesExample()
    ensures HoursAndMinutes(200.0) == (3, 20)
  {
  }

  /** The mean recovery of the last seven days' records, 5 when there are none. */
  function WeekMean(weekLogs: seq<Log>): (m: real)
    ensures weekLogs == [] ==> m == 5.0
    ensures ValidScores(weekLogs) ==> 1.0 <= m <= 10.0
  {
    if weekLogs == [] then 5.0
    else
      assert ValidScores(weekLogs) ==> 1.0 <= MeanRecovery(weekLogs) <= 10.0 by {
        if ValidScores(weekLogs) {
          MeanRecoveryBounds(weekLogs);
        }
      }
      MeanRecovery(weekLogs)
  }

  datatype FatiguePattern = InsufficientData | Declining | Chronic | Normal

  /** The number of records with `preFatigue` at or above the threshold. */
  function HighFatigueCount(logs: seq<Log>): (n: nat)
    ensures n <= |logs|
  {
    if logs == [] then 0
    else HighFatigueCount(logs[..|logs| - 1]) + (if logs[|logs| - 1].preFatigue >= FatigueThreshold then 1 else 0)
  }

  /** The three newest recoveries rise into the past: newest lowest. */
  predicate FallingRecovery(recent: seq<Log>) {
    |recent| >= 3 && recent[0].postRecovery < recent[1].postRecovery < recent[2].postRecovery
  }

  /**
   * `detectFatiguePattern` over the last 24 hours' records: too few below
   * three, declining before chronic, chronic when at least 70% are highly
   * fatigued, normal otherwise.
   */
  function DetectFatiguePattern(recent: seq<Log>): (p: FatiguePattern)
    ensures p == InsufficientData <==> |recent| < 3
    ensures p == Declining <==> FallingRecovery(recent)
    ensures p == Chronic <==> |recent| >= 3 && !FallingRecovery(recent) && 10 * HighFatigueCount(recent) >= 7 * |recent|
  {
    if |recent| < 3 then InsufficientData
    else if FallingRecovery(recent) then Declining
    else if 10 * HighFatigueCount(recent) >= 7 * |recent| then Chronic
    else Normal
  }

  /** A chronic pattern needs at least three highly fatigued records. */
  lemma ChronicNeedsThree(recent: seq<Log>)
    requires DetectFatiguePattern(recent) == Chronic
    ensures HighFatigueCount(recent) >= 3
  {
  }

  lemma {:induction false} AllHighCount(recent: seq<Log>)
    requires forall i :: 0 <= i < |recent| ==> recent[i].preFatigue >= FatigueThreshold
    ensures HighFatigueCount(recent) == |recent|
  {
    if recent != [] {
      AllHighCount(recent[..|recent| - 1]);
    }
  }

  /** Three or more records all highly fatigued, and recovery not falling: chronic. */
  lemma AllHighIsChronic(recent: seq<Log>)
    requires |recent| >= 3 && !FallingRecovery(recent)
    requires forall i :: 0 <= i < |recent| ==> recent[i].preFatigue >= FatigueThreshold
    ensures DetectFatiguePattern(recent) == Chronic
  {
    AllHighCount(recent);
  }

  /** The best type and its one-decimal mean recovery (in tenths). */
  datatype BestRebootType = BestRebootType(rebootType: string, avgRecovery: int)

  /** What `findBestRebootType` promises: nothing below five records, otherwise a best type and its mean. */
  ghost predicate IsBestRebootType(logs: seq<Log>, b: Option<BestRebootType>) {
    && (b.None? <==> |logs| < 5)
    && (b.Some? ==> IsBestType(logs, b.value.rebootType)
                    && b.value.avgRecovery == Tenths(TypeMean(logs, b.value.rebootType)))
  }

  /** `findBestRebootType`: the per-type table's best entry, once there are five records. */
  method FindBestRebootType(logs: seq<Log>) returns (best: Option<BestRebootType>)
    ensures IsBestRebootType(logs, best)
  {
    if |logs| < 5 {
      return None;
    }
    var t := BestType(logs);
    best := Some(BestRebootType(t.value, Tenths(TypeMean(logs, t.value))));
  }

  /** The growth term: half a point per hour, at most 5; `Infinity` gives 5. */
  function Accumulation(e: Elapsed): (r: real)
    ensures r <= 5.0
    ensures e.Never? ==> r == 5.0
  {
    match e
    case Never => 5.0
    case After(t) => Min(t / 60.0 * 0.5, 5.0)
  }

  /**
   * `estimateCurrentFatigue`: 5 without records; otherwise the newest
   * record's `pre - (post - pre)` plus the growth term, clamped to [1, 10].
   */
  function EstimateCurrentFatigue(logs: seq<Log>, e: Elapsed): (f: real)
    ensures logs == [] ==> f == 5.0
    ensures 1.0 <= f <= 10.0
  {
    if logs == [] then 5.0
    else
      var lastLog := logs[0];
      var baselineFatigue := (lastLog.preFatigue - (lastLog.postRecovery - lastLog.preFatigue)) as real;
      Min(Max(baselineFatigue + Accumulation(e), 1.0), 10.0)
  }

  /** The estimate never falls as time passes. */
  lemma FatigueGrowsWithTime(logs: seq<Log>, t1: real, t2: real)
    requires t1 <= t2
    ensures EstimateCurrentFatigue(logs, After(t1)) <= EstimateCurrentFatigue(logs, After(t2))
    ensures EstimateCurrentFatigue(logs, After(t2)) <= EstimateCurrentFatigue(logs, Never)
  {
  }

  /** Ten hours or more after the newest record, the growth term is its full 5 points. */
  lemma FatigueSaturates(logs: seq<Log>, t: real)
    requires logs != [] && t >= 600.0
    ensures EstimateCurrentFatigue(logs, After(t)) == EstimateCurrentFatigue(logs, Never)
  {
  }

  // ---------------------------------------------------------------------
  // Analysis
  // ---------------------------------------------------------------------

  datatype Analysis = Analysis(
    timeSinceLastReboot: Elapsed,
    avgRecovery: real,
    fatiguePattern: FatiguePattern,
    bestRebootType: Option<BestRebootType>,
    estimatedFatigue: real,
    recentRebootCount: nat,
    weeklyRebootCount: nat)

  /** What `performDeepAnalysis` computes from the records and the current time. */
  ghost predicate AnalysisOf(logs: seq<Log>, now: int, a: Analysis) {
    var recent := YoungerThan(logs, now, DayMs);
    var week := YoungerThan(logs, now, WeekMs);
    && a.timeSinceLastReboot == ElapsedSince(logs, now)
    && a.avgRecovery == WeekMean(week)
    && a.fatiguePattern == DetectFatiguePattern(recent)
    && IsBestRebootType(logs, a.bestRebootType)
    && a.estimatedFatigue == EstimateCurrentFatigue(logs, ElapsedSince(logs, now))
    && a.recentRebootCount == |recent|
    && a.weeklyRebootCount == |week|
  }

  /** `performDeepAnalysis`: the feature vector the rules read. */
  method PerformDeepAnalysis(logs: seq<Log>, now: int) returns (a: Analysis)
    ensures AnalysisOf(logs, now, a)
  {
    var recentLogs := YoungerThan(logs, now, DayMs);
    var timeSinceLastReboot := ElapsedSince(logs, now);
    var weekLogs := YoungerThan(logs, now, WeekMs);
    var avgRecovery := WeekMean(weekLogs);
    var fatiguePattern := DetectFatiguePattern(recentLogs);
    var bestRebootType := FindBestRebootType(logs);
    var estimatedFatigue := EstimateCurrentFatigue(logs, timeSinceLastReboot);
    a := Analysis(timeSinceLastReboot, avgRecovery, fatiguePattern, bestRebootType, estimatedFatigue,
                  |recentLogs|, |weekLogs|);
  }

  /** With valid scores every numeric feature lies in its documented range. */
  lemma AnalysisBounds(logs: seq<Log>, now: int, a: Analysis)
    requires ValidScores(logs) && AnalysisOf(logs, now, a)
    ensures 1.0 <= a.avgRecovery <= 10.0
    ensures 1.0 <= a.estimatedFatigue <= 10.0
    ensures a.recentRebootCount <= a.weeklyRebootCount <= |logs|
    ensures a.bestRebootType.Some? ==> 10 <= a.bestRebootType.value.avgRecovery <= 100
  {
    var week := YoungerThan(logs, now, WeekMs);
    assert ValidScores(week) by {
      forall i | 0 <= i < |week| ensures 1 <= week[i].preFatigue <= 10 && 1 <= week[i].postRecovery <= 10 {
        assert week[i] in logs;
      }
    }
    YoungerIsShorter(logs, now, DayMs, WeekMs);
    if a.bestRebootType.Some? {
      TypeMeanBounds(logs, a.bestRebootType.value.rebootType);
      var m := TypeMean(logs, a.bestRebootType.value.rebootType);
      assert 10.0 <= m * 10.0 <= 100.0;
    }
  }

  /** A shorter window keeps fewer records. */
  lemma {:induction false} YoungerIsShorter(logs: seq<Log>, now: int, short: int, long: int)
    requires short <= long
    ensures |YoungerThan(logs, now, short)| <= |YoungerThan(logs, now, long)|
  {
    if logs != [] {
      YoungerIsShorter(logs[1..], now, short, long);
    }
  }

  // ---------------------------------------------------------------------
  // Decision
  // ---------------------------------------------------------------------

  datatype Action = NoAction | RebootNow | TakeBreak | ChangeMethod | RebootSoon

  /** What the alert says; the display text itself is not modelled. */
  datatype Message =
    | NoMessage
    | LongGap(elapsed: Elapsed, recommendation: Option<BestRebootType>)
    | ChronicFatigue
    | DecliningRecovery
    | HighFatigue(estimateTenths: int)

  datatype Decision = Decision(
    shouldAlert: bool,
    confidence: int,
    message: Message,
    action: Action,
    analysis: Option<Analysis>)

  /** The result for an empty history. */
  const QuietDecision: Decision := Decision(false, 0, NoMessage, NoAction, None)

  /** Rule 1's confidence before rounding: 70 plus a tenth of the excess minutes, at most 95. */
  function LongGapConfidence(e: Elapsed): (c: real)
    requires Exceeds(e, OptimalRebootInterval)
    ensures 70.0 < c <= 95.0
  {
    match e
    case Never => 95.0
    case After(t) => Min(70.0 + (t - OptimalRebootInterval) / 10.0, 95.0)
  }

  /** Rule 1's confidence grows with the gap and reaches 95 at 430 minutes. */
  lemma LongGapConfidenceGrows(t1: real, t2: real)
    requires OptimalRebootInterval < t1 <= t2
    ensures Round(LongGapConfidence(After(t1))) <= Round(LongGapConfidence(After(t2)))
    ensures t2 >= 430.0 ==> Round(LongGapConfidence(After(t2))) == 95
  {
    RoundMonotone(LongGapConfidence(After(t1)), LongGapConfidence(After(t2)));
  }

  predicate DecliningAndLow(a: Analysis) {
    a.fatiguePattern == Declining && a.avgRecovery < LowRecoveryThreshold
  }

  /**
   * The outcome of the four rules stated as a first match, latest rule
   * first: R3 (declining and low), R2 (chronic), R1 (long gap), then R4
   * (high estimated fatigue), which only applies when no other rule did.
   */
  function ExpectedDecision(a: Analysis): Decision {
    if DecliningAndLow(a) then
      Decision(true, 75, DecliningRecovery, ChangeMethod, Some(a))
    else if a.fatiguePattern == Chronic then
      Decision(true, 85, ChronicFatigue, TakeBreak, Some(a))
    else if Exceeds(a.timeSinceLastReboot, OptimalRebootInterval) then
      Decision(true, Round(LongGapConfidence(a.timeSinceLastReboot)),
               LongGap(a.timeSinceLastReboot, a.bestRebootType), RebootNow, Some(a))
    else if a.estimatedFatigue >= FatigueThreshold as real then
      Decision(true, 65, HighFatigue(Tenths(a.estimatedFatigue)), RebootSoon, Some(a))
    else
      Decision(false, 0, NoMessage, NoAction, Some(a))
  }

  /**
   * `makeDecision`: four `if`s over the locals, each overwriting what an
   * earlier one set; the result matches the first-match reading and keeps
   * the alert, action and confidence consistent.
   */
  method MakeDecision(a: Analysis) returns (d: Decision)
    ensures d == ExpectedDecision(a)
    ensures d.shouldAlert <==> d.action != NoAction
    ensures !d.shouldAlert ==> d.confidence == 0 && d.message == NoMessage
    ensures d.shouldAlert ==> 65 <= d.confidence <= 95
    ensures d.analysis == Some(a)
  {
    var shouldAlert := false;
    var message := NoMessage;
    var action := NoAction;
    var confidence: real := 0.0;

    if Exceeds(a.timeSinceLastReboot, OptimalRebootInterval) {
      shouldAlert := true;
      confidence := LongGapConfidence(a.timeSinceLastReboot);
      action := RebootNow;
      message := LongGap(a.timeSinceLastReboot, a.bestRebootType);
    }
    if a.fatiguePattern == Chronic {
      shouldAlert := true;
      confidence := 85.0;
      action := TakeBreak;
      message := ChronicFatigue;
    }
    if a.fatiguePattern == Declining && a.avgRecovery < LowRecoveryThreshold {
      shouldAlert := true;
      confidence := 75.0;
      action := ChangeMethod;
      message := DecliningRecovery;
    }
    if a.estimatedFatigue >= FatigueThreshold as real && !shouldAlert {
      shouldAlert := true;
      confidence := 65.0;
      action := RebootSoon;
      message := HighFatigue(Tenths(a.estimatedFatigue));
    }
    d := Decision(shouldAlert, Round(confidence), message, action, Some(a));
  }

  /** Rule 4 fires exactly when no other rule does and the estimate reaches the threshold. */
  lemma RebootSoonOnlyAlone(a: Analysis)
    ensures ExpectedDecision(a).action == RebootSoon <==>
              && !DecliningAndLow(a)
              && a.fatiguePattern != Chronic
              && !Exceeds(a.timeSinceLastReboot, OptimalRebootInterval)
              && a.estimatedFatigue >= FatigueThreshold as real
  {
  }

  /** A chronic pattern masks a long gap: the recommendation of rule 1 is lost. */
  lemma ChronicMasksLongGap(a: Analysis)
    requires a.fatiguePattern == Chronic
    ensures ExpectedDecision(a).action == TakeBreak && ExpectedDecision(a).confidence == 85
  {
  }

  /**
   * `analyzeAndDecide`: the quiet decision without records; otherwise the
   * decision the rules make on the analysis of the records.
   */
  method AnalyzeAndDecide(logs: seq<Log>, now: int) returns (d: Decision)
    ensures logs == [] ==> d == QuietDecision
    ensures logs != [] ==> d.analysis.Some? && AnalysisOf(logs, now, d.analysis.value)
    ensures logs != [] ==> d == ExpectedDecision(d.analysis.value)
    ensures d.shouldAlert <==> d.action != NoAction
    ensures !d.shouldAlert ==> d.confidence == 0 && d.message == NoMessage
    ensures d.shouldAlert ==> 65 <= d.confidence <= 95
  {
    if |logs| == 0 {
      return QuietDecision;
    }
    var analysis := PerformDeepAnalysis(logs, now);
    d := MakeDecision(analysis);
  }

  /**
   * The newest record 200 minutes old, no chronic or declining pattern and
   * fewer than five records: reboot now with confidence 72, no type
   * recommended, shown as 3 hours 20 minutes.
   */
  lemma LongGapExample(logs: seq<Log>, now: int, a: Analysis)
    requires 0 < |logs| < 5 && now - logs[0].timestamp == 200 * MinuteMs
    requires AnalysisOf(logs, now, a)
    requires a.fatiguePattern != Chronic && a.fatiguePattern != Declining
    ensures ExpectedDecision(a) == Decision(true, 72, LongGap(After(200.0), None), RebootNow, Some(a))
    ensures HoursAndMinutes(200.0) == (3, 20)
  {
  }

  /**
   * Recoveries 3, 5, 7 newest first in the last day, a weekly mean of 3 and
   * the newest record at most 180 minutes old: change method with confidence 75.
   */
  lemma DecliningExample(a: Analysis)
    requires a.fatiguePattern == Declining && a.avgRecovery == 3.0
    requires !Exceeds(a.timeSinceLastReboot, OptimalRebootInterval)
    ensures ExpectedDecision(a) == Decision(true, 75, DecliningRecovery, ChangeMethod, Some(a))
  {
  }

  lemma DecliningPatternExample(recent: seq<Log>)
    requires |recent| >= 3
    requires recent[0].postRecovery == 3 && recent[1].postRecovery == 5 && recent[2].postRecovery == 7
    ensures DetectFatiguePattern(recent) == Declining
  {
  }

  // ---------------------------------------------------------------------
  // Display helpers
  // ---------------------------------------------------------------------

  const TypeEmojis: map<string, string> := map[
    "spa" := "\U{2668}\U{FE0F}",
    "sleep" := "\U{1F634}",
    "cycling" := "\U{1F6B4}",
    "meditation" := "\U{1F9D8}"]

  const FallbackEmoji: string := "\U{1F504}"

  const TypeNames: map<string, string> := map[
    "spa" := "\U{30B9}\U{30D1}\U{30FB}\U{30B5}\U{30A6}\U{30CA}",
    "sleep" := "\U{4EEE}\U{7720}",
    "cycling" := "\U{30B5}\U{30A4}\U{30AF}\U{30EA}\U{30F3}\U{30B0}",
    "meditation" := "\U{7791}\U{60F3}"]

  /** `getRebootTypeEmoji`: the type's emoji, or the generic cycle arrow for an unknown type. */
  function RebootTypeEmoji(t: string): (e: string)
    ensures e != ""
    ensures t !in TypeEmojis ==> e == FallbackEmoji
  {
    if t in TypeEmojis then TypeEmojis[t] else FallbackEmoji
  }

  /** `getRebootTypeName`: the type's display name, or the raw type for an unknown one. */
  function RebootTypeName(t: string): (n: string)
    ensures t !in TypeNames ==> n == t
    ensures n == "" <==> t == ""
  {
    if t in TypeNames then TypeNames[t] else t
  }
}

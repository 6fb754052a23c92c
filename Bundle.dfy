/**
 * The older copy of the three services inlined in the standalone bundle
 * (`app-bundle.js`). Where it runs the same code as the module version the
 * shared members are used; what differs is modelled here: a store without
 * the cache, statistics without durations, insights without the peak hour,
 * and an agent with only the long-gap and high-fatigue rules.
 */
module Bundle {
  import opened LogModel
  import opened TypeStats
  import Store
  import Analytics
  import Agent

  // ---------------------------------------------------------------------
  // Log store
  // ---------------------------------------------------------------------

  /** The bundle's upgrade creates only the record store. */
  function UpgradeLogsOnly(db: Store.Schema): (r: Store.Schema)
    ensures r.Keys == db.Keys + {Store.LogsStore}
    ensures forall n :: n in db ==> r[n] == db[n]
    ensures Store.LogsStore !in db ==> r[Store.LogsStore] == Store.LogsDecl
  {
    if Store.LogsStore in db then db else db[Store.LogsStore := Store.LogsDecl]
  }

  lemma UpgradeLogsOnlyIdempotent(db: Store.Schema)
    ensures UpgradeLogsOnly(UpgradeLogsOnly(db)) == UpgradeLogsOnly(db)
  {
  }

  /**
   * The bundle's `DataService`: the record store only. As in the module
   * version, `version` is the requested schema version and the remaining
   * fields are the database the browser already holds.
   */
  class BundledDataService {
    const version: nat := Store.DbVersion
    var ready: bool
    var storedVersion: nat
    var schema: Store.Schema
    var logs: map<int, Log>

    ghost predicate Valid()
      reads this
    {
      && Store.KeyedById(logs)
      && (storedVersion == Store.DbVersion ==> Store.LogsStore in schema)
      && (ready ==> storedVersion == version)
    }

    /** A service attached to the existing database, not yet open. */
    constructor (storedVersion: nat, schema: Store.Schema, logs: map<int, Log>)
      requires Store.KeyedById(logs)
      requires storedVersion == Store.DbVersion ==> Store.LogsStore in schema
      ensures Valid() && !ready && version == Store.DbVersion
      ensures this.storedVersion == storedVersion && this.schema == schema && this.logs == logs
    {
      ready := false;
      this.storedVersion := storedVersion;
      this.schema := schema;
      this.logs := logs;
    }

    /** `init`: opens the database, refusing a newer one and upgrading an older one to version 1 first. */
    method Init(engineOpens: bool) returns (res: Result<()>)
      requires Valid()
      modifies this`ready, this`storedVersion, this`schema
      ensures Valid()
      ensures !engineOpens ==> res == Err(StorageUnavailable) && ready == old(ready)
                               && storedVersion == old(storedVersion) && schema == old(schema)
      ensures engineOpens && old(storedVersion) > version ==>
                res == Err(VersionError) && ready == old(ready)
                && storedVersion == old(storedVersion) && schema == old(schema)
      ensures engineOpens && old(storedVersion) <= version ==> res == Ok(()) && ready && storedVersion == version
      ensures engineOpens && old(storedVersion) < version ==> schema == UpgradeLogsOnly(old(schema))
      ensures engineOpens && old(storedVersion) == version ==> schema == old(schema)
    {
      if !engineOpens {
        return Err(StorageUnavailable);
      }
      if storedVersion > version {
        return Err(VersionError);
      }
      if storedVersion < version {
        schema := UpgradeLogsOnly(schema);
        storedVersion := version;
      }
      ready := true;
      res := Ok(());
    }

    /** `saveLog`: `add` of the built record; an existing key makes the request fail. */
    method SaveLog(draft: LogDraft, now: int) returns (res: Result<Log>)
      requires Valid()
      modifies this`logs
      ensures Valid()
      ensures !ready ==> res == Err(NotOpen) && logs == old(logs)
      ensures ready && now in old(logs) ==> res == Err(ConstraintError) && logs == old(logs)
      ensures ready && now !in old(logs) ==>
                res == Ok(Store.MakeLog(draft, now)) && logs == old(logs)[now := Store.MakeLog(draft, now)]
    {
      if !ready {
        return Err(NotOpen);
      }
      var log := Store.MakeLog(draft, now);
      if log.id in logs {
        return Err(ConstraintError);
      }
      logs := logs[log.id := log];
      res := Ok(log);
    }

    /** `getAllLogs`: every record, newest first. */
    method GetAllLogs() returns (res: Result<seq<Log>>)
      requires Valid()
      ensures !ready <==> res == Err(NotOpen)
      ensures res.Ok? ==> Store.Lists(res.value, logs) && Store.NewestFirst(res.value)
    {
      if !ready {
        return Err(NotOpen);
      }
      var all := Store.ListNewestFirst(logs);
      res := Ok(all);
    }

    /** `deleteLog`: removes the key; an absent key is a successful no-op. */
    method DeleteLog(id: int) returns (res: Result<()>)
      requires Valid()
      modifies this`logs
      ensures Valid()
      ensures !ready ==> res == Err(NotOpen) && logs == old(logs)
      ensures ready ==> res == Ok(()) && logs == old(logs) - {id}
      ensures id !in old(logs) ==> logs == old(logs)
    {
      if !ready {
        return Err(NotOpen);
      }
      logs := logs - {id};
      res := Ok(());
    }
  }

  // ---------------------------------------------------------------------
  // Analytics
  // ---------------------------------------------------------------------

  /** The bundle's statistics: no duration totals. */
  datatype BundledStats = BundledStats(
    totalReboots: nat,
    avgRecovery: int,
    bestReboot: Option<string>,
    streakDays: nat)

  /** `calculateStats` of the bundle. */
  method CalculateStats(logs: seq<Log>, today: int) returns (stats: BundledStats)
    ensures logs == [] ==> stats == BundledStats(0, 0, None, 0)
    ensures logs != [] ==> stats.totalReboots == |logs| && stats.avgRecovery == Tenths(MeanRecovery(logs))
    ensures logs != [] ==> stats.bestReboot.Some? && IsBestType(logs, stats.bestReboot.value)
    ensures Analytics.IsStreak(Analytics.DatesOf(logs), today, stats.streakDays)
  {
    if |logs| == 0 {
      return BundledStats(0, 0, None, 0);
    }
    var totalReboots := |logs|;
    var avgRecovery := SumRecovery(logs) as real / totalReboots as real;
    var bestReboot := BestType(logs);
    var streakDays := Analytics.CalculateStreak(logs, today);
    stats := BundledStats(totalReboots, Tenths(avgRecovery), bestReboot, streakDays);
  }

  /**
   * `generateInsights` of the bundle: the module version's first four
   * heuristics, no peak-hour insight, sorted by priority.
   */
  method GenerateInsights(logs: seq<Log>, now: int, today: int)
    returns (insights: seq<Analytics.Insight>, ghost stats: BundledStats)
    ensures logs == [] ==> insights == [Analytics.Insight(Analytics.Placeholder, Analytics.Low)]
    ensures logs != [] ==> stats.avgRecovery == Tenths(MeanRecovery(logs))
    ensures logs != [] ==> stats.bestReboot.Some? && IsBestType(logs, stats.bestReboot.value)
    ensures logs != [] ==> Analytics.IsStreak(Analytics.DatesOf(logs), today, stats.streakDays)
    ensures logs != [] ==> forall x :: x in insights <==>
              Analytics.Emitted(x, stats.bestReboot, stats.avgRecovery, stats.streakDays,
                                Analytics.WeekCount(logs, now), None)
    ensures Analytics.StableRanked(insights)
    ensures forall x :: x in insights ==> !x.kind.PeakActivity?
    ensures logs != [] ==> forall i, j :: (0 <= i < |insights| && 0 <= j < |insights| &&
              insights[i].kind.Frequency? && insights[j].kind.Frequency?) ==> i == j
    ensures logs != [] ==> Analytics.Insight(Analytics.Frequency(Analytics.WeekCount(logs, now)),
                                             Analytics.FrequencyPriority(Analytics.WeekCount(logs, now))) in insights
  {
    if |logs| == 0 {
      insights, stats := [Analytics.Insight(Analytics.Placeholder, Analytics.Low)], BundledStats(0, 0, None, 0);
      return;
    }
    var st := CalculateStats(logs, today);
    var recentLogs := YoungerThan(logs, now, WeekMs);
    insights := Analytics.RankInsights(st.bestReboot, st.avgRecovery, st.streakDays, |recentLogs|, None);
    stats := st;
  }

  // ---------------------------------------------------------------------
  // Agent
  // ---------------------------------------------------------------------

  /** The bundle's analysis: no fatigue pattern and no counts. */
  datatype BundledAnalysis = BundledAnalysis(
    timeSinceLastReboot: Agent.Elapsed,
    avgRecovery: real,
    bestRebootType: Option<Agent.BestRebootType>,
    estimatedFatigue: real)

  ghost predicate BundledAnalysisOf(logs: seq<Log>, now: int, a: BundledAnalysis) {
    && a.timeSinceLastReboot == Agent.ElapsedSince(logs, now)
    && a.avgRecovery == Agent.WeekMean(YoungerThan(logs, now, WeekMs))
    && Agent.IsBestRebootType(logs, a.bestRebootType)
    && a.estimatedFatigue == Agent.EstimateCurrentFatigue(logs, Agent.ElapsedSince(logs, now))
  }

  /** `performDeepAnalysis` of the bundle. */
  method PerformDeepAnalysis(logs: seq<Log>, now: int) returns (a: BundledAnalysis)
    ensures BundledAnalysisOf(logs, now, a)
  {
    var timeSinceLastReboot := Agent.ElapsedSince(logs, now);
    var weekLogs := YoungerThan(logs, now, WeekMs);
    var avgRecovery := Agent.WeekMean(weekLogs);
    var bestRebootType := Agent.FindBestRebootType(logs);
    var estimatedFatigue := Agent.EstimateCurrentFatigue(logs, timeSinceLastReboot);
    a := BundledAnalysis(timeSinceLastReboot, avgRecovery, bestRebootType, estimatedFatigue);
  }

  /**
   * The bundle's decision carries no action, except that the empty-history
   * result spells out `action: 'none'`.
   */
  datatype BundledDecision = BundledDecision(
    shouldAlert: bool,
    confidence: int,
    message: Agent.Message,
    action: Option<Agent.Action>)

  /** The two rules as a first match: the long gap, else high estimated fatigue. */
  function ExpectedBundledDecision(a: BundledAnalysis): BundledDecision {
    if Agent.Exceeds(a.timeSinceLastReboot, Agent.OptimalRebootInterval) then
      BundledDecision(true, Round(Agent.LongGapConfidence(a.timeSinceLastReboot)),
                      Agent.LongGap(a.timeSinceLastReboot, a.bestRebootType), None)
    else if a.estimatedFatigue >= Agent.FatigueThreshold as real then
      BundledDecision(true, 65, Agent.HighFatigue(Tenths(a.estimatedFatigue)), None)
    else
      BundledDecision(false, 0, Agent.NoMessage, None)
  }

  /** `makeDecision` of the bundle: rule 1, then rule 4 only when rule 1 did not fire. */
  method MakeDecision(a: BundledAnalysis) returns (d: BundledDecision)
    ensures d == ExpectedBundledDecision(a)
    ensures d.action.None?
    ensures !d.shouldAlert ==> d.confidence == 0 && d.message == Agent.NoMessage
    ensures d.shouldAlert && Agent.Exceeds(a.timeSinceLastReboot, Agent.OptimalRebootInterval) ==>
              70 <= d.confidence <= 95
    ensures d.shouldAlert && !Agent.Exceeds(a.timeSinceLastReboot, Agent.OptimalRebootInterval) ==>
              d.confidence == 65
  {
    var shouldAlert := false;
    var message := Agent.NoMessage;
    var confidence: real := 0.0;

    if Agent.Exceeds(a.timeSinceLastReboot, Agent.OptimalRebootInterval) {
      shouldAlert := true;
      confidence := Agent.LongGapConfidence(a.timeSinceLastReboot);
      message := Agent.LongGap(a.timeSinceLastReboot, a.bestRebootType);
    }
    if a.estimatedFatigue >= Agent.FatigueThreshold as real && !shouldAlert {
      shouldAlert := true;
      confidence := 65.0;
      message := Agent.HighFatigue(Tenths(a.estimatedFatigue));
    }
    d := BundledDecision(shouldAlert, Round(confidence), message, None);
  }

  /** `analyzeAndDecide` of the bundle. */
  method AnalyzeAndDecide(logs: seq<Log>, now: int) returns (d: BundledDecision, ghost a: BundledAnalysis)
    ensures logs == [] ==> d == BundledDecision(false, 0, Agent.NoMessage, Some(Agent.NoAction))
    ensures logs != [] ==> BundledAnalysisOf(logs, now, a) && d == ExpectedBundledDecision(a)
    ensures !d.shouldAlert ==> d.confidence == 0 && d.message == Agent.NoMessage
    ensures d.shouldAlert ==> 65 <= d.confidence <= 95
  {
    if |logs| == 0 {
      a := BundledAnalysis(Agent.Never, 5.0, None, 5.0);
      return BundledDecision(false, 0, Agent.NoMessage, Some(Agent.NoAction)), a;
    }
    var analysis := PerformDeepAnalysis(logs, now);
    d := MakeDecision(analysis);
    a := analysis;
  }

  /**
   * With a gap beyond 180 minutes the bundle and the module version agree
   * on the confidence and on the kind of message, unless the module
   * version's fatigue pattern overrides the long gap. The rendered text may
   * still differ for a reboot type outside the known four.
   */
  lemma BundleAgreesOnLongGap(m: Agent.Analysis, b: BundledAnalysis)
    requires b.timeSinceLastReboot == m.timeSinceLastReboot && b.bestRebootType == m.bestRebootType
    requires b.avgRecovery == m.avgRecovery && b.estimatedFatigue == m.estimatedFatigue
    requires Agent.Exceeds(m.timeSinceLastReboot, Agent.OptimalRebootInterval)
    requires m.fatiguePattern != Agent.Chronic && m.fatiguePattern != Agent.Declining
    ensures Agent.ExpectedDecision(m).confidence == ExpectedBundledDecision(b).confidence
    ensures Agent.ExpectedDecision(m).message == ExpectedBundledDecision(b).message
  {
  }

  /**
   * Both services open the same database name at the same version. When the
   * bundle opens it first, the database has no `aiCache` store, the module
   * service then opens it without an upgrade, and its cache requests are
   * refused.
   */
  method CacheAfterBundleOpen(key: string, data: string, now: int) returns (saved: Result<()>, read: Result<Option<string>>)
    ensures saved == Err(NotFoundError) && read == Err(NotFoundError)
  {
    var bundled := new BundledDataService(0, map[], map[]);
    var status := bundled.Init(true);
    var service := new Store.DataService(bundled.storedVersion, bundled.schema, bundled.logs, map[]);
    status := service.Init(true);
    saved := service.SaveAICache(key, data, now);
    read := service.GetAICache(key, now);
  }
}

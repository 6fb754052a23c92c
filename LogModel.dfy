/**
 * The data contract shared by the log store, the analytics service and the
 * decision agent of the reboot dashboard: the activity record, the draft the
 * form submits, time constants, rounding as the browser does it, and the
 * filters and sums over a list of records that several services use.
 */
module LogModel {

  datatype Option<+T> = None | Some(value: T)

  /** What an object-store request can fail with. */
  datatype StoreError =
    | NotOpen            // the service was used before `init` opened the database
    | StorageUnavailable // the storage engine could not be opened
    | VersionError       // the stored database is newer than the version the service requests
    | ConstraintError    // `add` found a record with the same key
    | NotFoundError      // a transaction named an object store the database does not have

  datatype Result<+T> = Ok(value: T) | Err(error: StoreError)

  const MinuteMs: int := 60 * 1000
  const HourMs: int := 60 * MinuteMs
  const DayMs: int := 24 * HourMs
  const WeekMs: int := 7 * DayMs

  /** What the log form hands to `saveLog` (the timestamp already parsed to epoch ms). */
  datatype LogDraft = LogDraft(
    timestamp: int,
    duration: int,
    rebootType: string,
    preFatigue: int,
    postRecovery: int,
    notes: string)

  /** A persisted activity record; `date` is the UTC day number of `timestamp`. */
  datatype Log = Log(
    id: int,
    timestamp: int,
    date: int,
    duration: int,
    rebootType: string,
    preFatigue: int,
    postRecovery: int,
    notes: string,
    createdAt: int)

  /** The self-reported scores lie in [1, 10], as the form guarantees. */
  ghost predicate ValidScores(logs: seq<Log>) {
    forall i :: 0 <= i < |logs| ==>
      1 <= logs[i].preFatigue <= 10 && 1 <= logs[i].postRecovery <= 10
  }

  /** `Math.round`: the nearest integer, halves rounded up. */
  function Round(x: real): (r: int)
    ensures x - 0.5 < r as real <= x + 0.5
  {
    (x + 0.5).Floor
  }

  lemma RoundMonotone(x: real, y: real)
    requires x <= y
    ensures Round(x) <= Round(y)
  {
  }

  /** `x.toFixed(1)` read back as a number, in tenths: halves round away from zero. */
  function Tenths(x: real): (r: int)
    ensures x >= 0.0 ==> x * 10.0 - 0.5 < r as real <= x * 10.0 + 0.5
    ensures x < 0.0 ==> x * 10.0 - 0.5 <= r as real < x * 10.0 + 0.5
  {
    if x < 0.0 then -Round(-x * 10.0) else Round(x * 10.0)
  }

  /** `Math.min` and `Math.max` on reals. */
  function Min(x: real, y: real): (r: real)
    ensures r <= x && r <= y && (r == x || r == y)
  {
    if x <= y then x else y
  }

  function Max(x: real, y: real): (r: real)
    ensures r >= x && r >= y && (r == x || r == y)
  {
    if x >= y then x else y
  }

  /**
   * `logs.filter(log => now - log.timestamp < span)`: the records younger
   * than `span` milliseconds, in their original order (see `YoungerThanPrefix`
   * for what that order means on a newest-first list).
   */
  function YoungerThan(logs: seq<Log>, now: int, span: int): (r: seq<Log>)
    ensures |r| <= |logs|
    ensures forall x :: x in r <==> x in logs && now - x.timestamp < span
  {
    if logs == [] then []
    else if now - logs[0].timestamp < span then [logs[0]] + YoungerThan(logs[1..], now, span)
    else YoungerThan(logs[1..], now, span)
  }

  /** The sum of `postRecovery` over the records (`reduce` with `+`). */
  function SumRecovery(logs: seq<Log>): int
  {
    if logs == [] then 0 else SumRecovery(logs[..|logs| - 1]) + logs[|logs| - 1].postRecovery
  }

  /** The sum of `duration` over the records. */
  function SumDuration(logs: seq<Log>): int
  {
    if logs == [] then 0 else SumDuration(logs[..|logs| - 1]) + logs[|logs| - 1].duration
  }

  /**
   * The model's sums, like `reduce`, add the records in list order. Split at
   * the head instead, a total is the first record's value plus the total of
   * the rest.
   */
  lemma {:induction false} SumRecoveryFromFront(logs: seq<Log>)
    requires logs != []
    ensures SumRecovery(logs) == logs[0].postRecovery + SumRecovery(logs[1..])
  {
    if |logs| > 1 {
      var init := logs[..|logs| - 1];
      SumRecoveryFromFront(init);
      assert init[1..] == logs[1..][..|logs| - 2];
    }
  }

  lemma {:induction false} SumDurationFromFront(logs: seq<Log>)
    requires logs != []
    ensures SumDuration(logs) == logs[0].duration + SumDuration(logs[1..])
  {
    if |logs| > 1 {
      var init := logs[..|logs| - 1];
      SumDurationFromFront(init);
      assert init[1..] == logs[1..][..|logs| - 2];
    }
  }

  /** The arithmetic mean of `postRecovery` over a non-empty list. */
  function MeanRecovery(logs: seq<Log>): real
    requires logs != []
  {
    SumRecovery(logs) as real / |logs| as real
  }

  lemma {:induction false} SumRecoveryBounds(logs: seq<Log>)
    requires ValidScores(logs)
    ensures |logs| <= SumRecovery(logs) <= 10 * |logs|
  {
    if logs != [] {
      var init := logs[..|logs| - 1];
      assert ValidScores(init) by {
        forall i | 0 <= i < |init| ensures 1 <= init[i].preFatigue <= 10 && 1 <= init[i].postRecovery <= 10 {
          assert init[i] == logs[i];
        }
      }
      SumRecoveryBounds(init);
    }
  }

  /** With valid scores the mean recovery lies in [1, 10]. */
  lemma MeanRecoveryBounds(logs: seq<Log>)
    requires logs != [] && ValidScores(logs)
    ensures 1.0 <= MeanRecovery(logs) <= 10.0
  {
    SumRecoveryBounds(logs);
    QuotientBounds(SumRecovery(logs) as real, |logs| as real, 1.0, 10.0);
  }

  /** `lo * n <= s <= hi * n` with `n > 0` bounds the quotient `s / n`. */
  lemma QuotientBounds(s: real, n: real, lo: real, hi: real)
    requires n > 0.0 && lo * n <= s <= hi * n
    ensures lo <= s / n <= hi
  {
    assert (s / n) * n == s;
  }

  lemma {:induction false} YoungerThanAllYoung(logs: seq<Log>, now: int, span: int)
    requires forall i :: 0 <= i < |logs| ==> now - logs[i].timestamp < span
    ensures YoungerThan(logs, now, span) == logs
  {
    if logs != [] {
      YoungerThanAllYoung(logs[1..], now, span);
    }
  }

  /** The filter keeps nothing exactly when every record is at least `span` old. */
  lemma YoungerThanEmpty(logs: seq<Log>, now: int, span: int)
    ensures YoungerThan(logs, now, span) == [] <==> forall i :: 0 <= i < |logs| ==> now - logs[i].timestamp >= span
  {
    var r := YoungerThan(logs, now, span);
    if r != [] {
      assert r[0] in logs;
    }
    if exists i :: 0 <= i < |logs| && now - logs[i].timestamp < span {
      var i :| 0 <= i < |logs| && now - logs[i].timestamp < span;
      assert logs[i] in r;
    }
  }

  /** Timestamps never increase along the list. */
  ghost predicate TimesDescending(logs: seq<Log>) {
    forall i, j :: 0 <= i < j < |logs| ==> logs[i].timestamp >= logs[j].timestamp
  }

  /** The tail of a newest-first list is newest first, and when its head is too old, so is every later record. */
  lemma OldHeadOldTail(logs: seq<Log>, now: int, span: int)
    requires TimesDescending(logs) && logs != []
    ensures TimesDescending(logs[1..])
    ensures now - logs[0].timestamp >= span ==> forall k :: 0 <= k < |logs[1..]| ==> now - logs[1..][k].timestamp >= span
  {
    var tail := logs[1..];
    forall i, j | 0 <= i < j < |tail| ensures tail[i].timestamp >= tail[j].timestamp {
      assert tail[i] == logs[i + 1] && tail[j] == logs[j + 1];
    }
    forall k | 0 <= k < |tail| ensures logs[0].timestamp >= tail[k].timestamp {
      assert tail[k] == logs[k + 1];
    }
  }

  /**
   * On a newest-first list the records younger than `span` are a prefix: the
   * filter keeps the newest records, in order, and stops at the first old one.
   */
  lemma {:induction false} YoungerThanPrefix(logs: seq<Log>, now: int, span: int)
    requires TimesDescending(logs)
    ensures YoungerThan(logs, now, span) == logs[..|YoungerThan(logs, now, span)|]
  {
    if logs != [] {
      var tail := logs[1..];
      OldHeadOldTail(logs, now, span);
      YoungerThanPrefix(tail, now, span);
      var rest := YoungerThan(tail, now, span);
      if now - logs[0].timestamp < span {
        assert YoungerThan(logs, now, span) == [logs[0]] + rest;
        ConsPrefix(logs, rest);
      } else {
        YoungerThanEmpty(tail, now, span);
        assert YoungerThan(logs, now, span) == [];
      }
    }
  }

  /** A prefix of the tail, with the head put back, is a prefix of the list. */
  lemma ConsPrefix<T>(s: seq<T>, rest: seq<T>)
    requires s != [] && |rest| < |s| && rest == s[1..][..|rest|]
    ensures [s[0]] + rest == s[..|rest| + 1]
  {
  }
}

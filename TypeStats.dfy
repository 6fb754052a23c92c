/**
 * Per-type recovery statistics: the `typeRecovery` / `typeStats` tables that
 * `calculateStats` and `findBestRebootType` fill record by record, and the
 * choice of a type with the highest mean `postRecovery`. Both services run
 * the same procedure; it is defined once here.
 */
module TypeStats {
  import opened LogModel

  /** The activity types that occur in `logs`. */
  function TypesOf(logs: seq<Log>): set<string>
  {
    if logs == [] then {} else TypesOf(logs[..|logs| - 1]) + {logs[|logs| - 1].rebootType}
  }

  /** The number of records of type `t`. */
  function CountOfType(logs: seq<Log>, t: string): nat
  {
    if logs == [] then 0
    else CountOfType(logs[..|logs| - 1], t) + (if logs[|logs| - 1].rebootType == t then 1 else 0)
  }

  /** The sum of `postRecovery` over the records of type `t`. */
  function RecoveryOfType(logs: seq<Log>, t: string): int
  {
    if logs == [] then 0
    else RecoveryOfType(logs[..|logs| - 1], t) + (if logs[|logs| - 1].rebootType == t then logs[|logs| - 1].postRecovery else 0)
  }

  /** A type occurs exactly when it has at least one record; an absent type has no recovery total. */
  lemma {:induction false} TypePresence(logs: seq<Log>, t: string)
    ensures t in TypesOf(logs) <==> CountOfType(logs, t) > 0
    ensures t !in TypesOf(logs) ==> RecoveryOfType(logs, t) == 0
  {
    if logs != [] {
      TypePresence(logs[..|logs| - 1], t);
    }
  }

  lemma {:induction false} TypesOfMembers(logs: seq<Log>, t: string)
    ensures t in TypesOf(logs) <==> exists i :: 0 <= i < |logs| && logs[i].rebootType == t
  {
    if logs != [] {
      var init := logs[..|logs| - 1];
      TypesOfMembers(init, t);
      if exists i :: 0 <= i < |init| && init[i].rebootType == t {
        var i :| 0 <= i < |init| && init[i].rebootType == t;
        assert logs[i].rebootType == t;
      }
      if exists i :: 0 <= i < |logs| && logs[i].rebootType == t {
        var i :| 0 <= i < |logs| && logs[i].rebootType == t;
        if i < |init| {
          assert init[i].rebootType == t;
        }
      }
    }
  }

  /** The mean `postRecovery` of the records of a type that occurs. */
  function TypeMean(logs: seq<Log>, t: string): real
    requires t in TypesOf(logs)
  {
    TypePresence(logs, t);
    RecoveryOfType(logs, t) as real / CountOfType(logs, t) as real
  }

  /** `t` occurs and no occurring type has a higher mean recovery. */
  ghost predicate IsBestType(logs: seq<Log>, t: string) {
    && t in TypesOf(logs)
    && forall u :: u in TypesOf(logs) ==> TypeMean(logs, u) <= TypeMean(logs, t)
  }

  /** One entry of the per-type table: record count and recovery total. */
  datatype Tally = Tally(count: nat, total: int)

  function Average(tally: Tally): real
    requires tally.count > 0
  {
    tally.total as real / tally.count as real
  }

  /** The `forEach` that fills the per-type table. */
  method TallyByType(logs: seq<Log>) returns (tallies: map<string, Tally>)
    ensures tallies.Keys == TypesOf(logs)
    ensures forall t :: t in tallies ==>
              tallies[t] == Tally(CountOfType(logs, t), RecoveryOfType(logs, t)) && tallies[t].count > 0
  {
    tallies := map[];
    var i := 0;
    while i < |logs|
      invariant 0 <= i <= |logs|
      invariant tallies.Keys == TypesOf(logs[..i])
      invariant forall t :: t in tallies ==>
                  tallies[t] == Tally(CountOfType(logs[..i], t), RecoveryOfType(logs[..i], t))
    {
      var log := logs[i];
      TypePresence(logs[..i], log.rebootType);
      var prev := if log.rebootType in tallies then tallies[log.rebootType] else Tally(0, 0);
      tallies := tallies[log.rebootType := Tally(prev.count + 1, prev.total + log.postRecovery)];
      assert logs[..i + 1][..i] == logs[..i];
      i := i + 1;
    }
    assert logs[..|logs|] == logs;
    forall t | t in tallies ensures tallies[t].count > 0 {
      TypePresence(logs, t);
    }
  }

  /**
   * The head of the table sorted by descending average: some entry whose
   * average no other entry exceeds; none for an empty table.
   */
  method PickBest(tallies: map<string, Tally>) returns (best: Option<string>)
    requires forall t :: t in tallies ==> tallies[t].count > 0
    ensures best.None? <==> tallies == map[]
    ensures best.Some? ==> best.value in tallies
    ensures best.Some? ==> forall u :: u in tallies ==> Average(tallies[u]) <= Average(tallies[best.value])
  {
    best := None;
    var rest := tallies.Keys;
    while rest != {}
      invariant rest <= tallies.Keys
      invariant best.None? ==> rest == tallies.Keys
      invariant best.Some? ==> best.value in tallies
      invariant best.Some? ==> forall u :: u in tallies && u !in rest ==> Average(tallies[u]) <= Average(tallies[best.value])
      decreases rest
    {
      assert (forall k :: k !in rest) ==> rest == {};
      var k :| k in rest;
      if best.None? || Average(tallies[k]) > Average(tallies[best.value]) {
        best := Some(k);
      }
      rest := rest - {k};
    }
    assert best.None? ==> tallies.Keys == {};
  }

  /** A type with the highest mean recovery among the types present; none without records. */
  method BestType(logs: seq<Log>) returns (best: Option<string>)
    ensures best.None? <==> logs == []
    ensures best.Some? ==> IsBestType(logs, best.value)
  {
    var tallies := TallyByType(logs);
    best := PickBest(tallies);
    if logs != [] {
      assert logs[|logs| - 1].rebootType in TypesOf(logs);
    }
  }

  /** With valid scores every type's mean lies in [1, 10]. */
  lemma {:induction false} TypeTotalsBounds(logs: seq<Log>, t: string)
    requires ValidScores(logs)
    ensures CountOfType(logs, t) <= RecoveryOfType(logs, t) <= 10 * CountOfType(logs, t)
  {
    if logs != [] {
      var init := logs[..|logs| - 1];
      assert ValidScores(init) by {
        forall i | 0 <= i < |init| ensures 1 <= init[i].preFatigue <= 10 && 1 <= init[i].postRecovery <= 10 {
          assert init[i] == logs[i];
        }
      }
      TypeTotalsBounds(init, t);
    }
  }

  lemma TypeMeanBounds(logs: seq<Log>, t: string)
    requires ValidScores(logs) && t in TypesOf(logs)
    ensures 1.0 <= TypeMean(logs, t) <= 10.0
  {
    TypePresence(logs, t);
    TypeTotalsBounds(logs, t);
    QuotientBounds(RecoveryOfType(logs, t) as real, CountOfType(logs, t) as real, 1.0, 10.0);
  }
}

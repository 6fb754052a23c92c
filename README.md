# Reboot dashboard services, modelled in Dafny

The reboot dashboard is a single-user browser tool. It records "reboot" activities: a sauna visit, a nap, a bike ride or a meditation session. Each record holds the fatigue felt before (`preFatigue`, 1–10) and the recovery felt after (`postRecovery`, 1–10). Three services form its core, and this project models all three:

- **Log store** (`DataService`): records persist in a browser database with two object stores. `logs` is keyed by `id` and `aiCache` is keyed by `key`. Inserts are add-only, and `id` is the clock value at save time. Reads return every record newest first. There is an inclusive timestamp range filter. Deleting an absent id succeeds. The small cache of `{key, data, timestamp}` entries is read back only while it is at most `maxAge` old (one hour by default).
- **Analytics** (`AnalyticsService`): from the newest-first record list it computes several results:
  - statistics: count, one-decimal mean recovery, the type with the highest mean recovery, total and mean duration, and the run of consecutive days with records;
  - up to five insights, sorted by priority;
  - the hour of day with most records, once there are ten;
  - a health snapshot derived from the newest record and the hours since it.
- **Decision agent** (`AIAgent`): it computes a feature vector: minutes since the newest record, 7-day mean recovery, a fatigue pattern over the last 24 hours, the best type (from five records on) and a clamped fatigue estimate. Four `if` rules then run in sequence, each overwriting what an earlier one set. Together they decide whether to alert, with what action and with what confidence.

The standalone bundle `app-bundle.js` carries an older copy of the trio. Its store has no cache. Its statistics have no durations. Its insights have no peak-hour heuristic. Its agent has only the long-gap and high-fatigue rules and returns no action. The model has a module for it, `Bundle`.

In the bundle, `calculateStreak`, `findBestRebootType`, `estimateCurrentFatigue` and `getCurrentHealth` run the same code as the module version. They are modelled once, by `Analytics.CalculateStreak`, `Agent.FindBestRebootType`, `Agent.EstimateCurrentFatigue` and `Analytics.GetCurrentHealth`. The same holds for record construction and the newest-first listing, modelled by `Store.MakeLog` and `Store.ListNewestFirst`.

Modules:

- `LogModel`: the record, the draft the form submits, time constants, `Math.round` and `toFixed(1)`, and the age filter and sums several services use. The source's field `type` is called `rebootType`, because `type` is a Dafny keyword.
- `Store`:
  - the schema upgrade;
  - record construction;
  - the listing, with `getAll` as a loop over ascending keys and the comparator sort as an in-place insertion sort on an array;
  - the range filter and the cache;
  - the class `DataService` holding the two object stores as maps.
- `TypeStats`: the per-type table (count, recovery total) built record by record, and the choice of a type with the highest mean. Both `calculateStats` and `findBestRebootType` run it.
- `Analytics`, `Agent`, `Bundle`: the services as described above.

Time is an input. `now` is in milliseconds. A calendar date is a day number: `timestamp / 86400000`, the UTC date that `toISOString` gives. The streak's "today" is a day number passed in. The local hour uses a fixed zone offset in milliseconds. Means, elapsed minutes and hours are exact `real`s. `Math.round(x)` is `Floor(x + 0.5)`.

## Model

| member | source | states |
|---|---|---|
| `LogModel.Round` | 6_spa_log/js/services/AnalyticsService.js:50 | `Math.round`: the result is within half of `x`, and exact halves round up |
| `LogModel.Tenths` | 6_spa_log/js/services/AnalyticsService.js:46 | `toFixed(1)` read back, in tenths: within half a tenth of the value, halves away from zero |
| `LogModel.YoungerThan` | 6_spa_log/js/services/AnalyticsService.js:110-112 | the filter keeps exactly the records with `now - timestamp < span` and never grows the list |
| `LogModel.SumRecoveryBounds` | 6_spa_log/js/services/AnalyticsService.js:20 | with every score in [1, 10], the recovery total lies between `n` and `10n` |
| `LogModel.MeanRecoveryBounds` | 6_spa_log/js/services/AnalyticsService.js:20 | with valid scores the mean recovery lies in [1, 10] |
| `LogModel.YoungerThanEmpty` | 6_spa_log/js/services/AIAgent.js:54-59 | the filter keeps nothing exactly when every record is at least `span` old |
| `LogModel.YoungerThanPrefix` | 6_spa_log/js/services/AIAgent.js:43-46 | on a newest-first list the filter keeps a prefix: the newest records, in their order |
| `LogModel.SumRecoveryFromFront` | 6_spa_log/js/services/AnalyticsService.js:19 | the recovery total is the first record's recovery plus the total of the rest |
| `LogModel.SumDurationFromFront` | 6_spa_log/js/services/AnalyticsService.js:20 | the duration total is the first record's duration plus the total of the rest |
| `LogModel.YoungerThanAllYoung` | 6_spa_log/js/services/AIAgent.js:43-46 | when every record is younger than the window, the filter returns the list unchanged |
| `Store.UpgradeSchema` | 6_spa_log/js/services/DataService.js:23-42 | the upgrade adds `logs` (key `id`, auto-increment, indexes timestamp/type/date) and `aiCache` (key `key`, index timestamp) only where absent; existing stores are untouched |
| `Store.UpgradeSchemaIdempotent` | 6_spa_log/js/services/DataService.js:27-41 | running the upgrade twice gives the same schema as running it once |
| `Store.DayOf` | 6_spa_log/js/services/DataService.js:51 | the derived date is the day whose 24-hour span contains the timestamp |
| `Store.MakeLog` | 6_spa_log/js/services/DataService.js:47-53 | the saved record has `id = createdAt = now`, `date` = the timestamp's day, and every draft field unchanged |
| `Store.MinKey` | 6_spa_log/js/services/DataService.js:69 | the cursor's next key: the smallest key still to read |
| `Store.ReadAll` | 6_spa_log/js/services/DataService.js:69 | `getAll` yields every stored record exactly once, in ascending key order |
| `Store.SortNewestFirst` | 6_spa_log/js/services/DataService.js:72 | the in-place stable sort leaves a permutation of the array, newest first, equal timestamps in key order |
| `Store.InsertAt` | 6_spa_log/js/services/DataService.js:72 | one insertion step: element `i` moves down to position `j`; the elements between shift up; all have strictly older timestamps |
| `Store.InsertedIsPermutation` | 6_spa_log/js/services/DataService.js:72 | an insertion step permutes the array |
| `Store.InsertKeepsOrder` | 6_spa_log/js/services/DataService.js:72 | after the step the sorted prefix is one longer and the unsorted suffix keeps its key order |
| `Store.ListNewestFirst` | 6_spa_log/js/services/DataService.js:69-72 | the listing holds exactly the stored records, each once, newest first |
| `Store.NewestFirstUnique` | 6_spa_log/js/services/DataService.js:72 | two newest-first lists of the same records are equal, so the listing order is fully determined |
| `Store.FilterRange` | 6_spa_log/js/services/DataService.js:84-86 | keeps exactly the records with `start <= timestamp <= end`, both ends inclusive, and keeps newest-first order |
| `Store.CachePut` | 6_spa_log/js/services/DataService.js:101-110 | `put` maps `key` to `{key, data, now}`, overwriting an earlier entry and leaving other keys alone |
| `Store.CacheLookup` | 6_spa_log/js/services/DataService.js:123-135 | the data is returned exactly when the key is present and its age is at most `maxAge` (an entry aged exactly `maxAge` is returned) |
| `Store.CachePutThenLookup` | 6_spa_log/js/services/DataService.js:100-136 | a lookup after a `put` returns the new data while within `maxAge`; other keys read as before |
| `Store.DataService.constructor` | 6_spa_log/js/services/DataService.js:7-11 | a service not yet open that requests version 1 and is attached to the database the browser already holds, whatever its stored version, stores and records, including a version-1 database without the `aiCache` store |
| `Store.DataService.Init` | 6_spa_log/js/services/DataService.js:13-44 | an engine that will not open reports `StorageUnavailable` and a stored version above 1 reports `VersionError`, both changing nothing; otherwise an older database is upgraded once to version 1, a version-1 database keeps its schema, and the service is open |
| `Store.DataService.SaveLog` | 6_spa_log/js/services/DataService.js:46-63 | `add` fails with a constraint error and changes nothing when the id exists; otherwise the store gains exactly the built record |
| `Store.DataService.GetAllLogs` | 6_spa_log/js/services/DataService.js:65-77 | returns exactly the stored records, each once, newest first |
| `Store.DataService.GetLogsByDateRange` | 6_spa_log/js/services/DataService.js:79-87 | returns exactly the stored records in the inclusive range, newest first |
| `Store.DataService.DeleteLog` | 6_spa_log/js/services/DataService.js:89-98 | removes exactly that key; an absent key succeeds and leaves the store unchanged |
| `Store.DataService.SaveAICache` | 6_spa_log/js/services/DataService.js:100-115 | `NotOpen` before `init`; `NotFoundError` with the cache unchanged when the database has no `aiCache` store; otherwise the cache becomes the old cache with `key` upserted to `{key, data, now}` |
| `Store.DataService.GetAICache` | 6_spa_log/js/services/DataService.js:117-139 | `NotOpen` before `init`; `NotFoundError` exactly when the database has no `aiCache` store; otherwise the cached data exactly when the key is present and not older than `maxAge`, else null; `maxAge` defaults to one hour |
| `Store.DefaultCacheHour` | 6_spa_log/js/services/DataService.js:117 | without an explicit `maxAge`, an entry aged exactly 3600000 ms is still served and one aged 3600001 ms is not |
| `Bundle.CacheAfterBundleOpen` | 6_spa_log/app-bundle.js:16-38 | when the bundle's service creates the shared database first, the module service opens it without an upgrade and both of its cache requests fail with `NotFoundError` |
| `TypeStats.TypePresence` | 6_spa_log/js/services/AnalyticsService.js:26-32 | a type has a table entry exactly when it has a record; an absent type contributes no recovery |
| `TypeStats.TypesOfMembers` | 6_spa_log/js/services/AnalyticsService.js:26-29 | the table's types are exactly the types of the records |
| `TypeStats.TallyByType` | 6_spa_log/js/services/AnalyticsService.js:25-32 | the table's keys are the types present, and each entry is that type's record count and recovery total |
| `TypeStats.PickBest` | 6_spa_log/js/services/AnalyticsService.js:34-39 | none exactly for an empty table; otherwise an entry whose average no other entry exceeds |
| `TypeStats.BestType` | 6_spa_log/js/services/AnalyticsService.js:25-39 | none exactly without records; otherwise a type present whose mean recovery is maximal |
| `TypeStats.TypeTotalsBounds` | 6_spa_log/js/services/AIAgent.js:106-116 | with valid scores each type's recovery total lies between its count and ten times its count |
| `TypeStats.TypeMeanBounds` | 6_spa_log/js/services/AIAgent.js:119-122 | with valid scores every type's mean recovery lies in [1, 10] |
| `Analytics.DescendingTail` | 6_spa_log/js/services/AnalyticsService.js:57 | the tail of a strictly descending day list is strictly descending and below its head |
| `Analytics.DescendingCons` | 6_spa_log/js/services/AnalyticsService.js:57 | a day above every listed day can head the list |
| `Analytics.InsertDescending` | 6_spa_log/js/services/AnalyticsService.js:57 | adding a day keeps the list strictly descending and duplicate-free, and grows it only by a new day |
| `Analytics.DatesDescending` | 6_spa_log/js/services/AnalyticsService.js:57 | the distinct record days, each once, latest first |
| `Analytics.StreakUnique` | 6_spa_log/js/services/AnalyticsService.js:54-76 | the streak of a day set is determined: two streak values for the same days and today are equal |
| `Analytics.StreakOfScan` | 6_spa_log/js/services/AnalyticsService.js:62-73 | counting while each day is `streak` days before today ends exactly on the streak ending today |
| `Analytics.CountBack` | 6_spa_log/js/services/AnalyticsService.js:62-73 | the loop stops at the first day that is not exactly `streak` days before today: every earlier day matches, and the count never passes the list's end |
| `Analytics.CalculateStreak` | 6_spa_log/js/services/AnalyticsService.js:54-76 | the result is the run of consecutive days with records ending today (0 when a record is dated after today); it is at most the number of distinct days, and at least 1 only if today has a record |
| `Analytics.StreakExample` | 6_spa_log/js/services/AnalyticsService.js:62-73 | records today, yesterday and three days ago give a streak of 2 |
| `Analytics.CalculateStats` | 6_spa_log/js/services/AnalyticsService.js:7-52 | all zeros and no best type without records; otherwise the count, the one-decimal mean recovery, a best type, the streak, the duration total and the rounded mean duration |
| `Analytics.BestRebootExample` | 6_spa_log/js/services/AnalyticsService.js:34-39 | recoveries 8, 6 for spa and 4 for sleep: the best type is spa |
| `Analytics.AvgRecoveryBounds` | 6_spa_log/js/services/AnalyticsService.js:19-46 | with valid scores the reported mean is between 1.0 and 10.0 |
| `Analytics.RecoveryThresholds` | 6_spa_log/js/services/AnalyticsService.js:128-134 | the recovery insight compares the rounded mean: below 5 exactly when the mean is below 4.95, at least 7 exactly when it is at least 6.95 |
| `Analytics.LocalHour` | 6_spa_log/js/services/AnalyticsService.js:170 | the local hour lies in [0, 24) |
| `Analytics.HourCountOutOfDay` | 6_spa_log/js/services/AnalyticsService.js:170-175 | no record is counted at an hour outside the day |
| `Analytics.HourCount` | 6_spa_log/js/services/AnalyticsService.js:173-175 | the tally for one hour never exceeds the number of records |
| `Analytics.HourCountOfAny` | 6_spa_log/js/services/AnalyticsService.js:173-175 | the hour of every record has a positive count |
| `Analytics.PeriodOf` | 6_spa_log/js/services/AnalyticsService.js:180-181 | morning exactly before 12, afternoon exactly from 12 to before 18, evening exactly from 18 |
| `Analytics.AnalyzeTimePatterns` | 6_spa_log/js/services/AnalyticsService.js:167-184 | null below 10 records; otherwise the earliest among the hours with the most records, labelled morning before 12, afternoon before 18, else evening |
| `Analytics.WithPriorityMembers` | 6_spa_log/js/services/AnalyticsService.js:161-164 | selecting one priority keeps an insight exactly when it is in the list and has that priority |
| `Analytics.GroupMultisets` | 6_spa_log/js/services/AnalyticsService.js:161-164 | every insight falls in exactly one priority group: the three groups' multisets add up to the list's |
| `Analytics.WithPriorityConcat` | 6_spa_log/js/services/AnalyticsService.js:161-164 | selecting one priority distributes over concatenation |
| `Analytics.WithPriorityUniform` | 6_spa_log/js/services/AnalyticsService.js:161-164 | selecting from a single-priority list keeps all or nothing |
| `Analytics.WithPriorityPartition` | 6_spa_log/js/services/AnalyticsService.js:161-164 | the three priority groups together are a permutation of the list |
| `Analytics.WithPriorityKeepsSteps` | 6_spa_log/js/services/AnalyticsService.js:161-164 | selecting a priority keeps generation order |
| `Analytics.SortByPriority` | 6_spa_log/js/services/AnalyticsService.js:161-164 | the stable priority sort: a permutation, non-increasing by priority, each priority's insights in their original order, and in generation order within a priority |
| `Analytics.GroupRefilter` | 6_spa_log/js/services/AnalyticsService.js:161-164 | selecting a priority from the concatenated groups yields that group |
| `Analytics.GroupsRefilter` | 6_spa_log/js/services/AnalyticsService.js:161-164 | the sorted list has, per priority, the same insights in the same order as the input |
| `Analytics.GroupsRanked` | 6_spa_log/js/services/AnalyticsService.js:161-164 | high, medium and low groups one after the other are ordered by priority, and stably when each group is in generation order |
| `Analytics.StepsAppend` | 6_spa_log/js/services/AnalyticsService.js:92-159 | appending a later heuristic's insight keeps generation order |
| `Analytics.GeneratedMember` | 6_spa_log/js/services/AnalyticsService.js:92-159 | an insight is pushed exactly when the rule table emits it for the statistics, the weekly count and the peak hour |
| `Analytics.GeneratedInOrder` | 6_spa_log/js/services/AnalyticsService.js:92-159 | the pushed insights are in heuristic order |
| `Analytics.PushHeuristics` | 6_spa_log/js/services/AnalyticsService.js:92-159 | the pushed insights are exactly the ones the rule table emits, in heuristic order |
| `Analytics.WeekCount` | 6_spa_log/js/services/AnalyticsService.js:110-113 | the weekly count never exceeds the record count; it is 0 exactly when no record is younger than seven days, and it counts all records when all are younger |
| `Analytics.RankInsights` | 6_spa_log/js/services/AnalyticsService.js:92-164 | the result holds exactly the emitted insights, sorted by priority and stable; one frequency insight, always present; at most one recovery insight |
| `Analytics.RankedFacts` | 6_spa_log/js/services/AnalyticsService.js:92-164 | sorting the pushed insights gives the emitted set, ranked and stable, with each heuristic at one position |
| `Analytics.SameElements` | 6_spa_log/js/services/AnalyticsService.js:161 | sorting does not change which insights are present |
| `Analytics.EmittedPriority` | 6_spa_log/js/services/AnalyticsService.js:92-159 | two emitted insights of one heuristic carry the same priority |
| `Analytics.UniqueHeuristics` | 6_spa_log/js/services/AnalyticsService.js:92-164 | every heuristic contributes at most one insight to the sorted list |
| `Analytics.SameStepSamePosition` | 6_spa_log/js/services/AnalyticsService.js:161-164 | in a stably ranked list priority and heuristic fix the position |
| `Analytics.GenerateInsights` | 6_spa_log/js/services/AnalyticsService.js:78-165 | one low placeholder without records; otherwise exactly the insights the rules emit for the statistics, the weekly count and the peak hour, sorted by priority and stable; exactly one frequency insight, medium below 7 records in the last week; the low-recovery insight exactly when the rounded mean is below 5 |
| `Analytics.GetCurrentHealth` | 6_spa_log/js/services/AnalyticsService.js:186-228 | neutral 50s without records; 50/50/70/30 when no record is younger than 24 hours; otherwise, for a newest record not in the future with recovery in [1, 10], `0 <= focus <= recovery <= 100`, `20 <= fatigue <= 100` and `0 <= score <= 100` |
| `Analytics.HealthRecoveryDecays` | 6_spa_log/js/services/AnalyticsService.js:210-217 | while the newest record is fresh, recovery never rises as time passes |
| `Analytics.HealthPenaltySaturates` | 6_spa_log/js/services/AnalyticsService.js:214-217 | six hours or more after the newest record, recovery is its score times 10 minus 30, floored at 0 |
| `Analytics.HealthExample` | 6_spa_log/js/services/AnalyticsService.js:210-227 | one record with recovery 8, two hours old: score 63, focus 60, fatigue 50, recovery 70 |
| `Agent.ElapsedSince` | 6_spa_log/js/services/AIAgent.js:49-51 | `Infinity` exactly without records; otherwise the minutes since the newest record |
| `Agent.HoursAndMinutes` | 6_spa_log/js/services/AIAgent.js:172 | the message's hours and minutes: minutes in [0, 60) and `60h + m` the whole minutes elapsed |
| `Agent.HoursAndMinutesExample` | 6_spa_log/js/services/AIAgent.js:172 | 200 minutes show as 3 hours 20 minutes |
| `Agent.WeekMean` | 6_spa_log/js/services/AIAgent.js:54-59 | 5 without records in the last week; with valid scores always in [1, 10] |
| `Agent.HighFatigueCount` | 6_spa_log/js/services/AIAgent.js:92-94 | the count of highly fatigued records never exceeds the number of records |
| `Agent.DetectFatiguePattern` | 6_spa_log/js/services/AIAgent.js:81-99 | insufficient exactly below 3 records; declining exactly when the three newest recoveries rise into the past; chronic exactly when not declining and at least 70% are highly fatigued |
| `Agent.ChronicNeedsThree` | 6_spa_log/js/services/AIAgent.js:92-96 | a chronic pattern has at least three highly fatigued records |
| `Agent.AllHighCount` | 6_spa_log/js/services/AIAgent.js:92-94 | when every record is highly fatigued, all of them count |
| `Agent.AllHighIsChronic` | 6_spa_log/js/services/AIAgent.js:81-99 | three or more records, all highly fatigued, and recovery not falling: chronic |
| `Agent.FindBestRebootType` | 6_spa_log/js/services/AIAgent.js:101-132 | null exactly below five records; otherwise a type with maximal mean recovery and that mean to one decimal |
| `Agent.Accumulation` | 6_spa_log/js/services/AIAgent.js:142-145 | the growth term is at most 5, and exactly 5 for `Infinity` |
| `Agent.EstimateCurrentFatigue` | 6_spa_log/js/services/AIAgent.js:134-148 | 5 without records; always within [1, 10] |
| `Agent.FatigueGrowsWithTime` | 6_spa_log/js/services/AIAgent.js:138-147 | the estimate never falls as the elapsed time grows |
| `Agent.FatigueSaturates` | 6_spa_log/js/services/AIAgent.js:142-145 | from 600 minutes on, the estimate equals the one for an `Infinity` gap: the growth term is spent |
| `Agent.PerformDeepAnalysis` | 6_spa_log/js/services/AIAgent.js:41-79 | the feature vector: elapsed minutes, 7-day mean, 24-hour pattern, best type, fatigue estimate and both window counts |
| `Agent.YoungerIsShorter` | 6_spa_log/js/services/AIAgent.js:43-57 | the 24-hour window never holds more records than the 7-day window |
| `Agent.AnalysisBounds` | 6_spa_log/js/services/AIAgent.js:41-79 | with valid scores the 7-day mean and the estimate lie in [1, 10], the 24-hour count is at most the 7-day count, and the best type's mean is 1.0 to 10.0 |
| `Agent.LongGapConfidence` | 6_spa_log/js/services/AIAgent.js:167-170 | rule 1's confidence lies in (70, 95] |
| `Agent.LongGapConfidenceGrows` | 6_spa_log/js/services/AIAgent.js:165-170 | rule 1's rounded confidence grows with the gap and is 95 from 430 minutes |
| `Agent.MakeDecision` | 6_spa_log/js/services/AIAgent.js:150-210 | the sequential overwriting rules equal the first-match reading R3, R2, R1, R4; alert exactly when the action is not none; no alert means confidence 0 and no message; an alert's confidence is 65 to 95 |
| `Agent.RebootSoonOnlyAlone` | 6_spa_log/js/services/AIAgent.js:196-201 | `reboot_soon` exactly when no other rule fires and the estimate reaches 7 |
| `Agent.ChronicMasksLongGap` | 6_spa_log/js/services/AIAgent.js:165-185 | a chronic pattern overrides a long gap: take a break, confidence 85 |
| `Agent.AnalyzeAndDecide` | 6_spa_log/js/services/AIAgent.js:25-39 | the quiet decision without records; otherwise the rules' decision on the analysis of the records, with the same alert, action and confidence invariants |
| `Agent.LongGapExample` | 6_spa_log/js/services/AIAgent.js:165-177 | newest record 200 minutes old, fewer than five records, no pattern: reboot now, confidence 72, no recommendation |
| `Agent.DecliningExample` | 6_spa_log/js/services/AIAgent.js:188-193 | declining pattern, weekly mean 3 and no long gap: change method, confidence 75 |
| `Agent.DecliningPatternExample` | 6_spa_log/js/services/AIAgent.js:85-89 | newest-first recoveries 3, 5, 7 are a declining pattern |
| `Agent.RebootTypeEmoji` | 6_spa_log/js/services/AIAgent.js:212-220 | never empty; an unknown type gets the generic 🔄 |
| `Agent.RebootTypeName` | 6_spa_log/js/services/AIAgent.js:222-230 | an unknown type is shown as itself; the name is empty only for the empty type |
| `Bundle.UpgradeLogsOnly` | 6_spa_log/app-bundle.js:26-38 | the bundle's upgrade adds only `logs`, only when absent |
| `Bundle.UpgradeLogsOnlyIdempotent` | 6_spa_log/app-bundle.js:29-37 | running the bundle's upgrade twice equals running it once |
| `Bundle.BundledDataService.constructor` | 6_spa_log/app-bundle.js:10-14 | a service not yet open that requests version 1 and is attached to the existing database, whatever its stored version, stores and records |
| `Bundle.BundledDataService.Init` | 6_spa_log/app-bundle.js:16-40 | as the module version (`StorageUnavailable`, `VersionError` above version 1, otherwise open at version 1), with the logs-only upgrade |
| `Bundle.BundledDataService.SaveLog` | 6_spa_log/app-bundle.js:42-59 | `add` with `id = now` and the derived date; an existing id fails and changes nothing |
| `Bundle.BundledDataService.GetAllLogs` | 6_spa_log/app-bundle.js:61-73 | exactly the stored records, newest first |
| `Bundle.BundledDataService.DeleteLog` | 6_spa_log/app-bundle.js:75-84 | removes exactly that key; an absent key is a silent success |
| `Bundle.CalculateStats` | 6_spa_log/app-bundle.js:228-262 | `{0, 0, null, 0}` without records; otherwise the count, the one-decimal mean, a best type and the streak |
| `Bundle.GenerateInsights` | 6_spa_log/app-bundle.js:288-361 | the placeholder without records; otherwise the emitted insights without any peak-hour insight, exactly one frequency insight, sorted by priority and stable |
| `Bundle.PerformDeepAnalysis` | 6_spa_log/app-bundle.js:116-139 | elapsed minutes, 7-day mean, best type and fatigue estimate, as the module version computes them |
| `Bundle.MakeDecision` | 6_spa_log/app-bundle.js:183-221 | rule 1, else rule 4; no action field; confidence 70–95 for a long gap, 65 for high fatigue, 0 and no message otherwise |
| `Bundle.AnalyzeAndDecide` | 6_spa_log/app-bundle.js:100-114 | the quiet result, with `action: 'none'`, without records; otherwise the two rules' decision on the analysis |
| `Bundle.BundleAgreesOnLongGap` | 6_spa_log/app-bundle.js:190-208 | on a long gap without a fatigue pattern the bundle and the module version give the same confidence and the same kind of message (the rendered text differs for an unknown reboot type) |

## Left out

- Browser database mechanics are not modelled: opening, transactions, request callbacks and promise wrapping. The object stores are maps. Failures are result values:
  - `StorageUnavailable` when the engine will not open;
  - `VersionError` when the stored database is newer than version 1;
  - `ConstraintError` from `add`;
  - `NotFoundError` when a cache transaction names the `aiCache` store on a database that lacks it;
  - `NotOpen` for use before `init`, where the source would throw on its null `db`.

  Other engine failures (quota, aborted transactions) are not modelled.
- The clock and calendar conversions are inputs: `Date.now()`, date-string parsing, `toISOString`, `getHours` and `setHours`. A draft's timestamp arrives already in milliseconds. The local hour uses one fixed offset, so daylight-saving changes are not modelled. The streak anchors at a given day number, so the source's mix of UTC record dates and a local-midnight anchor is not modelled.
- `Store.MakeLog`: `saveLog` reads the clock twice, for `id` and for `createdAt`. Both are taken as the same instant.
- Floating point is not modelled; the model uses exact reals.
  - `highFatigueCount >= length * 0.7` is the exact `10 * count >= 7 * length`.
  - `toFixed(1)` is exact rounding to tenths.
  - A non-numeric `duration` (a `NaN` from `parseInt`) is not modelled.
- Display text is not modelled: the Japanese/emoji message and insight templates and their icons. Messages are an enum of kinds that carries the values the text interpolates. The type emoji and name tables are kept.
- `TypeStats.PickBest`: the tie-break among types with equal mean recovery depends on property enumeration order and the sort. The contract promises only some type with the maximal mean.
- `Agent.RebootTypeName`, `Agent.RebootTypeEmoji`, `TypeStats.TallyByType`: the source keys plain objects by the type string. A type that names an inherited property (such as `toString`) would look up a function in the emoji and name tables, and in the per-type tables it would find an inherited value instead of an empty slot; a type `__proto__` would not appear in `Object.entries` at all. The model treats every type string as an ordinary key.
- `!logs` (a null list) is treated like the empty list; a Dafny sequence cannot be null.
- The agent's `maxContinuousHours` setting is never read by the source, so it has no counterpart.

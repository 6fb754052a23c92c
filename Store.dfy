/**
 * The log store (`DataService`): two object stores of the browser database,
 * `logs` keyed by `id` and `aiCache` keyed by `key`, modelled as maps owned by
 * a class whose methods perform the `add`, `delete` and `put` requests.
 * The pure parts (record construction, newest-first listing, the range
 * filter, the cache lookup) are module-level members that the bundled copy
 * of the service reuses.
 */
module Store {
  import opened LogModel

  const DbVersion: nat := 1
  const LogsStore: string := "logs"
  const CacheStore: string := "aiCache"
  /** `getAICache`'s default `maxAge`: one hour. */
  const DefaultMaxAge: int := 3600000

  /** An object store's declaration: its key path, key generator and index names. */
  datatype ObjectStore = ObjectStore(keyPath: string, autoIncrement: bool, indexes: set<string>)

  /** The object stores of the database, by name. */
  type Schema = map<string, ObjectStore>

  const LogsDecl: ObjectStore := ObjectStore("id", true, {"timestamp", "type", "date"})
  const CacheDecl: ObjectStore := ObjectStore("key", false, {"timestamp"})

  /**
   * The `onupgradeneeded` handler: creates `logs` and `aiCache` only when
   * they do not exist; stores that exist are left as they are.
   */
  function UpgradeSchema(db: Schema): (r: Schema)
    ensures r.Keys == db.Keys + {LogsStore, CacheStore}
    ensures forall n :: n in db ==> r[n] == db[n]
    ensures LogsStore !in db ==> r[LogsStore] == LogsDecl
    ensures CacheStore !in db ==> r[CacheStore] == CacheDecl
  {
    var withLogs := if LogsStore in db then db else db[LogsStore := LogsDecl];
    if CacheStore in withLogs then withLogs else withLogs[CacheStore := CacheDecl]
  }

  /** Running the upgrade a second time changes nothing. */
  lemma UpgradeSchemaIdempotent(db: Schema)
    ensures UpgradeSchema(UpgradeSchema(db)) == UpgradeSchema(db)
  {
  }

  /** The UTC calendar day (days since the epoch) that contains `timestamp`. */
  function DayOf(timestamp: int): (d: int)
    ensures d * DayMs <= timestamp < (d + 1) * DayMs
  {
    timestamp / DayMs
  }

  /** The draft fields of a record. */
  function DraftOf(log: Log): LogDraft {
    LogDraft(log.timestamp, log.duration, log.rebootType, log.preFatigue, log.postRecovery, log.notes)
  }

  /** The record `saveLog` builds: `id` and `createdAt` from the clock, `date` from `timestamp`. */
  function MakeLog(draft: LogDraft, now: int): (r: Log)
    ensures r.id == now && r.createdAt == now
    ensures r.date == DayOf(draft.timestamp)
    ensures DraftOf(r) == draft
  {
    Log(now, draft.timestamp, DayOf(draft.timestamp), draft.duration, draft.rebootType,
        draft.preFatigue, draft.postRecovery, draft.notes, now)
  }

  /** Every record is stored under its own `id` (the store's key path). */
  ghost predicate KeyedById(m: map<int, Log>) {
    forall k :: k in m ==> m[k].id == k
  }

  /** The listing order: newer first, and among equal timestamps the smaller key first. */
  predicate Precedes(a: Log, b: Log) {
    a.timestamp > b.timestamp || (a.timestamp == b.timestamp && a.id < b.id)
  }

  ghost predicate NewestFirst(s: seq<Log>) {
    forall i, j :: 0 <= i < j < |s| ==> Precedes(s[i], s[j])
  }

  ghost predicate IdsAscending(s: seq<Log>) {
    forall i, j :: 0 <= i < j < |s| ==> s[i].id < s[j].id
  }

  /** `s` holds exactly the records of `m`, each once. */
  ghost predicate Lists(s: seq<Log>, m: map<int, Log>) {
    |s| == |m| && forall x :: x in s <==> x in m.Values
  }

  /** The smallest key of a non-empty key set (the cursor's next position). */
  method MinKey(keys: set<int>) returns (k: int)
    requires keys != {}
    ensures k in keys && forall j :: j in keys ==> k <= j
  {
    assert (forall j :: j !in keys) ==> keys == {};
    k :| k in keys;
    var rest := keys - {k};
    while rest != {}
      invariant rest <= keys && k in keys
      invariant forall j :: j in keys && j !in rest ==> k <= j
      decreases rest
    {
      assert (forall j :: j !in rest) ==> rest == {};
      var j :| j in rest;
      if j < k {
        k := j;
      }
      rest := rest - {j};
    }
  }

  /** `store.getAll()`: every record, in ascending key order. */
  method ReadAll(m: map<int, Log>) returns (s: seq<Log>)
    requires KeyedById(m)
    ensures Lists(s, m)
    ensures IdsAscending(s)
  {
    var rest := m.Keys;
    s := [];
    while rest != {}
      invariant rest <= m.Keys
      invariant |s| + |rest| == |m.Keys|
      invariant forall i :: 0 <= i < |s| ==> s[i].id in m && m[s[i].id] == s[i] && s[i].id !in rest
      invariant forall k :: k in m && k !in rest ==> m[k] in s
      invariant IdsAscending(s)
      invariant forall i, k :: 0 <= i < |s| && k in rest ==> s[i].id < k
      decreases rest
    {
      var k := MinKey(rest);
      s := s + [m[k]];
      rest := rest - {k};
    }
    assert |m| == |m.Keys|;
    forall x | x in m.Values ensures x in s {
      assert (forall k :: k in m ==> m[k] != x) ==> x !in m.Values;
      var k :| k in m && m[k] == x;
    }
  }

  /**
   * `sort((a, b) => b.timestamp - a.timestamp)` in place, as an insertion
   * sort. An element moves left only past strictly older ones, so the sort is
   * stable; applied to records in ascending key order it yields the
   * `Precedes` order.
   */
  method SortNewestFirst(a: array<Log>)
    requires IdsAscending(a[..])
    modifies a
    ensures NewestFirst(a[..])
    ensures multiset(a[..]) == multiset(old(a[..]))
  {
    var i := 0;
    while i < a.Length
      invariant 0 <= i <= a.Length
      invariant NewestFirst(a[..i])
      invariant multiset(a[..]) == multiset(old(a[..]))
      invariant forall p, q :: 0 <= p < i <= q < a.Length ==> a[p].id < a[q].id
      invariant IdsAscending(a[i..])
    {
      ghost var before := a[..];
      ghost var j := InsertAt(a, i);
      InsertKeepsOrder(before, a[..], i, j);
      i := i + 1;
    }
    assert a[..a.Length] == a[..];
  }

  /**
   * One pass of the insertion sort: shifts the strictly older records of
   * `a[..i]` one place right and puts `a[i]` into the hole at `j`.
   */
  method InsertAt(a: array<Log>, i: int) returns (ghost j: int)
    requires 0 <= i < a.Length
    modifies a
    ensures 0 <= j <= i
    ensures Inserted(old(a[..]), a[..], i, j)
    ensures forall q :: j <= q < i ==> old(a[q]).timestamp < old(a[i]).timestamp
    ensures j > 0 ==> old(a[j - 1]).timestamp >= old(a[i]).timestamp
  {
    var x := a[i];
    var k := i;
    while k > 0 && a[k - 1].timestamp < x.timestamp
      invariant 0 <= k <= i
      invariant forall q :: 0 <= q <= k ==> a[q] == old(a[q])
      invariant forall q :: k < q <= i ==> a[q] == old(a[q - 1])
      invariant forall q :: i < q < a.Length ==> a[q] == old(a[q])
      invariant forall q :: k <= q < i ==> old(a[q]).timestamp < x.timestamp
    {
      a[k] := a[k - 1];
      k := k - 1;
    }
    a[k] := x;
    j := k;
  }

  /** `t` is `s` with `s[i]` moved to position `j <= i`. */
  ghost predicate Inserted(s: seq<Log>, t: seq<Log>, i: int, j: int)
    requires 0 <= j <= i < |s|
  {
    && |t| == |s|
    && (forall q :: 0 <= q < j ==> t[q] == s[q])
    && t[j] == s[i]
    && (forall q :: j < q <= i ==> t[q] == s[q - 1])
    && (forall q :: i < q < |t| ==> t[q] == s[q])
  }

  lemma InsertedIsPermutation(s: seq<Log>, t: seq<Log>, i: int, j: int)
    requires 0 <= j <= i < |s| && Inserted(s, t, i, j)
    ensures multiset(t) == multiset(s)
  {
    var front, middle, back := s[..j], s[j..i], s[i + 1..];
    InsertedShape(s, t, i, j);
    assert s == front + middle + [s[i]] + back by {
      assert s[..i] == front + middle;
      assert s[..i + 1] == s[..i] + [s[i]];
      assert s == s[..i + 1] + back;
    }
    SwapMiddle(front, [s[i]], middle, back);
  }

  /** Exchanging two adjacent blocks of a sequence keeps its elements. */
  lemma SwapMiddle<T>(a: seq<T>, b: seq<T>, c: seq<T>, d: seq<T>)
    ensures multiset(a + b + c + d) == multiset(a + c + b + d)
  {
    calc {
      multiset(a + b + c + d);
      multiset(a + b + c) + multiset(d);
      multiset(a + b) + multiset(c) + multiset(d);
      multiset(a) + multiset(b) + multiset(c) + multiset(d);
      multiset(a + c) + multiset(b) + multiset(d);
      multiset(a + c + b) + multiset(d);
      multiset(a + c + b + d);
    }
  }

  /** An insertion step as sequence surgery: the moved element sits between the front and the shifted middle. */
  lemma InsertedShape(s: seq<Log>, t: seq<Log>, i: int, j: int)
    requires 0 <= j <= i < |s| && Inserted(s, t, i, j)
    ensures t == s[..j] + [s[i]] + s[j..i] + s[i + 1..]
  {
    var front, middle, back := s[..j], s[j..i], s[i + 1..];
    var moved := front + [s[i]] + middle + back;
    forall q | 0 <= q < |t| ensures t[q] == moved[q] {
      if q < j {
        assert moved[q] == front[q];
      } else if q == j {
      } else if q <= i {
        assert moved[q] == middle[q - j - 1];
      } else {
        assert moved[q] == back[q - i - 1];
      }
    }
  }

  /** The insertion pass keeps the sorted prefix sorted, the contents, and the key split. */
  lemma InsertKeepsOrder(s: seq<Log>, t: seq<Log>, i: int, j: int)
    requires 0 <= j <= i < |s| && Inserted(s, t, i, j)
    requires NewestFirst(s[..i])
    requires forall p, q :: 0 <= p < i <= q < |s| ==> s[p].id < s[q].id
    requires IdsAscending(s[i..])
    requires forall q :: j <= q < i ==> s[q].timestamp < s[i].timestamp
    requires j > 0 ==> s[j - 1].timestamp >= s[i].timestamp
    ensures NewestFirst(t[..i + 1])
    ensures multiset(t) == multiset(s)
    ensures forall p, q :: 0 <= p < i + 1 <= q < |t| ==> t[p].id < t[q].id
    ensures IdsAscending(t[i + 1..])
  {
    InsertedIsPermutation(s, t, i, j);
    forall p, q | 0 <= p < q <= i ensures Precedes(t[p], t[q]) {
      if q < j {
        assert s[..i][p] == s[p] && s[..i][q] == s[q];
      } else if q == j {
        assert s[..i][p] == s[p] && s[..i][j - 1] == s[j - 1];
        assert s[p] == s[j - 1] || Precedes(s[p], s[j - 1]);
        assert s[j - 1].id < s[i].id;
      } else if p == j {
        assert s[q - 1].timestamp < s[i].timestamp;
      } else if p < j {
        assert s[..i][p] == s[p] && s[..i][q - 1] == s[q - 1];
      } else {
        assert s[..i][p - 1] == s[p - 1] && s[..i][q - 1] == s[q - 1];
      }
    }
    forall p, q | 0 <= p < i + 1 <= q < |t| ensures t[p].id < t[q].id {
      if p == j {
        assert s[i..][0] == s[i] && s[i..][q - i] == s[q];
      }
    }
    forall p, q | i + 1 <= p < q < |t| ensures t[p].id < t[q].id {
      assert s[i..][p - i] == s[p] && s[i..][q - i] == s[q];
    }
  }

  /** `getAllLogs`: the records of `m`, newest first. */
  method ListNewestFirst(m: map<int, Log>) returns (r: seq<Log>)
    requires KeyedById(m)
    ensures Lists(r, m)
    ensures NewestFirst(r)
  {
    var s := ReadAll(m);
    var a := new Log[|s|](i requires 0 <= i < |s| => s[i]);
    assert a[..] == s;
    SortNewestFirst(a);
    r := a[..];
    assert multiset(r) == multiset(s);
    forall x ensures x in r <==> x in s {
      assert x in r <==> x in multiset(r);
      assert x in s <==> x in multiset(s);
    }
  }

  /**
   * The newest-first listing of a set of records is unique: `getAllLogs`
   * returns one determined sequence for each store content.
   */
  lemma {:induction false} NewestFirstUnique(s: seq<Log>, t: seq<Log>)
    requires NewestFirst(s) && NewestFirst(t)
    requires forall x :: x in s <==> x in t
    ensures s == t
  {
    assert t != [] ==> t[0] in t;
    if s != [] {
      assert s[0] in t;
      assert t[0] in s;
      var i :| 0 <= i < |s| && s[i] == t[0];
      var j :| 0 <= j < |t| && t[j] == s[0];
      HeadPrecedes(s, i);
      HeadPrecedes(t, j);
      assert s[0] == t[0];
      forall x ensures x in s[1..] <==> x in t[1..] {
        TailMembership(s, x);
        TailMembership(t, x);
      }
      NewestFirstUnique(s[1..], t[1..]);
      assert s == [s[0]] + s[1..];
      assert t == [t[0]] + t[1..];
    }
  }

  /** The head of a newest-first listing precedes every later element. */
  lemma HeadPrecedes(s: seq<Log>, k: int)
    requires NewestFirst(s) && 0 <= k < |s|
    ensures k == 0 || Precedes(s[0], s[k])
  {
  }

  /** In a newest-first listing the tail holds everything but the head. */
  lemma TailMembership(s: seq<Log>, x: Log)
    requires NewestFirst(s) && s != []
    ensures x in s[1..] <==> x in s && x != s[0]
  {
    if x in s[1..] {
      var k :| 0 <= k < |s[1..]| && s[1..][k] == x;
      assert Precedes(s[0], s[k + 1]);
    }
    if x in s && x != s[0] {
      var k :| 0 <= k < |s| && s[k] == x;
      assert s[1..][k - 1] == x;
    }
  }

  /** The inclusive timestamp filter of `getLogsByDateRange`, order preserved. */
  function FilterRange(s: seq<Log>, start: int, end: int): (r: seq<Log>)
    ensures |r| <= |s|
    ensures forall x :: x in r <==> x in s && start <= x.timestamp <= end
    ensures NewestFirst(s) ==> NewestFirst(r)
  {
    if s == [] then []
    else
      var rest := FilterRange(s[1..], start, end);
      KeepHead(s, rest);
      if start <= s[0].timestamp <= end then [s[0]] + rest else rest
  }

  /** A newest-first list whose elements come from the tail can take the head in front. */
  lemma KeepHead(s: seq<Log>, rest: seq<Log>)
    requires s != []
    requires forall x :: x in rest ==> x in s[1..]
    requires NewestFirst(s[1..]) ==> NewestFirst(rest)
    ensures NewestFirst(s) ==> NewestFirst(rest) && NewestFirst([s[0]] + rest)
  {
    if NewestFirst(s) {
      assert NewestFirst(s[1..]) by {
        forall i, j | 0 <= i < j < |s[1..]| ensures Precedes(s[1..][i], s[1..][j]) {
          assert s[1..][i] == s[i + 1] && s[1..][j] == s[j + 1];
        }
      }
      var r := [s[0]] + rest;
      forall i, j | 0 <= i < j < |r| ensures Precedes(r[i], r[j]) {
        if i == 0 {
          assert r[j] in s[1..];
          var k :| 0 <= k < |s[1..]| && s[1..][k] == r[j];
          assert s[k + 1] == r[j];
        } else {
          assert r[i] == rest[i - 1] && r[j] == rest[j - 1];
        }
      }
    }
  }

  /** An `aiCache` record: the payload and when it was stored. */
  datatype CacheEntry = CacheEntry(key: string, data: string, timestamp: int)

  /** `put` of `{key, data, timestamp: now}`: inserts or overwrites. */
  function CachePut(cache: map<string, CacheEntry>, key: string, data: string, now: int): (r: map<string, CacheEntry>)
    ensures r.Keys == cache.Keys + {key}
    ensures r[key] == CacheEntry(key, data, now)
    ensures forall k :: k in cache && k != key ==> r[k] == cache[k]
  {
    cache[key := CacheEntry(key, data, now)]
  }

  /** `getAICache`'s answer: nothing when absent or older than `maxAge` (strictly). */
  function CacheLookup(cache: map<string, CacheEntry>, key: string, now: int, maxAge: int): (r: Option<string>)
    ensures r.Some? <==> key in cache && now - cache[key].timestamp <= maxAge
    ensures r.Some? ==> r.value == cache[key].data
  {
    if key !in cache then None
    else if now - cache[key].timestamp > maxAge then None
    else Some(cache[key].data)
  }

  /** A stored entry is returned for exactly `maxAge` ms after it was put, and other keys are unaffected. */
  lemma CachePutThenLookup(cache: map<string, CacheEntry>, key: string, data: string, stored: int, now: int, maxAge: int)
    ensures CacheLookup(CachePut(cache, key, data, stored), key, now, maxAge)
            == if now - stored <= maxAge then Some(data) else None
    ensures forall k :: k != key ==>
              CacheLookup(CachePut(cache, key, data, stored), k, now, maxAge) == CacheLookup(cache, k, now, maxAge)
  {
  }

  /**
   * What a persisted database of this application looks like: records keyed
   * by their `id`, cache entries by their `key`, and, once at version 1, the
   * `logs` store present. The `aiCache` store may be missing at version 1:
   * the bundled service opens the same database at the same version with an
   * upgrade that creates only `logs`.
   */
  ghost predicate StoredValid(storedVersion: nat, schema: Schema, logs: map<int, Log>,
                              aiCache: map<string, CacheEntry>)
  {
    && KeyedById(logs)
    && (forall k :: k in aiCache ==> aiCache[k].key == k)
    && (storedVersion == DbVersion ==> LogsStore in schema)
  }

  /**
   * The service object. `version` is the schema version the service asks the
   * browser for (`this.version`); `ready` stands for `this.db` having been set
   * by `init`. The remaining fields are the persisted database the browser
   * already holds under the service's name: its version (0 when it does not
   * exist yet), its object stores and their contents.
   */
  class DataService {
    const version: nat := DbVersion
    var ready: bool
    var storedVersion: nat
    var schema: Schema
    var logs: map<int, Log>
    var aiCache: map<string, CacheEntry>

    ghost predicate Valid()
      reads this
    {
      && StoredValid(storedVersion, schema, logs, aiCache)
      && (ready ==> storedVersion == version)
    }

    /**
     * A service attached to whatever database already exists: not yet open,
     * asking for version 1, over the persisted state as it stands.
     */
    constructor (storedVersion: nat, schema: Schema, logs: map<int, Log>, aiCache: map<string, CacheEntry>)
      requires StoredValid(storedVersion, schema, logs, aiCache)
      ensures Valid() && !ready && version == DbVersion
      ensures this.storedVersion == storedVersion && this.schema == schema
      ensures this.logs == logs && this.aiCache == aiCache
    {
      ready := false;
      this.storedVersion := storedVersion;
      this.schema := schema;
      this.logs := logs;
      this.aiCache := aiCache;
    }

    /**
     * `init`: `engineOpens` says whether the storage engine answers at all.
     * A database newer than the requested version is refused; an older one
     * is upgraded to version 1 first; opening again changes nothing.
     */
    method Init(engineOpens: bool) returns (res: Result<()>)
      requires Valid()
      modifies this`ready, this`storedVersion, this`schema
      ensures Valid()
      ensures !engineOpens ==> res == Err(StorageUnavailable) && ready == old(ready)
                               && storedVersion == old(storedVersion) && schema == old(schema)
      ensures engineOpens && old(storedVersion) > version ==>
                res == Err(VersionError) && ready == old(ready)
                && storedVersion == old(storedVersion) && schema == old(schema)
      ensures engineOpens && old(storedVersion) <= version ==> res == Ok(()) && ready && storedVersion == version
      ensures engineOpens && old(storedVersion) < version ==> schema == UpgradeSchema(old(schema))
      ensures engineOpens && old(storedVersion) == version ==> schema == old(schema)
    {
      if !engineOpens {
        return Err(StorageUnavailable);
      }
      if storedVersion > version {
        return Err(VersionError);
      }
      if storedVersion < version {
        schema := UpgradeSchema(schema);
        storedVersion := version;
      }
      ready := true;
      res := Ok(());
    }

    /** `saveLog`: `add` of the built record; an existing key makes the request fail. */
    method SaveLog(draft: LogDraft, now: int) returns (res: Result<Log>)
      requires Valid()
      modifies this`logs
      ensures Valid()
      ensures !ready ==> res == Err(NotOpen) && logs == old(logs)
      ensures ready && now in old(logs) ==> res == Err(ConstraintError) && logs == old(logs)
      ensures ready && now !in old(logs) ==>
                res == Ok(MakeLog(draft, now)) && logs == old(logs)[now := MakeLog(draft, now)]
    {
      if !ready {
        return Err(NotOpen);
      }
      var log := MakeLog(draft, now);
      if log.id in logs {
        return Err(ConstraintError);
      }
      logs := logs[log.id := log];
      res := Ok(log);
    }

    /** `getAllLogs`: every record, newest first. */
    method GetAllLogs() returns (res: Result<seq<Log>>)
      requires Valid()
      ensures !ready <==> res == Err(NotOpen)
      ensures res.Ok? ==> Lists(res.value, logs) && NewestFirst(res.value)
    {
      if !ready {
        return Err(NotOpen);
      }
      var all := ListNewestFirst(logs);
      res := Ok(all);
    }

    /** `getLogsByDateRange`: the records with `start <= timestamp <= end`, newest first. */
    method GetLogsByDateRange(start: int, end: int) returns (res: Result<seq<Log>>)
      requires Valid()
      ensures !ready <==> res == Err(NotOpen)
      ensures res.Ok? ==> NewestFirst(res.value)
      ensures res.Ok? ==> forall x :: x in res.value <==> x in logs.Values && start <= x.timestamp <= end
    {
      var all := GetAllLogs();
      if all.Err? {
        return Err(all.error);
      }
      res := Ok(FilterRange(all.value, start, end));
    }

    /** `deleteLog`: removes the key; an absent key is a successful no-op. */
    method DeleteLog(id: int) returns (res: Result<()>)
      requires Valid()
      modifies this`logs
      ensures Valid()
      ensures !ready ==> res == Err(NotOpen) && logs == old(logs)
      ensures ready ==> res == Ok(()) && logs == old(logs) - {id}
      ensures id !in old(logs) ==> logs == old(logs)
    {
      if !ready {
        return Err(NotOpen);
      }
      logs := logs - {id};
      res := Ok(());
    }

    /**
     * `saveAICache`: `put` of `{key, data, timestamp: now}`; the transaction
     * is refused when the database has no `aiCache` store.
     */
    method SaveAICache(key: string, data: string, now: int) returns (res: Result<()>)
      requires Valid()
      modifies this`aiCache
      ensures Valid()
      ensures !ready ==> res == Err(NotOpen) && aiCache == old(aiCache)
      ensures ready && CacheStore !in schema ==> res == Err(NotFoundError) && aiCache == old(aiCache)
      ensures ready && CacheStore in schema ==> res == Ok(()) && aiCache == CachePut(old(aiCache), key, data, now)
    {
      if !ready {
        return Err(NotOpen);
      }
      if CacheStore !in schema {
        return Err(NotFoundError);
      }
      aiCache := CachePut(aiCache, key, data, now);
      res := Ok(());
    }

    /**
     * `getAICache`: the stored data unless absent or older than `maxAge` (one
     * hour unless given); refused like `saveAICache` without an `aiCache` store.
     */
    function GetAICache(key: string, now: int, maxAge: int := DefaultMaxAge): (res: Result<Option<string>>)
      reads this
      ensures !ready <==> res == Err(NotOpen)
      ensures ready ==> (CacheStore !in schema <==> res == Err(NotFoundError))
      ensures res.Ok? ==> (res.value.Some? <==> key in aiCache && now - aiCache[key].timestamp <= maxAge)
      ensures res.Ok? && res.value.Some? ==> res.value.value == aiCache[key].data
    {
      if !ready then Err(NotOpen)
      else if CacheStore !in schema then Err(NotFoundError)
      else Ok(CacheLookup(aiCache, key, now, maxAge))
    }
  }

  /**
   * Without an explicit `maxAge`, a cached answer is served for one hour: an
   * entry put `3600000` ms ago is still returned, one a millisecond older is not.
   */
  lemma DefaultCacheHour(ds: DataService, key: string, now: int)
    requires ds.ready && key in ds.aiCache
    ensures CacheStore in ds.schema && now - ds.aiCache[key].timestamp == 3600000 ==>
              ds.GetAICache(key, now) == Ok(Some(ds.aiCache[key].data))
    ensures CacheStore in ds.schema && now - ds.aiCache[key].timestamp == 3600001 ==>
              ds.GetAICache(key, now) == Ok(None)
  {
  }
}

/**
 * The activity-log collection: append-only entries, queried newest first, whose only
 * in-place change is the user's note.
 */
module ActivityLog {
  import opened Common
  import opened Json

  datatype EntityType = ApplicationEntity | NetworkEntity

  datatype Action = Created | Updated | Deleted

  /** A field value recorded in a change. */
  datatype Val = Null | Text(s: string) | Salary(range: SalaryRange) | Instant(ms: int)

  /** `{field, oldValue, newValue}`. */
  datatype Change = Change(field: string, oldValue: Val, newValue: Val)

  /** The argument of `createActivityLog`: `changes` and `userNote` may be left out. */
  datatype LogData = LogData(
    userId: string, entityType: EntityType, entityId: nat, entityName: string,
    action: Action, changes: Option<Change>, summary: string, userNote: Input<string>)

  /** What a stored entry says, apart from its id and timestamp. */
  datatype LogRecord = LogRecord(
    userId: string, entityType: EntityType, entityId: nat, entityName: string,
    action: Action, changes: Option<Change>, summary: string, userNote: string)

  /** A stored entry; `timestamp` comes from the store's clock. */
  datatype LogEntry = LogEntry(id: nat, rec: LogRecord, timestamp: nat)

  /** `createActivityLog`'s shaping of its argument: `changes || null`, `userNote || ''`. */
  function Shape(d: LogData): LogRecord
  {
    LogRecord(d.userId, d.entityType, d.entityId, d.entityName, d.action, d.changes, d.summary,
              OrDefault(d.userNote, ""))
  }

  /** Entries in insertion order carry strictly increasing ids and timestamps. */
  predicate Chronological(es: seq<LogEntry>)
  {
    forall i, j :: 0 <= i < j < |es| ==> es[i].id < es[j].id && es[i].timestamp < es[j].timestamp
  }

  /** Strictly decreasing timestamps: the `.sort({timestamp: -1})` order. */
  predicate NewestFirstOrder(es: seq<LogEntry>)
  {
    forall i, j :: 0 <= i < j < |es| ==> es[i].timestamp > es[j].timestamp
  }

  /** The entry `logId`, if it belongs to `userId`: the filter of `updateActivityLogNote`. */
  predicate IsTarget(e: LogEntry, logId: nat, userId: string)
  {
    e.id == logId && e.rec.userId == userId
  }

  /** The entry with its note replaced, as `$set: {userNote}` does. */
  function WithNote(e: LogEntry, note: string): LogEntry
  {
    e.(rec := e.rec.(userNote := note))
  }

  /** Everything about two entries agrees except, possibly, the note. */
  predicate SameButNote(a: LogEntry, b: LogEntry)
  {
    a.id == b.id && a.timestamp == b.timestamp && a.rec.(userNote := "") == b.rec.(userNote := "")
  }

  /** The `activityLogs` collection. */
  class LogStore {
    var entries: seq<LogEntry>
    var nextId: nat
    var clock: nat

    ghost predicate Valid()
      reads this
    {
      && Chronological(entries)
      && forall i :: 0 <= i < |entries| ==> entries[i].id < nextId && entries[i].timestamp < clock
    }

    constructor ()
      ensures Valid() && entries == [] && nextId == 0 && clock == 0
    {
      entries, nextId, clock := [], 0, 0;
    }

    /** `insertOne`: stamps a fresh id and the current time and appends; nothing stored changes. */
    method Append(rec: LogRecord) returns (e: LogEntry)
      requires Valid()
      modifies this
      ensures Valid()
      ensures e == LogEntry(old(nextId), rec, old(clock))
      ensures entries == old(entries) + [e]
      ensures nextId == old(nextId) + 1 && clock == old(clock) + 1
    {
      e := LogEntry(nextId, rec, clock);
      entries := entries + [e];
      nextId, clock := nextId + 1, clock + 1;
    }

    /** The position of the entry matching `{_id: logId, userId}`, if any. */
    method Locate(logId: nat, userId: string) returns (idx: Option<nat>)
      ensures idx.Some? ==> idx.value < |entries| && IsTarget(entries[idx.value], logId, userId)
      ensures idx.None? ==> forall i :: 0 <= i < |entries| ==> !IsTarget(entries[i], logId, userId)
    {
      var i := 0;
      while i < |entries|
        invariant 0 <= i <= |entries|
        invariant forall j :: 0 <= j < i ==> !IsTarget(entries[j], logId, userId)
      {
        if IsTarget(entries[i], logId, userId) {
          return Some(i);
        }
        i := i + 1;
      }
      return None;
    }

    /**
     * `updateActivityLogNote`: sets the note of the entry `logId` when it belongs to `userId`
     * and returns the updated entry; otherwise returns None and changes nothing.
     */
    method UpdateNote(logId: nat, userId: string, note: string) returns (r: Option<LogEntry>)
      requires Valid()
      modifies this
      ensures Valid()
      ensures nextId == old(nextId) && clock == old(clock)
      ensures r.None? <==> forall i :: 0 <= i < |old(entries)| ==> !IsTarget(old(entries)[i], logId, userId)
      ensures r.None? ==> entries == old(entries)
      ensures r.Some? ==> exists i :: (0 <= i < |old(entries)| && IsTarget(old(entries)[i], logId, userId)
        && r.value == WithNote(old(entries)[i], note)
        && entries == old(entries)[i := r.value])
    {
      var idx := Locate(logId, userId);
      if idx.None? {
        return None;
      }
      var i := idx.value;
      var e := WithNote(entries[i], note);
      entries := entries[i := e];
      return Some(e);
    }
  }

  /** The records `createActivityLog` stores for a run of arguments. */
  function Shapes(ds: seq<LogData>): (rs: seq<LogRecord>)
    ensures |rs| == |ds| && forall k :: 0 <= k < |ds| ==> rs[k] == Shape(ds[k])
  {
    seq(|ds|, k requires 0 <= k < |ds| => Shape(ds[k]))
  }

  /** `after` is `before` followed by one new entry per record of `rs`, in order. */
  predicate AppendedRecords(before: seq<LogEntry>, after: seq<LogEntry>, rs: seq<LogRecord>)
  {
    && |after| == |before| + |rs|
    && after[..|before|] == before
    && forall k :: 0 <= k < |rs| ==> after[|before| + k].rec == rs[k]
  }

  /** Appending one more entry extends the run of appended records by its record. */
  lemma AppendedOne(before: seq<LogEntry>, mid: seq<LogEntry>, rs: seq<LogRecord>, e: LogEntry)
    requires AppendedRecords(before, mid, rs)
    ensures AppendedRecords(before, mid + [e], rs + [e.rec])
  {
    var after := mid + [e];
    assert after[..|before|] == mid[..|before|];
  }

  /** `createActivityLog`: shapes its argument and appends it as a new, newest entry. */
  method CreateActivityLog(store: LogStore, d: LogData) returns (e: LogEntry)
    requires store.Valid()
    modifies store
    ensures store.Valid()
    ensures e == LogEntry(old(store.nextId), Shape(d), old(store.clock))
    ensures store.entries == old(store.entries) + [e]
    ensures store.nextId == old(store.nextId) + 1 && store.clock == old(store.clock) + 1
  {
    e := store.Append(Shape(d));
  }

  /** A note update keeps every entry's id, time and record apart from the note, and the order. */
  lemma NoteUpdatePreserves(es: seq<LogEntry>, i: nat, note: string)
    requires i < |es|
    ensures var after := es[i := WithNote(es[i], note)];
      && |after| == |es|
      && (forall j :: 0 <= j < |es| ==> SameButNote(after[j], es[j]))
      && (forall j :: 0 <= j < |es| && j != i ==> after[j] == es[j])
      && after[i].rec.userNote == note
      && (Chronological(es) ==> Chronological(after))
  {
  }

  /** The three filters the store is queried with. */
  datatype Query =
    | OfType(userId: string, entityType: EntityType)  // `{userId, entityType}`
    | OfEntity(entityId: nat)                          // `{entityId}`: no owner filter
    | OfUser(userId: string)                           // `{userId}`

  predicate Matches(q: Query, e: LogEntry)
  {
    match q
    case OfType(u, t) => e.rec.userId == u && e.rec.entityType == t
    case OfEntity(id) => e.rec.entityId == id
    case OfUser(u) => e.rec.userId == u
  }

  /** `find(q).sort({timestamp: -1})`: the matching entries, newest first. */
  function Select(es: seq<LogEntry>, q: Query): seq<LogEntry>
  {
    if es == [] then []
    else
      var last := es[|es| - 1];
      (if Matches(q, last) then [last] else []) + Select(es[..|es| - 1], q)
  }

  /** A query returns exactly the matching entries. */
  lemma {:induction false} SelectMembers(es: seq<LogEntry>, q: Query)
    ensures forall e :: e in Select(es, q) <==> e in es && Matches(q, e)
  {
    if es != [] {
      var init, last := es[..|es| - 1], es[|es| - 1];
      assert es == init + [last];
      SelectMembers(init, q);
    }
  }

  /** Dropping the newest entry of a chronological store leaves a chronological store of older entries. */
  lemma ChronologicalInit(es: seq<LogEntry>)
    requires es != [] && Chronological(es)
    ensures Chronological(es[..|es| - 1])
    ensures forall e :: e in es[..|es| - 1] ==> e.timestamp < es[|es| - 1].timestamp
  {
    forall e | e in es[..|es| - 1] ensures e.timestamp < es[|es| - 1].timestamp {
      var k :| 0 <= k < |es| - 1 && es[..|es| - 1][k] == e;
    }
  }

  /** Putting an entry newer than all others in front keeps a newest-first list newest first. */
  lemma NewestFirstCons(x: LogEntry, rest: seq<LogEntry>)
    requires NewestFirstOrder(rest) && forall e :: e in rest ==> e.timestamp < x.timestamp
    ensures NewestFirstOrder([x] + rest)
  {
    var r := [x] + rest;
    forall i, j | 0 <= i < j < |r| ensures r[i].timestamp > r[j].timestamp {
      assert r[j] == rest[j - 1] && rest[j - 1] in rest;
    }
  }

  /** On a chronological store a query's result is newest first. */
  lemma {:induction false} SelectNewestFirst(es: seq<LogEntry>, q: Query)
    requires Chronological(es)
    ensures NewestFirstOrder(Select(es, q))
  {
    if es != [] {
      var init, last := es[..|es| - 1], es[|es| - 1];
      ChronologicalInit(es);
      SelectMembers(init, q);
      SelectNewestFirst(init, q);
      if Matches(q, last) {
        NewestFirstCons(last, Select(init, q));
      }
    }
  }

  /** A query returns exactly the matching entries and, on a chronological store, newest first. */
  lemma SelectSpec(es: seq<LogEntry>, q: Query)
    ensures forall e :: e in Select(es, q) <==> e in es && Matches(q, e)
    ensures Chronological(es) ==> NewestFirstOrder(Select(es, q))
  {
    SelectMembers(es, q);
    if Chronological(es) {
      SelectNewestFirst(es, q);
    }
  }

  /** `findActivityLogsByEntityType(userId, entityType)`. */
  function FindByEntityType(es: seq<LogEntry>, userId: string, t: EntityType): (r: seq<LogEntry>)
    ensures forall e :: e in r <==> e in es && e.rec.userId == userId && e.rec.entityType == t
    ensures Chronological(es) ==> NewestFirstOrder(r)
  {
    SelectSpec(es, OfType(userId, t));
    Select(es, OfType(userId, t))
  }

  /** `findActivityLogsByEntityId(entityId)`: every owner's entries about the entity. */
  function FindByEntityId(es: seq<LogEntry>, entityId: nat): (r: seq<LogEntry>)
    ensures forall e :: e in r <==> e in es && e.rec.entityId == entityId
    ensures Chronological(es) ==> NewestFirstOrder(r)
  {
    SelectSpec(es, OfEntity(entityId));
    Select(es, OfEntity(entityId))
  }

  /** The cursor's `.limit(n)`: 0 means no limit and a negative n means |n|. */
  function LimitCount(n: int, available: nat): nat
  {
    if n == 0 then available
    else if n > 0 then (if n < available then n else available)
    else (if -n < available then -n else available)
  }

  /** The number of entries `userId` owns. */
  function OwnedCount(es: seq<LogEntry>, userId: string): nat
  {
    |Select(es, OfUser(userId))|
  }

  /** `findAllActivityLogs(userId, limit = 50)`: the user's newest entries, at most `limit` of them. */
  function FindAll(es: seq<LogEntry>, userId: string, limit: Option<int>): seq<LogEntry>
  {
    var all := Select(es, OfUser(userId));
    all[..LimitCount(if limit.Some? then limit.value else 50, |all|)]
  }

  /**
   * The feed holds as many entries as the limit allows, all the user's, newest first, and no
   * entry it leaves out is newer than one it holds.
   */
  lemma FindAllSpec(es: seq<LogEntry>, userId: string, limit: Option<int>)
    ensures var n := if limit.Some? then limit.value else 50;
      |FindAll(es, userId, limit)| == LimitCount(n, OwnedCount(es, userId))
    ensures forall e :: e in FindAll(es, userId, limit) ==> e in es && e.rec.userId == userId
    ensures Chronological(es) ==> NewestFirstOrder(FindAll(es, userId, limit))
    ensures Chronological(es) ==>
      forall e, x :: (e in es && e.rec.userId == userId && e !in FindAll(es, userId, limit)
        && x in FindAll(es, userId, limit)) ==> e.timestamp < x.timestamp
  {
    var all := Select(es, OfUser(userId));
    var r := FindAll(es, userId, limit);
    SelectSpec(es, OfUser(userId));
    assert r == all[..|r|];
    assert forall e :: e in r ==> e in all;
    if Chronological(es) {
      forall e, x | e in es && e.rec.userId == userId && e !in r && x in r
        ensures e.timestamp < x.timestamp
      {
        var a :| 0 <= a < |all| && all[a] == e;
        var b :| 0 <= b < |r| && r[b] == x;
        assert all[b] == x;
      }
    }
  }
}

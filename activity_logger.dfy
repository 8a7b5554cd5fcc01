/**
 * The application activity logger: one entry when an application is added or deleted, and
 * one entry per tracked field that an update actually changed.
 */
module ActivityLogger {
  import opened Common
  import opened Text
  import opened Json
  import opened ActivityLog
  import opened Applications

  /** The fields whose changes are logged, in the order they are compared. */
  const FIELDS_TO_TRACK: seq<string> := ["status", "company", "role", "notes", "source", "salaryRange"]

  /** `record[field]` for the tracked fields. */
  function FieldValue(a: Application, f: string): Val
  {
    if f == "status" then Text(a.status)
    else if f == "company" then Text(a.company)
    else if f == "role" then Text(a.role)
    else if f == "notes" then Text(a.notes)
    else if f == "source" then Text(a.source)
    else if f == "salaryRange" then Salary(a.salaryRange)
    else Val.Null
  }

  /** The comparison of one field: the salary range by its JSON text, the others by `!==`. */
  predicate Differs(o: Application, n: Application, f: string)
  {
    if f == "salaryRange" then Stringify(o.salaryRange) != Stringify(n.salaryRange)
    else FieldValue(o, f) != FieldValue(n, f)
  }

  /** The word used for a field in a combined summary. */
  function Label(f: string): string
  {
    if f == "salaryRange" then "salary range" else f
  }

  function ChangeOf(o: Application, n: Application, f: string): Change
  {
    Change(f, FieldValue(o, f), FieldValue(n, f))
  }

  /** The changes found comparing the fields `fs` in order. */
  function ChangesOver(fs: seq<string>, o: Application, n: Application): seq<Change>
  {
    if fs == [] then []
    else
      var last := fs[|fs| - 1];
      ChangesOver(fs[..|fs| - 1], o, n) + (if Differs(o, n, last) then [ChangeOf(o, n, last)] else [])
  }

  /** The labels pushed alongside those changes. */
  function LabelsOver(fs: seq<string>, o: Application, n: Application): seq<string>
  {
    if fs == [] then []
    else
      var last := fs[|fs| - 1];
      LabelsOver(fs[..|fs| - 1], o, n) + (if Differs(o, n, last) then [Label(last)] else [])
  }

  function Changes(o: Application, n: Application): seq<Change>
  {
    ChangesOver(FIELDS_TO_TRACK, o, n)
  }

  function ChangedLabels(o: Application, n: Application): seq<string>
  {
    LabelsOver(FIELDS_TO_TRACK, o, n)
  }

  /** The comparison loop of `logApplicationUpdated`. */
  method DetectChanges(o: Application, n: Application) returns (changes: seq<Change>, changedFields: seq<string>)
    ensures changes == Changes(o, n) && changedFields == ChangedLabels(o, n)
  {
    changes, changedFields := [], [];
    var i := 0;
    while i < |FIELDS_TO_TRACK|
      invariant 0 <= i <= |FIELDS_TO_TRACK|
      invariant changes == ChangesOver(FIELDS_TO_TRACK[..i], o, n)
      invariant changedFields == LabelsOver(FIELDS_TO_TRACK[..i], o, n)
    {
      var field := FIELDS_TO_TRACK[i];
      assert FIELDS_TO_TRACK[..i + 1][..i] == FIELDS_TO_TRACK[..i];
      if field == "salaryRange" {
        if Stringify(o.salaryRange) != Stringify(n.salaryRange) {
          changes := changes + [Change(field, FieldValue(o, field), FieldValue(n, field))];
          changedFields := changedFields + ["salary range"];
        }
      } else if FieldValue(o, field) != FieldValue(n, field) {
        changes := changes + [Change(field, FieldValue(o, field), FieldValue(n, field))];
        changedFields := changedFields + [field];
      }
      i := i + 1;
    }
    assert FIELDS_TO_TRACK[..i] == FIELDS_TO_TRACK;
  }

  /** Each change is a real difference of a compared field, with its own label, and every difference is found. */
  lemma {:induction false} ChangesOverSpec(fs: seq<string>, o: Application, n: Application)
    ensures var cs := ChangesOver(fs, o, n);
      && |cs| <= |fs| && |LabelsOver(fs, o, n)| == |cs|
      && (forall i :: 0 <= i < |cs| ==>
            && cs[i].field in fs && Differs(o, n, cs[i].field)
            && cs[i] == ChangeOf(o, n, cs[i].field)
            && LabelsOver(fs, o, n)[i] == Label(cs[i].field))
      && (forall f :: f in fs && Differs(o, n, f) ==> ChangeOf(o, n, f) in cs)
  {
    if fs != [] {
      var init := fs[..|fs| - 1];
      ChangesOverSpec(init, o, n);
      assert fs == init + [fs[|fs| - 1]];
    }
  }

  /** A tracked field's position in the comparison order. */
  function Rank(f: string): nat
  {
    if f == "status" then 0
    else if f == "company" then 1
    else if f == "role" then 2
    else if f == "notes" then 3
    else if f == "source" then 4
    else if f == "salaryRange" then 5
    else 6
  }

  /** Fields compared in increasing rank yield changes in increasing rank. */
  lemma {:induction false} ChangesKeepOrder(fs: seq<string>, o: Application, n: Application)
    requires forall i, j :: 0 <= i < j < |fs| ==> Rank(fs[i]) < Rank(fs[j])
    ensures forall i :: 0 <= i < |ChangesOver(fs, o, n)| ==> ChangesOver(fs, o, n)[i].field in fs
    ensures forall i, j :: 0 <= i < j < |ChangesOver(fs, o, n)| ==>
      Rank(ChangesOver(fs, o, n)[i].field) < Rank(ChangesOver(fs, o, n)[j].field)
  {
    if fs != [] {
      var init, f := fs[..|fs| - 1], fs[|fs| - 1];
      ChangesKeepOrder(init, o, n);
      var prev := ChangesOver(init, o, n);
      var cs := ChangesOver(fs, o, n);
      assert cs == prev + (if Differs(o, n, f) then [ChangeOf(o, n, f)] else []);
      forall i | 0 <= i < |prev|
        ensures cs[i] == prev[i] && prev[i].field in init && Rank(prev[i].field) < Rank(f)
      {
        var k :| 0 <= k < |init| && init[k] == prev[i].field;
        assert fs[k] == init[k];
      }
    }
  }

  /** Detected changes come out in the fixed order status, company, role, notes, source, salaryRange. */
  lemma ChangesInTrackedOrder(o: Application, n: Application)
    ensures var cs := Changes(o, n);
      forall i, j :: 0 <= i < j < |cs| ==> Rank(cs[i].field) < Rank(cs[j].field)
  {
    ChangesKeepOrder(FIELDS_TO_TRACK, o, n);
  }

  /** Comparing only fields that agree finds nothing. */
  lemma {:induction false} NoDifferenceNoChanges(fs: seq<string>, o: Application, n: Application)
    requires forall f :: f in fs ==> !Differs(o, n, f)
    ensures ChangesOver(fs, o, n) == []
  {
    if fs != [] {
      NoDifferenceNoChanges(fs[..|fs| - 1], o, n);
    }
  }

  /** The six tracked fields agree. */
  predicate TrackedSame(o: Application, n: Application)
  {
    && o.status == n.status && o.company == n.company && o.role == n.role
    && o.notes == n.notes && o.source == n.source && o.salaryRange == n.salaryRange
  }

  /** Comparing salary ranges by their JSON text is comparing them by value. */
  lemma DiffersIsInequality(o: Application, n: Application, f: string)
    requires f in FIELDS_TO_TRACK
    ensures Differs(o, n, f) <==> FieldValue(o, f) != FieldValue(n, f)
  {
    if f == "salaryRange" {
      StringifyInjective(o.salaryRange, n.salaryRange);
    }
  }

  /** An update logs no change exactly when the six tracked fields are unchanged. */
  lemma NoChangeIffTrackedSame(o: Application, n: Application)
    ensures Changes(o, n) == [] <==> TrackedSame(o, n)
  {
    ChangesOverSpec(FIELDS_TO_TRACK, o, n);
    if !TrackedSame(o, n) {
      var f := if o.status != n.status then "status"
        else if o.company != n.company then "company"
        else if o.role != n.role then "role"
        else if o.notes != n.notes then "notes"
        else if o.source != n.source then "source"
        else "salaryRange";
      DiffersIsInequality(o, n, f);
      assert ChangeOf(o, n, f) in Changes(o, n);
    } else {
      forall f | f in FIELDS_TO_TRACK
        ensures !Differs(o, n, f)
      {
        DiffersIsInequality(o, n, f);
      }
      NoDifferenceNoChanges(FIELDS_TO_TRACK, o, n);
    }
  }

  function StatusSummary(from: string, to: string): string
  {
    "Status changed from " + from + " to " + to
  }

  /** The summary shared by the entries of one update. */
  function SharedSummary(o: Application, n: Application, cs: seq<Change>, labels: seq<string>): string
  {
    if |cs| == 1 then
      if cs[0].field == "status" then StatusSummary(o.status, n.status) else "Updated " + cs[0].field
    else "Updated " + Join(labels, ", ")
  }

  /** A status change in a multi-field update keeps its own summary. */
  function EntrySummary(c: Change, cs: seq<Change>, shared: string, o: Application, n: Application): string
  {
    if |cs| > 1 && c.field == "status" then StatusSummary(o.status, n.status) else shared
  }

  /** The arguments `logApplicationUpdated` passes to `createActivityLog`, in order. */
  function UpdateRecords(userId: string, appId: nat, entityName: string, o: Application, n: Application): seq<LogData>
  {
    var cs := Changes(o, n);
    var shared := SharedSummary(o, n, cs, ChangedLabels(o, n));
    seq(|cs|, i requires 0 <= i < |cs| =>
      LogData(userId, ApplicationEntity, appId, entityName, Updated, Some(cs[i]),
              EntrySummary(cs[i], cs, shared, o, n), Missing))
  }

  /**
   * An update is logged as one `updated` entry per changed tracked field, none when nothing tracked
   * changed; each entry names the application and records the field's old and new value.
   */
  lemma UpdateRecordsChanges(userId: string, appId: nat, entityName: string, o: Application, n: Application)
    ensures var rs := UpdateRecords(userId, appId, entityName, o, n);
      && (rs == [] <==> TrackedSame(o, n))
      && |rs| <= |FIELDS_TO_TRACK|
      && (forall k :: 0 <= k < |rs| ==>
            && rs[k].userId == userId && rs[k].entityType == ApplicationEntity && rs[k].entityId == appId
            && rs[k].entityName == entityName && rs[k].action == Updated && rs[k].userNote == Missing
            && rs[k].changes.Some? && rs[k].changes.value.field in FIELDS_TO_TRACK
            && FieldValue(o, rs[k].changes.value.field) != FieldValue(n, rs[k].changes.value.field)
            && rs[k].changes.value == ChangeOf(o, n, rs[k].changes.value.field))
  {
    var rs := UpdateRecords(userId, appId, entityName, o, n);
    var cs := Changes(o, n);
    ChangesOverSpec(FIELDS_TO_TRACK, o, n);
    NoChangeIffTrackedSame(o, n);
    forall k | 0 <= k < |rs|
      ensures FieldValue(o, cs[k].field) != FieldValue(n, cs[k].field)
    {
      DiffersIsInequality(o, n, cs[k].field);
    }
  }

  /** Every tracked field whose value changed gets an entry. */
  lemma UpdateRecordsCover(userId: string, appId: nat, entityName: string, o: Application, n: Application, f: string)
    requires f in FIELDS_TO_TRACK && FieldValue(o, f) != FieldValue(n, f)
    ensures exists k :: (0 <= k < |UpdateRecords(userId, appId, entityName, o, n)|
      && UpdateRecords(userId, appId, entityName, o, n)[k].changes == Some(ChangeOf(o, n, f)))
  {
    var cs := Changes(o, n);
    ChangesOverSpec(FIELDS_TO_TRACK, o, n);
    DiffersIsInequality(o, n, f);
    var k :| 0 <= k < |cs| && cs[k] == ChangeOf(o, n, f);
    assert UpdateRecords(userId, appId, entityName, o, n)[k].changes == Some(cs[k]);
  }

  /**
   * A status change always reads "Status changed from <old> to <new>"; a lone other change reads
   * "Updated <field>"; the other entries of a multi-field update share "Updated <labels>".
   */
  lemma UpdateRecordsSummaries(userId: string, appId: nat, entityName: string, o: Application, n: Application)
    ensures var rs := UpdateRecords(userId, appId, entityName, o, n);
      && (forall k :: 0 <= k < |rs| && rs[k].changes.value.field == "status" ==>
            rs[k].summary == StatusSummary(o.status, n.status))
      && (|rs| == 1 && rs[0].changes.value.field != "status" ==>
            rs[0].summary == "Updated " + rs[0].changes.value.field)
      && (|rs| > 1 ==> forall k :: 0 <= k < |rs| && rs[k].changes.value.field != "status" ==>
            rs[k].summary == "Updated " + Join(ChangedLabels(o, n), ", "))
  {
  }

  /** `logApplicationUpdated`: compares, summarises, and appends one entry per change. */
  method LogApplicationUpdated(store: LogStore, userId: string, appId: nat, entityName: string,
                               o: Application, n: Application)
    requires store.Valid()
    modifies store
    ensures store.Valid()
    ensures AppendedRecords(old(store.entries), store.entries, Shapes(UpdateRecords(userId, appId, entityName, o, n)))
  {
    ghost var rs := UpdateRecords(userId, appId, entityName, o, n);
    var changes, changedFields := DetectChanges(o, n);
    if |changes| == 0 {
      return;
    }
    var summary := SharedSummary(o, n, changes, changedFields);
    var i := 0;
    while i < |changes|
      invariant 0 <= i <= |changes| && store.Valid()
      invariant |store.entries| == |old(store.entries)| + i
      invariant store.entries[..|old(store.entries)|] == old(store.entries)
      invariant forall k :: 0 <= k < i ==> store.entries[|old(store.entries)| + k].rec == Shape(rs[k])
    {
      var changeSummary := summary;
      if |changes| > 1 && changes[i].field == "status" {
        changeSummary := StatusSummary(o.status, n.status);
      }
      var d := LogData(userId, ApplicationEntity, appId, entityName, Updated, Some(changes[i]), changeSummary, Missing);
      assert d == rs[i];
      var _ := CreateActivityLog(store, d);
      i := i + 1;
    }
  }

  /** The argument `logApplicationCreated` passes to `createActivityLog`. */
  function CreatedRecord(userId: string, a: Application): (d: LogData)
    ensures d.entityName == a.company + " - " + a.role
    ensures d.summary == "Added " + d.entityName + " to applications"
    ensures d.action == Created && d.entityType == ApplicationEntity && d.entityId == a.id && d.changes.None?
  {
    var name := a.company + " - " + a.role;
    LogData(userId, ApplicationEntity, a.id, name, Created, None, "Added " + name + " to applications", Missing)
  }

  method LogApplicationCreated(store: LogStore, userId: string, a: Application)
    requires store.Valid()
    modifies store
    ensures store.Valid()
    ensures store.entries == old(store.entries) + [LogEntry(old(store.nextId), Shape(CreatedRecord(userId, a)), old(store.clock))]
  {
    var _ := CreateActivityLog(store, CreatedRecord(userId, a));
  }

  /** The argument `logApplicationDeleted` passes to `createActivityLog`. */
  function DeletedRecord(userId: string, appId: nat, entityName: string): (d: LogData)
    ensures d.summary == "Deleted " + d.entityName + " application"
    ensures d.entityName == entityName && d.entityId == appId
    ensures d.action == Deleted && d.entityType == ApplicationEntity && d.changes.None?
  {
    LogData(userId, ApplicationEntity, appId, entityName, Deleted, None, "Deleted " + entityName + " application", Missing)
  }

  method LogApplicationDeleted(store: LogStore, userId: string, appId: nat, entityName: string)
    requires store.Valid()
    modifies store
    ensures store.Valid()
    ensures store.entries == old(store.entries) + [LogEntry(old(store.nextId), Shape(DeletedRecord(userId, appId, entityName)), old(store.clock))]
  {
    var _ := CreateActivityLog(store, DeletedRecord(userId, appId, entityName));
  }
}

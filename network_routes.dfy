/**
 * The `/api/network` handlers: id and name checks, the log entries written for contacts,
 * and the field-by-field change log of an update.
 */
module NetworkRoutes {
  import opened Common
  import opened Text
  import opened Http
  import opened ActivityLog
  import opened Network

  /** The record `logActivity` inserts: always a network entry with an empty note. */
  function ActivityRecord(userId: string, entityId: nat, entityName: string, action: Action,
                          changes: Option<Change>, summary: string): LogRecord
  {
    LogRecord(userId, NetworkEntity, entityId, entityName, action, changes, summary, "")
  }

  /** `logActivity`: appends one network entry. */
  method LogActivity(logs: LogStore, rec: LogRecord) returns (e: LogEntry)
    requires logs.Valid()
    modifies logs
    ensures logs.Valid()
    ensures e == LogEntry(old(logs.nextId), rec, old(logs.clock))
    ensures logs.entries == old(logs.entries) + [e]
  {
    e := logs.Append(rec);
  }

  /** `entityName`: the name, with " (company)" exactly when the company is non-empty. */
  function EntityName(c: Contact): (s: string)
    ensures c.company.Some? && c.company.value != "" ==> s == Show(c.name) + " (" + c.company.value + ")"
    ensures !(c.company.Some? && c.company.value != "") ==> s == Show(c.name)
  {
    Show(c.name) + (if c.company.Some? && c.company.value != "" then " (" + c.company.value + ")" else "")
  }

  /** `!name || String(name).trim().length < 2`. */
  predicate NameTooShort(name: Input<string>)
  {
    !Truthy(name) || |Trim(name.value)| < 2
  }

  /** The body of `POST /`. */
  datatype CreateBody = CreateBody(
    name: Input<string>, email: Input<string>, company: Input<string>, role: Input<string>,
    metAt: Input<string>, notes: Input<string>, metDate: Input<DateInput>,
    followUpDate: Input<DateInput>, lastContactedDate: Input<DateInput>)

  /** The body of `POST /from-application`. */
  datatype BridgeBody = BridgeBody(
    name: Input<string>, email: Input<string>, company: Input<string>, role: Input<string>,
    notes: Input<string>, followUpDate: Input<DateInput>, metAt: Input<string>)

  /** The contact `POST /from-application` asks for: met now, "other" and "" by default. */
  function BridgeContact(userId: string, b: BridgeBody, now: int): (d: NewContact)
    requires Truthy(b.name)
    ensures Truthy(d.metAt) && Truthy(b.metAt) ==> d.metAt.value == b.metAt.value
    ensures !Truthy(b.metAt) ==> d.metAt == Given("other")
    ensures !Truthy(b.notes) ==> d.notes == Given("")
    ensures d.metDate == Given(DateObject(now)) && d.lastContactedDate == Missing
  {
    NewContact(userId, b.name.value, b.email, b.company, b.role,
               Given(OrDefault(b.metAt, "other")), Given(OrDefault(b.notes, "")),
               Given(DateObject(now)),
               if DateTruthy(b.followUpDate) then b.followUpDate else Input.Null, Missing)
  }

  /** The entry a creation logs; `suffix` is " (from application)" on the bridge route. */
  function CreatedRecord(userId: string, c: Contact, suffix: string): (r: LogRecord)
    ensures r.summary == "Added " + EntityName(c) + " to network" + suffix
    ensures r.entityType == NetworkEntity && r.action == Created && r.entityId == c.id && r.userNote == ""
  {
    ActivityRecord(userId, c.id, EntityName(c), Created, None, "Added " + EntityName(c) + " to network" + suffix)
  }

  /** Creation shared by both POST routes: 400 for a short name, 500 for a refused contact, else 201 and one entry. */
  method CreateWith(store: ContactStore, logs: LogStore, userId: string, name: Input<string>,
                    d: NewContact, suffix: string, now: int) returns (r: Reply<Contact>)
    requires store.Valid() && logs.Valid()
    modifies store, logs
    ensures store.Valid() && logs.Valid()
    ensures NameTooShort(name) ==> r == Failure(BAD_REQUEST)
    ensures !NameTooShort(name) ==> (r == Failure(SERVER_ERROR) <==> CreateError(d).Some?)
    ensures r.Success? <==> !NameTooShort(name) && CreateError(d).None?
    ensures r.Failure? ==> store.contacts == old(store.contacts) && logs.entries == old(logs.entries)
    ensures r.Success? ==> (r.code == CREATED
      && r.payload == NewRecord(d, old(store.nextId), now)
      && store.contacts == old(store.contacts) + [r.payload]
      && logs.entries == old(logs.entries) + [LogEntry(old(logs.nextId), CreatedRecord(userId, r.payload, suffix), old(logs.clock))])
  {
    if NameTooShort(name) {
      return Failure(BAD_REQUEST);
    }
    var created := store.Create(d, now);
    if created.Err? {
      return Failure(SERVER_ERROR);
    }
    var _ := LogActivity(logs, CreatedRecord(userId, created.value, suffix));
    return Success(CREATED, created.value);
  }

  /** The contact `POST /` hands to `createNetworkContact`: the body as sent. */
  function BodyContact(userId: string, b: CreateBody): NewContact
  {
    var name := if Truthy(b.name) then b.name.value else "";
    NewContact(userId, name, b.email, b.company, b.role, b.metAt, b.notes,
               b.metDate, b.followUpDate, b.lastContactedDate)
  }

  /** `POST /`: 400 for a short name, 500 when `metAt` or a date is refused, else 201 with the stored contact and one entry. */
  method CreateRoute(store: ContactStore, logs: LogStore, userId: string, b: CreateBody, now: int)
    returns (r: Reply<Contact>)
    requires store.Valid() && logs.Valid()
    modifies store, logs
    ensures store.Valid() && logs.Valid()
    ensures NameTooShort(b.name) ==> r == Failure(BAD_REQUEST)
    ensures !NameTooShort(b.name) ==> (r == Failure(SERVER_ERROR) <==> CreateError(BodyContact(userId, b)).Some?)
    ensures r.Success? <==> !NameTooShort(b.name) && CreateError(BodyContact(userId, b)).None?
    ensures r.Failure? ==> store.contacts == old(store.contacts) && logs.entries == old(logs.entries)
    ensures r.Success? ==> (r.code == CREATED && r.payload.name == Some(Trim(b.name.value))
      && r.payload == NewRecord(BodyContact(userId, b), old(store.nextId), now)
      && store.contacts == old(store.contacts) + [r.payload]
      && logs.entries == old(logs.entries) + [LogEntry(old(logs.nextId), CreatedRecord(userId, r.payload, ""), old(logs.clock))])
  {
    r := CreateWith(store, logs, userId, b.name, BodyContact(userId, b), "", now);
  }

  /**
   * `POST /from-application`: the same checks, a contact met now, and " (from application)" in
   * the summary.
   */
  method BridgeRoute(store: ContactStore, logs: LogStore, userId: string, b: BridgeBody, now: int)
    returns (r: Reply<Contact>)
    requires store.Valid() && logs.Valid()
    modifies store, logs
    ensures store.Valid() && logs.Valid()
    ensures NameTooShort(b.name) ==> r == Failure(BAD_REQUEST)
    ensures !NameTooShort(b.name) ==> (r == Failure(SERVER_ERROR) <==> CreateError(BridgeContact(userId, b, now)).Some?)
    ensures r.Success? <==> !NameTooShort(b.name) && CreateError(BridgeContact(userId, b, now)).None?
    ensures r.Failure? ==> store.contacts == old(store.contacts) && logs.entries == old(logs.entries)
    ensures r.Success? ==> (r.code == CREATED && r.payload.metDate == At(now)
      && r.payload == NewRecord(BridgeContact(userId, b, now), old(store.nextId), now)
      && (!Truthy(b.metAt) ==> r.payload.metAt == Some("other"))
      && store.contacts == old(store.contacts) + [r.payload]
      && logs.entries == old(logs.entries)
        + [LogEntry(old(logs.nextId), CreatedRecord(userId, r.payload, " (from application)"), old(logs.clock))])
  {
    if NameTooShort(b.name) {
      return Failure(BAD_REQUEST);
    }
    r := CreateWith(store, logs, userId, b.name, BridgeContact(userId, b, now), " (from application)", now);
  }

  /** `GET /:id`: 400 for a malformed id, 404 for a contact the user does not own. */
  function GetOne(cs: seq<Contact>, id: Option<nat>, userId: string): (r: Reply<Contact>)
    ensures id.None? ==> r == Failure(BAD_REQUEST)
    ensures r.Success? ==> r.code == OK && id.Some? && r.payload in cs && Owns(r.payload, id.value, userId)
    ensures id.Some? && r.Failure? ==> r.code == NOT_FOUND && forall c :: c in cs ==> !Owns(c, id.value, userId)
  {
    if id.None? then Failure(BAD_REQUEST)
    else
      match FindById(cs, id.value, userId)
      case None => Failure(NOT_FOUND)
      case Some(c) => Success(OK, c)
  }

  /** The fields whose changes an update logs, in order. */
  const FIELDS_TO_CHECK: seq<string> :=
    ["name", "email", "company", "role", "metAt", "notes", "metDate", "followUpDate", "lastContactedDate"]

  function TextValue(o: Option<string>): Val
  {
    if o.Some? then Text(o.value) else Val.Null
  }

  function DateValue(w: When): Val
  {
    match w
    case Unset => Val.Null
    case At(ms) => Instant(ms)
    case BlankText => Text("")
  }

  /** `doc[field] ?? null`: a date keeps its instant, so two dates compare by the instant they denote. */
  function FieldValue(c: Contact, f: string): Val
  {
    if f == "name" then TextValue(c.name)
    else if f == "email" then TextValue(c.email)
    else if f == "company" then TextValue(c.company)
    else if f == "role" then TextValue(c.role)
    else if f == "metAt" then TextValue(c.metAt)
    else if f == "notes" then TextValue(c.notes)
    else if f == "metDate" then DateValue(c.metDate)
    else if f == "followUpDate" then DateValue(c.followUpDate)
    else if f == "lastContactedDate" then DateValue(c.lastContactedDate)
    else Val.Null
  }

  /** The entry logged for one changed field. */
  function ChangeRecord(userId: string, o: Contact, n: Contact, f: string): LogRecord
  {
    ActivityRecord(userId, n.id, EntityName(n), Updated, Some(Change(f, FieldValue(o, f), FieldValue(n, f))),
                   "Updated " + Show(n.name) + "'s " + f)
  }

  /** The entries logged comparing the fields `fs` in order. */
  function ChangeRecordsOver(fs: seq<string>, userId: string, o: Contact, n: Contact): seq<LogRecord>
  {
    if fs == [] then []
    else
      var f := fs[|fs| - 1];
      ChangeRecordsOver(fs[..|fs| - 1], userId, o, n)
        + (if FieldValue(o, f) != FieldValue(n, f) then [ChangeRecord(userId, o, n, f)] else [])
  }

  function ChangeRecords(userId: string, o: Contact, n: Contact): seq<LogRecord>
  {
    ChangeRecordsOver(FIELDS_TO_CHECK, userId, o, n)
  }

  /** Comparing one more field adds its entry when it differs. */
  lemma ChangeRecordsOverSnoc(fs: seq<string>, f: string, userId: string, o: Contact, n: Contact)
    ensures ChangeRecordsOver(fs + [f], userId, o, n) == ChangeRecordsOver(fs, userId, o, n)
      + (if FieldValue(o, f) != FieldValue(n, f) then [ChangeRecord(userId, o, n, f)] else [])
  {
    assert (fs + [f])[..|fs|] == fs;
  }

  /** The comparison loop of `PUT /:id`: one entry per differing field. */
  method LogChanges(logs: LogStore, userId: string, existing: Contact, updated: Contact)
    requires logs.Valid()
    modifies logs
    ensures logs.Valid()
    ensures AppendedRecords(old(logs.entries), logs.entries, ChangeRecords(userId, existing, updated))
  {
    var i := 0;
    while i < |FIELDS_TO_CHECK|
      invariant 0 <= i <= |FIELDS_TO_CHECK| && logs.Valid()
      invariant AppendedRecords(old(logs.entries), logs.entries, ChangeRecordsOver(FIELDS_TO_CHECK[..i], userId, existing, updated))
    {
      var field := FIELDS_TO_CHECK[i];
      ghost var done := ChangeRecordsOver(FIELDS_TO_CHECK[..i], userId, existing, updated);
      assert FIELDS_TO_CHECK[..i + 1] == FIELDS_TO_CHECK[..i] + [field];
      ChangeRecordsOverSnoc(FIELDS_TO_CHECK[..i], field, userId, existing, updated);
      if FieldValue(existing, field) != FieldValue(updated, field) {
        ghost var mid := logs.entries;
        var e := LogActivity(logs, ChangeRecord(userId, existing, updated, field));
        AppendedOne(old(logs.entries), mid, done, e);
      }
      i := i + 1;
    }
    assert FIELDS_TO_CHECK[..i] == FIELDS_TO_CHECK;
  }

  /** Each entry is an `updated` network entry for a checked field that differs, naming the owner's contact. */
  lemma {:induction false} ChangeRecordsOverSpec(fs: seq<string>, userId: string, o: Contact, n: Contact)
    ensures |ChangeRecordsOver(fs, userId, o, n)| <= |fs|
    ensures forall k :: 0 <= k < |ChangeRecordsOver(fs, userId, o, n)| ==>
      var r := ChangeRecordsOver(fs, userId, o, n)[k];
      && r.changes.Some? && r.changes.value.field in fs
      && r == ChangeRecord(userId, o, n, r.changes.value.field)
      && FieldValue(o, r.changes.value.field) != FieldValue(n, r.changes.value.field)
    ensures forall f :: f in fs && FieldValue(o, f) != FieldValue(n, f) ==>
      ChangeRecord(userId, o, n, f) in ChangeRecordsOver(fs, userId, o, n)
  {
    if fs != [] {
      ChangeRecordsOverSpec(fs[..|fs| - 1], userId, o, n);
      assert fs == fs[..|fs| - 1] + [fs[|fs| - 1]];
    }
  }

  /** Comparing only fields that agree logs nothing. */
  lemma {:induction false} NoDifferenceNoRecords(fs: seq<string>, userId: string, o: Contact, n: Contact)
    requires forall f :: f in fs ==> FieldValue(o, f) == FieldValue(n, f)
    ensures ChangeRecordsOver(fs, userId, o, n) == []
  {
    if fs != [] {
      NoDifferenceNoRecords(fs[..|fs| - 1], userId, o, n);
    }
  }

  /**
   * An update logs one entry per checked field whose value changed, each summarised
   * "Updated <name>'s <field>", and nothing when none of the nine changed.
   */
  lemma ChangeRecordsSpec(userId: string, o: Contact, n: Contact)
    ensures ChangeRecords(userId, o, n) == [] <==> forall f :: f in FIELDS_TO_CHECK ==> FieldValue(o, f) == FieldValue(n, f)
    ensures forall r :: r in ChangeRecords(userId, o, n) ==>
      && r.entityType == NetworkEntity && r.action == Updated && r.userId == userId && r.userNote == ""
      && r.entityId == n.id && r.entityName == EntityName(n)
      && r.changes.Some? && r.changes.value.field in FIELDS_TO_CHECK
      && r.changes.value.oldValue != r.changes.value.newValue
      && r.summary == "Updated " + Show(n.name) + "'s " + r.changes.value.field
  {
    ChangeRecordsOverSpec(FIELDS_TO_CHECK, userId, o, n);
    if forall f :: f in FIELDS_TO_CHECK ==> FieldValue(o, f) == FieldValue(n, f) {
      NoDifferenceNoRecords(FIELDS_TO_CHECK, userId, o, n);
    }
    forall r | r in ChangeRecords(userId, o, n)
      ensures r.changes.Some? && r.changes.value.oldValue != r.changes.value.newValue
    {
      var k :| 0 <= k < |ChangeRecords(userId, o, n)| && ChangeRecords(userId, o, n)[k] == r;
    }
  }

  /**
   * `PUT /:id`: 400 for a malformed id, 404 for a contact the user does not own, 500 when the
   * update is refused; otherwise the contact is updated and each changed field logged.
   */
  method UpdateRoute(store: ContactStore, logs: LogStore, userId: string, id: Option<nat>,
                     body: ContactPatch, now: int) returns (r: Reply<Contact>)
    requires store.Valid() && logs.Valid()
    modifies store, logs
    ensures store.Valid() && logs.Valid()
    ensures id.None? ==> r == Failure(BAD_REQUEST)
    ensures id.Some? && FindById(old(store.contacts), id.value, userId).None? ==> r == Failure(NOT_FOUND)
    ensures id.Some? && FindById(old(store.contacts), id.value, userId).Some? ==>
      (r == Failure(SERVER_ERROR) <==> UpdateError(body).Some?)
    ensures r.Success? <==> id.Some? && FindById(old(store.contacts), id.value, userId).Some? && UpdateError(body).None?
    ensures r.Failure? ==> store.contacts == old(store.contacts) && logs.entries == old(logs.entries)
    ensures r.Success? ==> r.code == OK
    ensures r.Success? ==>
      var before := FindById(old(store.contacts), id.value, userId).value;
      && r.payload == Patched(before, body, now)
      && (exists i :: (0 <= i < |old(store.contacts)| && Owns(old(store.contacts)[i], id.value, userId)
            && store.contacts == old(store.contacts)[i := r.payload]))
      && AppendedRecords(old(logs.entries), logs.entries, ChangeRecords(userId, before, r.payload))
  {
    if id.None? {
      return Failure(BAD_REQUEST);
    }
    var existing := FindById(store.contacts, id.value, userId);
    if existing.None? {
      return Failure(NOT_FOUND);
    }
    var result := store.Update(id.value, userId, body, now);
    if result.Err? {
      return Failure(SERVER_ERROR);
    }
    if result.value.None? {
      return Failure(NOT_FOUND);
    }
    var updated := result.value.value;
    ghost var i :| 0 <= i < |old(store.contacts)| && Owns(old(store.contacts)[i], id.value, userId)
      && updated == Patched(old(store.contacts)[i], body, now) && store.contacts == old(store.contacts)[i := updated];
    OwnerUnique(old(store.contacts), id.value, userId, existing.value);
    assert store.contacts[i] == updated;
    LogChanges(logs, userId, existing.value, updated);
    return Success(OK, updated);
  }

  /** Ids are unique, so the contact `FindById` returns is the one at any position that matches. */
  lemma OwnerUnique(cs: seq<Contact>, id: nat, userId: string, c: Contact)
    requires UniqueIds(cs) && FindById(cs, id, userId) == Some(c)
    ensures forall i :: 0 <= i < |cs| && Owns(cs[i], id, userId) ==> cs[i] == c
  {
    var j :| 0 <= j < |cs| && cs[j] == c;
  }

  /** The entry a deletion logs, named after the contact as it was. */
  function DeletedRecord(userId: string, c: Contact): (r: LogRecord)
    ensures r.summary == "Deleted " + EntityName(c) + " from network"
    ensures r.entityType == NetworkEntity && r.action == Deleted && r.entityId == c.id && r.changes.None?
  {
    ActivityRecord(userId, c.id, EntityName(c), Deleted, None, "Deleted " + EntityName(c) + " from network")
  }

  /** `DELETE /:id`: 400 for a malformed id, 404 for a contact the user does not own; else removed and logged. */
  method DeleteRoute(store: ContactStore, logs: LogStore, userId: string, id: Option<nat>) returns (r: Reply<()>)
    requires store.Valid() && logs.Valid()
    modifies store, logs
    ensures store.Valid() && logs.Valid()
    ensures id.None? ==> r == Failure(BAD_REQUEST)
    ensures id.Some? && FindById(old(store.contacts), id.value, userId).None? ==> r == Failure(NOT_FOUND)
    ensures id.Some? && FindById(old(store.contacts), id.value, userId).Some? ==> r.Success?
    ensures r.Failure? ==> store.contacts == old(store.contacts) && logs.entries == old(logs.entries)
    ensures r.Success? ==> r.code == OK && id.Some? && FindById(old(store.contacts), id.value, userId).Some?
    ensures r.Success? ==>
      var before := FindById(old(store.contacts), id.value, userId).value;
      && (exists i :: (0 <= i < |old(store.contacts)| && Owns(old(store.contacts)[i], id.value, userId)
            && store.contacts == old(store.contacts)[..i] + old(store.contacts)[i + 1..]))
      && logs.entries == old(logs.entries) + [LogEntry(old(logs.nextId), DeletedRecord(userId, before), old(logs.clock))]
  {
    if id.None? {
      return Failure(BAD_REQUEST);
    }
    var existing := FindById(store.contacts, id.value, userId);
    if existing.None? {
      return Failure(NOT_FOUND);
    }
    var ok := store.Delete(id.value, userId);
    if !ok {
      return Failure(NOT_FOUND);
    }
    var _ := LogActivity(logs, DeletedRecord(userId, existing.value));
    return Success(OK, ());
  }
}

/**
 * The `/api/applications` handlers: the required-field check, the whitelist of updatable keys,
 * the mapping of store outcomes to status codes, and logging only after a successful write.
 */
module ApplicationRoutes {
  import opened Common
  import opened Json
  import opened Http
  import opened ActivityLog
  import opened Applications
  import opened ActivityLogger
  import opened ApplicationStats
  import opened Streak

  /** A date sent in a body: its text, which decides truthiness, and the instant it denotes. */
  datatype DateArg = DateArg(text: string, ms: int)

  /** The body of `POST /`. */
  datatype CreateBody = CreateBody(
    company: Input<string>, role: Input<string>, status: Input<string>, source: Input<string>,
    dateApplied: Input<DateArg>, notes: Input<string>, salaryRange: Input<SalaryRange>,
    contacts: Input<seq<string>>)

  /** `!company || !role || !dateApplied`. */
  predicate MissingRequired(b: CreateBody)
  {
    !Truthy(b.company) || !Truthy(b.role) || !(b.dateApplied.Given? && b.dateApplied.value.text != "")
  }

  /** The keys `PUT /:id` copies from its body. */
  const ALLOWED_UPDATES: seq<string> :=
    ["company", "role", "status", "source", "dateApplied", "notes", "salaryRange", "contacts"]

  /** A key outside the whitelist, such as `_id`, `userId` or `createdAt`. */
  type ExtraKey = k: string | k !in ALLOWED_UPDATES witness "_id"

  /** One key of a `PUT /:id` body, in `Object.keys` order. */
  datatype BodyField =
    | Company(company: string) | Role(role: string) | Status(status: string) | Source(source: string)
    | DateApplied(dateApplied: int) | Notes(notes: string) | SalaryRangeField(range: SalaryRange)
    | Contacts(contacts: seq<string>) | Extra(key: ExtraKey)

  function Key(f: BodyField): string
  {
    match f
    case Company(_) => "company"
    case Role(_) => "role"
    case Status(_) => "status"
    case Source(_) => "source"
    case DateApplied(_) => "dateApplied"
    case Notes(_) => "notes"
    case SalaryRangeField(_) => "salaryRange"
    case Contacts(_) => "contacts"
    case Extra(k) => k
  }

  /** `updates[key] = req.body[key]` for a whitelisted key. */
  function Copy(p: AppPatch, f: BodyField): AppPatch
  {
    match f
    case Company(c) => p.(company := Some(c))
    case Role(r) => p.(role := Some(r))
    case Status(s) => p.(status := Some(s))
    case Source(s) => p.(source := Some(s))
    case DateApplied(d) => p.(dateApplied := Some(d))
    case Notes(n) => p.(notes := Some(n))
    case SalaryRangeField(r) => p.(salaryRange := Some(r))
    case Contacts(cs) => p.(contacts := Some(cs))
    case Extra(_) => p
  }

  /** The update object the whitelist loop builds from the first `n` keys of the body. */
  function Picked(body: seq<BodyField>): AppPatch
  {
    if body == [] then EMPTY_PATCH
    else
      var f := body[|body| - 1];
      var p := Picked(body[..|body| - 1]);
      if Key(f) in ALLOWED_UPDATES then Copy(p, f) else p
  }

  /** The `forEach` over the body's keys. */
  method PickAllowed(body: seq<BodyField>) returns (updates: AppPatch)
    ensures updates == Picked(body)
  {
    updates := EMPTY_PATCH;
    for i := 0 to |body|
      invariant updates == Picked(body[..i])
    {
      assert body[..i + 1][..i] == body[..i];
      if Key(body[i]) in ALLOWED_UPDATES {
        updates := Copy(updates, body[i]);
      }
    }
    assert body[..|body|] == body;
  }

  /**
   * The update object never carries `_id`, `userId`, `createdAt` or the timestamps, and it is empty
   * exactly when the body has no whitelisted key.
   */
  lemma {:induction false} PickedSpec(body: seq<BodyField>)
    ensures Picked(body).id.None? && Picked(body).userId.None? && Picked(body).createdAt.None?
    ensures Picked(body).lastUpdated.None? && Picked(body).updatedAt.None?
    ensures Picked(body) == EMPTY_PATCH <==> forall i :: 0 <= i < |body| ==> Key(body[i]) !in ALLOWED_UPDATES
  {
    if body != [] {
      var init, f := body[..|body| - 1], body[|body| - 1];
      PickedSpec(init);
      assert forall i :: 0 <= i < |init| ==> body[i] == init[i];
      if Key(f) in ALLOWED_UPDATES {
        assert Picked(body) == Copy(Picked(init), f) != EMPTY_PATCH;
      } else {
        assert Picked(body) == Picked(init);
      }
    }
  }

  /** `entityName` of an application's log entries. */
  function EntityName(a: Application): string
  {
    a.company + " - " + a.role
  }

  /** `GET /:id`: a malformed id fails in the store call; the record must belong to the user. */
  function GetOne(apps: seq<Application>, id: Option<nat>, userId: string): (r: Reply<Application>)
    ensures id.None? ==> r == Failure(SERVER_ERROR)
    ensures r.Success? ==> r.code == OK && id.Some? && r.payload in apps && Owns(r.payload, id.value, userId)
    ensures id.Some? && r.Failure? ==> r.code == NOT_FOUND && forall a :: a in apps ==> !Owns(a, id.value, userId)
  {
    if id.None? then Failure(SERVER_ERROR)
    else
      match FindById(apps, id.value, userId)
      case None => Failure(NOT_FOUND)
      case Some(a) => Success(OK, a)
  }

  /** The argument `POST /` hands to `createApplication`, once the required fields are known to be sent. */
  function CreateData(userId: string, b: CreateBody): NewApplication
    requires !MissingRequired(b)
  {
    NewApplication(userId, b.company.value, b.role.value, b.status, b.source,
                   b.dateApplied.value.ms, b.notes, b.salaryRange, b.contacts)
  }

  /**
   * `POST /`: 400 without company, role and date; 500 on a bad status; 409 when the unique key is
   * taken; else 201 with the stored record and one log entry.
   */
  method CreateRoute(store: AppStore, logs: LogStore, userId: string, body: CreateBody, now: int)
    returns (r: Reply<Application>)
    requires store.Valid() && logs.Valid()
    modifies store, logs
    ensures store.Valid() && logs.Valid()
    ensures MissingRequired(body) ==> r == Failure(BAD_REQUEST)
    ensures !MissingRequired(body) ==> (r == Failure(SERVER_ERROR) <==> StatusRejected(body.status))
    ensures !MissingRequired(body) ==> (r == Failure(CONFLICT) <==>
      (!StatusRejected(body.status)
        && KeyTakenBesides(old(store.apps), KeyOf(NewRecord(CreateData(userId, body), old(store.nextId), now)), -1)))
    ensures r.Success? <==>
      (!MissingRequired(body) && !StatusRejected(body.status)
        && !KeyTakenBesides(old(store.apps), KeyOf(NewRecord(CreateData(userId, body), old(store.nextId), now)), -1))
    ensures r.Failure? ==> store.apps == old(store.apps) && logs.entries == old(logs.entries)
    ensures r.Success? ==> (r.code == CREATED
      && r.payload == NewRecord(CreateData(userId, body), old(store.nextId), now)
      && store.apps == old(store.apps) + [r.payload]
      && logs.entries == old(logs.entries) + [LogEntry(old(logs.nextId), Shape(CreatedRecord(userId, r.payload)), old(logs.clock))])
  {
    if MissingRequired(body) {
      return Failure(BAD_REQUEST);
    }
    var data := CreateData(userId, body);
    var created := store.Create(data, now);
    if created.Err? {
      if created.error == DuplicateApplication {
        return Failure(CONFLICT);
      }
      return Failure(SERVER_ERROR);
    }
    LogApplicationCreated(logs, userId, created.value);
    return Success(CREATED, created.value);
  }

  /**
   * `PUT /:id`: 500 for a malformed id, 404 for a record the user does not own, 400 when no
   * whitelisted key is sent or the status is invalid, 500 when the new key is taken; otherwise
   * the record is updated and one entry per changed tracked field is logged.
   */
  method UpdateRoute(store: AppStore, logs: LogStore, userId: string, id: Option<nat>,
                     body: seq<BodyField>, now: int) returns (r: Reply<Application>)
    requires store.Valid() && logs.Valid()
    modifies store, logs
    ensures store.Valid() && logs.Valid()
    ensures id.None? ==> r == Failure(SERVER_ERROR)
    ensures id.Some? && FindById(old(store.apps), id.value, userId).None? ==> r == Failure(NOT_FOUND)
    ensures id.Some? && FindById(old(store.apps), id.value, userId).Some? && Picked(body) == EMPTY_PATCH
      ==> r == Failure(BAD_REQUEST)
    ensures id.Some? && FindById(old(store.apps), id.value, userId).Some? && Picked(body) != EMPTY_PATCH ==>
      && (r == Failure(BAD_REQUEST) <==> StatusRefused(Picked(body)))
      && (r == Failure(SERVER_ERROR) <==>
            !StatusRefused(Picked(body)) && UpdatedKeyTaken(old(store.apps), id.value, userId, Picked(body), now))
      && (r.Success? <==>
            !StatusRefused(Picked(body)) && !UpdatedKeyTaken(old(store.apps), id.value, userId, Picked(body), now))
    ensures r.Failure? ==> store.apps == old(store.apps) && logs.entries == old(logs.entries)
    ensures r.Success? ==> r.code == OK && id.Some? && FindById(old(store.apps), id.value, userId).Some?
    ensures r.Success? ==>
      var before := FindById(old(store.apps), id.value, userId).value;
      && r.payload == AfterUpdate(before, Picked(body), now)
      && (exists i :: (0 <= i < |old(store.apps)| && Owns(old(store.apps)[i], id.value, userId)
            && !KeyTakenBesides(old(store.apps), KeyOf(r.payload), i)
            && store.apps == old(store.apps)[i := r.payload]))
      && AppendedRecords(old(logs.entries), logs.entries,
           Shapes(UpdateRecords(userId, id.value, EntityName(r.payload), before, r.payload)))
  {
    if id.None? {
      return Failure(SERVER_ERROR);
    }
    var oldApplication := FindById(store.apps, id.value, userId);
    if oldApplication.None? {
      return Failure(NOT_FOUND);
    }
    var updates := PickAllowed(body);
    if updates == EMPTY_PATCH {
      return Failure(BAD_REQUEST);
    }
    var result := store.Update(id.value, userId, updates, now);
    if result.Err? {
      if result.error == InvalidStatus {
        return Failure(BAD_REQUEST);
      }
      return Failure(SERVER_ERROR);
    }
    if result.value.None? {
      return Failure(NOT_FOUND);
    }
    var application := result.value.value;
    ghost var i :| 0 <= i < |old(store.apps)| && Owns(old(store.apps)[i], id.value, userId)
      && application == AfterUpdate(old(store.apps)[i], updates, now);
    OwnerUnique(old(store.apps), id.value, userId, oldApplication.value);
    assert store.apps[i] == application;
    LogApplicationUpdated(logs, userId, id.value, EntityName(application), oldApplication.value, application);
    return Success(OK, application);
  }

  /** The update object sends a status outside the enum, which `updateApplication` refuses. */
  predicate StatusRefused(p: AppPatch)
  {
    p.status.Some? && StatusRejected(Given(p.status.value))
  }

  /** The record `id` owned by `userId`, once updated, would take another record's unique key. */
  predicate UpdatedKeyTaken(apps: seq<Application>, id: nat, userId: string, p: AppPatch, now: int)
  {
    exists i :: 0 <= i < |apps| && Owns(apps[i], id, userId)
      && KeyTakenBesides(apps, KeyOf(AfterUpdate(apps[i], p, now)), i)
  }

  /** Ids are unique, so the record `FindById` returns is the one at any position that matches. */
  lemma OwnerUnique(apps: seq<Application>, id: nat, userId: string, a: Application)
    requires UniqueIds(apps) && FindById(apps, id, userId) == Some(a)
    ensures forall i :: 0 <= i < |apps| && Owns(apps[i], id, userId) ==> apps[i] == a
  {
    var j :| 0 <= j < |apps| && apps[j] == a;
  }

  /** `DELETE /:id`: 500 for a malformed id, 404 for a record the user does not own; else removed and logged under its old name. */
  method DeleteRoute(store: AppStore, logs: LogStore, userId: string, id: Option<nat>) returns (r: Reply<()>)
    requires store.Valid() && logs.Valid()
    modifies store, logs
    ensures store.Valid() && logs.Valid()
    ensures id.None? ==> r == Failure(SERVER_ERROR)
    ensures id.Some? && FindById(old(store.apps), id.value, userId).None? ==> r == Failure(NOT_FOUND)
    ensures id.Some? && FindById(old(store.apps), id.value, userId).Some? ==> r.Success?
    ensures r.Failure? ==> store.apps == old(store.apps) && logs.entries == old(logs.entries)
    ensures r.Success? ==> r.code == OK && id.Some? && FindById(old(store.apps), id.value, userId).Some?
    ensures r.Success? ==>
      var before := FindById(old(store.apps), id.value, userId).value;
      && (exists i :: (0 <= i < |old(store.apps)| && Owns(old(store.apps)[i], id.value, userId)
            && store.apps == old(store.apps)[..i] + old(store.apps)[i + 1..]))
      && logs.entries == old(logs.entries)
        + [LogEntry(old(logs.nextId), Shape(DeletedRecord(userId, id.value, EntityName(before))), old(logs.clock))]
  {
    if id.None? {
      return Failure(SERVER_ERROR);
    }
    var application := FindById(store.apps, id.value, userId);
    if application.None? {
      return Failure(NOT_FOUND);
    }
    var deleted := store.Delete(id.value, userId);
    if !deleted {
      return Failure(NOT_FOUND);
    }
    LogApplicationDeleted(logs, userId, id.value, EntityName(application.value));
    return Success(OK, ());
  }

  /** `GET /streak`: the streak over the user's own application dates. */
  method StreakRoute(apps: seq<Application>, userId: string, now: int) returns (currentStreak: nat, longestStreak: nat)
    ensures var dates := AppliedDates(Owned(apps, userId));
      && (dates == [] ==> currentStreak == 0 && longestStreak == 0)
      && (dates != [] ==>
        var u := DistinctDaysDesc(Days(dates));
        && currentStreak == CurrentStreak(u, Day(now)) && longestStreak == LongestRun(u)
        && currentStreak <= longestStreak && longestStreak >= 1)
  {
    var dates := AppliedDates(Owned(apps, userId));
    currentStreak, longestStreak := GetStreak(dates, now);
    StreakBounds(DistinctDaysDesc(Days(dates)), Day(now));
  }

  function AppliedDates(apps: seq<Application>): (r: seq<int>)
    ensures |r| == |apps| && forall i :: 0 <= i < |apps| ==> r[i] == apps[i].dateApplied
  {
    seq(|apps|, i requires 0 <= i < |apps| => apps[i].dateApplied)
  }
}

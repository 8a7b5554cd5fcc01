/**
 * The `applications` collection: validation and shaping of new records, the unique key
 * (userId, company, role, dateApplied), updates that never touch the protected fields, and deletion.
 */
module Applications {
  import opened Common
  import opened Text
  import opened Json

  /** The status enum. */
  const VALID_STATUSES: seq<string> := ["applied", "screening", "interviewing", "offer", "rejected", "withdrawn"]

  datatype Application = Application(
    id: nat, userId: string, company: string, role: string, status: string, source: string,
    dateApplied: int, lastUpdated: int, notes: string, salaryRange: SalaryRange,
    contacts: seq<string>, createdAt: int, updatedAt: int)

  /** The argument of `createApplication`. */
  datatype NewApplication = NewApplication(
    userId: string, company: string, role: string, status: Input<string>, source: Input<string>,
    dateApplied: int, notes: Input<string>, salaryRange: Input<SalaryRange>, contacts: Input<seq<string>>)

  datatype AppError = InvalidStatus | DuplicateApplication

  datatype Result<T> = Ok(value: T) | Err(error: AppError)

  /** A status that is sent (truthy) and outside the enum is refused; "" and null are not checked. */
  predicate StatusRejected(status: Input<string>)
  {
    Truthy(status) && status.value !in VALID_STATUSES
  }

  /** `x || dflt` on an object-valued body key: any object is truthy. */
  function ObjectOr<T>(i: Input<T>, dflt: T): T
  {
    if i.Given? then i.value else dflt
  }

  /** The record `createApplication` inserts. */
  function NewRecord(data: NewApplication, id: nat, now: int): (a: Application)
    ensures !StatusRejected(data.status) ==> a.status in VALID_STATUSES
    ensures a.company == Trim(data.company) && a.role == Trim(data.role)
    ensures !Truthy(data.status) ==> a.status == "applied"
    ensures !Truthy(data.source) ==> a.source == "other"
    ensures !Truthy(data.notes) ==> a.notes == ""
    ensures !data.salaryRange.Given? ==> a.salaryRange == NO_SALARY
    ensures !data.contacts.Given? ==> a.contacts == []
    ensures Truthy(data.status) ==> a.status == data.status.value
    ensures Truthy(data.source) ==> a.source == data.source.value
    ensures Truthy(data.notes) ==> a.notes == data.notes.value
    ensures data.salaryRange.Given? ==> a.salaryRange == data.salaryRange.value
    ensures data.contacts.Given? ==> a.contacts == data.contacts.value
    ensures a.id == id && a.userId == data.userId && a.dateApplied == data.dateApplied
    ensures a.lastUpdated == a.createdAt == a.updatedAt == now
  {
    Application(
      id, data.userId, Trim(data.company), Trim(data.role),
      OrDefault(data.status, "applied"), OrDefault(data.source, "other"),
      data.dateApplied, now, OrDefault(data.notes, ""),
      ObjectOr(data.salaryRange, NO_SALARY), ObjectOr(data.contacts, []), now, now)
  }

  /** The fields of the unique index. */
  datatype AppKey = AppKey(userId: string, company: string, role: string, dateApplied: int)

  function KeyOf(a: Application): AppKey
  {
    AppKey(a.userId, a.company, a.role, a.dateApplied)
  }

  predicate UniqueKeys(apps: seq<Application>)
  {
    forall i, j :: 0 <= i < j < |apps| ==> KeyOf(apps[i]) != KeyOf(apps[j])
  }

  predicate UniqueIds(apps: seq<Application>)
  {
    forall i, j :: 0 <= i < j < |apps| ==> apps[i].id != apps[j].id
  }

  /** Whether a record other than position `skip` already holds `k`. */
  predicate KeyTakenBesides(apps: seq<Application>, k: AppKey, skip: int)
  {
    exists i :: 0 <= i < |apps| && i != skip && KeyOf(apps[i]) == k
  }

  predicate Owns(a: Application, id: nat, userId: string)
  {
    a.id == id && a.userId == userId
  }

  /** `findApplicationById`: the record with that id, if `userId` owns it. */
  function FindById(apps: seq<Application>, id: nat, userId: string): (r: Option<Application>)
    ensures r.Some? ==> r.value in apps && Owns(r.value, id, userId)
    ensures r.None? ==> forall a :: a in apps ==> !Owns(a, id, userId)
  {
    if apps == [] then None
    else if Owns(apps[0], id, userId) then Some(apps[0])
    else FindById(apps[1..], id, userId)
  }

  /** The update document of `updateApplication`; each key is present or absent. */
  datatype AppPatch = AppPatch(
    id: Option<nat>, userId: Option<string>, company: Option<string>, role: Option<string>,
    status: Option<string>, source: Option<string>, dateApplied: Option<int>,
    lastUpdated: Option<int>, notes: Option<string>, salaryRange: Option<SalaryRange>,
    contacts: Option<seq<string>>, createdAt: Option<int>, updatedAt: Option<int>)

  const EMPTY_PATCH := AppPatch(None, None, None, None, None, None, None, None, None, None, None, None, None)

  function Pick<T>(o: Option<T>, current: T): T
  {
    if o.Some? then o.value else current
  }

  /** `$set`: every present key overwrites the stored field. */
  function SetFields(a: Application, p: AppPatch): Application
  {
    Application(
      Pick(p.id, a.id), Pick(p.userId, a.userId), Pick(p.company, a.company), Pick(p.role, a.role),
      Pick(p.status, a.status), Pick(p.source, a.source), Pick(p.dateApplied, a.dateApplied),
      Pick(p.lastUpdated, a.lastUpdated), Pick(p.notes, a.notes), Pick(p.salaryRange, a.salaryRange),
      Pick(p.contacts, a.contacts), Pick(p.createdAt, a.createdAt), Pick(p.updatedAt, a.updatedAt))
  }

  /** `{...updateData, lastUpdated: now, updatedAt: now}` without `_id`, `userId` and `createdAt`. */
  function Prepare(p: AppPatch, now: int): AppPatch
  {
    p.(lastUpdated := Some(now), updatedAt := Some(now), id := None, userId := None, createdAt := None)
  }

  /** The record an accepted update leaves behind. */
  function AfterUpdate(a: Application, p: AppPatch, now: int): (b: Application)
    ensures b.id == a.id && b.userId == a.userId && b.createdAt == a.createdAt
    ensures b.lastUpdated == now && b.updatedAt == now
    ensures b.company == Pick(p.company, a.company) && b.role == Pick(p.role, a.role)
    ensures b.status == Pick(p.status, a.status) && b.source == Pick(p.source, a.source)
    ensures b.dateApplied == Pick(p.dateApplied, a.dateApplied) && b.notes == Pick(p.notes, a.notes)
    ensures b.salaryRange == Pick(p.salaryRange, a.salaryRange) && b.contacts == Pick(p.contacts, a.contacts)
  {
    SetFields(a, Prepare(p, now))
  }

  /** The `applications` collection. */
  class AppStore {
    var apps: seq<Application>
    var nextId: nat

    ghost predicate Valid()
      reads this
    {
      && UniqueKeys(apps) && UniqueIds(apps)
      && forall i :: 0 <= i < |apps| ==> apps[i].id < nextId
    }

    constructor ()
      ensures Valid() && apps == [] && nextId == 0
    {
      apps, nextId := [], 0;
    }

    /** The position of the record matching `{_id: id, userId}`, if any. */
    method IndexOf(id: nat, userId: string) returns (idx: Option<nat>)
      ensures idx.Some? ==> idx.value < |apps| && Owns(apps[idx.value], id, userId)
      ensures idx.None? ==> forall i :: 0 <= i < |apps| ==> !Owns(apps[i], id, userId)
    {
      var i := 0;
      while i < |apps|
        invariant 0 <= i <= |apps|
        invariant forall j :: 0 <= j < i ==> !Owns(apps[j], id, userId)
      {
        if Owns(apps[i], id, userId) {
          return Some(i);
        }
        i := i + 1;
      }
      return None;
    }

    /**
     * `createApplication`: refuses a status outside the enum, then inserts the shaped record
     * unless its (userId, company, role, dateApplied) is taken.
     */
    method Create(data: NewApplication, now: int) returns (r: Result<Application>)
      requires Valid()
      modifies this
      ensures Valid()
      ensures r == Err(InvalidStatus) <==> StatusRejected(data.status)
      ensures r == Err(DuplicateApplication) <==>
        !StatusRejected(data.status) && KeyTakenBesides(old(apps), KeyOf(NewRecord(data, old(nextId), now)), -1)
      ensures r.Err? ==> apps == old(apps) && nextId == old(nextId)
      ensures r.Ok? ==> (r.value == NewRecord(data, old(nextId), now)
        && apps == old(apps) + [r.value] && nextId == old(nextId) + 1)
    {
      if StatusRejected(data.status) {
        return Err(InvalidStatus);
      }
      var a := NewRecord(data, nextId, now);
      if KeyTakenBesides(apps, KeyOf(a), -1) {
        return Err(DuplicateApplication);
      }
      assert forall i :: 0 <= i < |apps| ==> KeyOf(apps[i]) != KeyOf(a) && apps[i].id < a.id;
      apps := apps + [a];
      nextId := nextId + 1;
      return Ok(a);
    }

    /**
     * `updateApplication`: refuses a status outside the enum; otherwise sets the present keys and
     * both timestamps on the record `id` owned by `userId`, never `_id`, `userId` or `createdAt`.
     * None when no such record exists; the unique index refuses an update that would duplicate a key.
     */
    method Update(id: nat, userId: string, patch: AppPatch, now: int) returns (r: Result<Option<Application>>)
      requires Valid()
      modifies this
      ensures Valid() && nextId == old(nextId)
      ensures r == Err(InvalidStatus) <==> patch.status.Some? && StatusRejected(Given(patch.status.value))
      ensures r.Err? || r == Ok(None) ==> apps == old(apps)
      ensures r == Err(DuplicateApplication) <==>
        !(patch.status.Some? && StatusRejected(Given(patch.status.value)))
        && exists i :: (0 <= i < |old(apps)| && Owns(old(apps)[i], id, userId)
          && KeyTakenBesides(old(apps), KeyOf(AfterUpdate(old(apps)[i], patch, now)), i))
      ensures r == Ok(None) <==>
        !(patch.status.Some? && StatusRejected(Given(patch.status.value)))
        && forall i :: 0 <= i < |old(apps)| ==> !Owns(old(apps)[i], id, userId)
      ensures r.Ok? && r.value.Some? ==> exists i :: (0 <= i < |old(apps)| && Owns(old(apps)[i], id, userId)
        && r.value.value == AfterUpdate(old(apps)[i], patch, now)
        && !KeyTakenBesides(old(apps), KeyOf(r.value.value), i)
        && apps == old(apps)[i := r.value.value])
    {
      if patch.status.Some? && StatusRejected(Given(patch.status.value)) {
        return Err(InvalidStatus);
      }
      var idx := IndexOf(id, userId);
      if idx.None? {
        return Ok(None);
      }
      var i := idx.value;
      var b := AfterUpdate(apps[i], patch, now);
      if KeyTakenBesides(apps, KeyOf(b), i) {
        return Err(DuplicateApplication);
      }
      apps := apps[i := b];
      return Ok(Some(b));
    }

    /** `deleteApplication`: removes the record `id` owned by `userId`; true exactly when one was removed. */
    method Delete(id: nat, userId: string) returns (deleted: bool)
      requires Valid()
      modifies this
      ensures Valid() && nextId == old(nextId)
      ensures deleted <==> exists i :: 0 <= i < |old(apps)| && Owns(old(apps)[i], id, userId)
      ensures !deleted ==> apps == old(apps)
      ensures deleted ==> exists i :: (0 <= i < |old(apps)| && Owns(old(apps)[i], id, userId)
        && apps == old(apps)[..i] + old(apps)[i + 1..])
    {
      var idx := IndexOf(id, userId);
      if idx.None? {
        return false;
      }
      var i := idx.value;
      apps := apps[..i] + apps[i + 1..];
      return true;
    }
  }
}

/**
 * The `network` collection of contacts: normalisation and validation of new records and
 * updates, deletion, and the counts by company and by where the contact was met.
 */
module Network {
  import opened Common
  import opened Text
  import opened Grouping

  /** The `metAt` enum. */
  const VALID_MET_AT: seq<string> := ["linkedin", "career_fair", "meetup", "referral", "cold_outreach", "other"]

  /** A stored date field: null, an instant, or the empty string an update may leave in it. */
  datatype When = Unset | At(ms: int) | BlankText

  /** A contact; the text fields hold null when an update sets them to null. */
  datatype Contact = Contact(
    id: nat, userId: string, name: Option<string>, email: Option<string>, company: Option<string>,
    role: Option<string>, metAt: Option<string>, notes: Option<string>, metDate: When,
    followUpDate: When, lastContactedDate: When, createdAt: int, updatedAt: int)

  /** A date handed to the store: body text with what `new Date(text)` makes of it, or a `Date` object. */
  datatype DateInput = DateText(text: string, parsed: Option<int>) | DateObject(ms: int)

  /** JavaScript truthiness of a date-valued key. */
  predicate DateTruthy(i: Input<DateInput>)
  {
    i.Given? && (i.value.DateText? ==> i.value.text != "")
  }

  /** `new Date(x)` of a truthy value: None for an Invalid Date. */
  function Parse(d: DateInput): Option<int>
  {
    match d
    case DateText(_, p) => p
    case DateObject(ms) => Some(ms)
  }

  datatype ContactError = InvalidMetAt | InvalidMetDate | InvalidFollowUpDate | InvalidLastContactedDate

  datatype Result<T> = Ok(value: T) | Err(error: ContactError)

  /** A `metAt` that is sent (truthy) and outside the enum is refused. */
  predicate MetAtRejected(metAt: Input<string>)
  {
    Truthy(metAt) && metAt.value !in VALID_MET_AT
  }

  /** The argument of `createNetworkContact`. */
  datatype NewContact = NewContact(
    userId: string, name: string, email: Input<string>, company: Input<string>, role: Input<string>,
    metAt: Input<string>, notes: Input<string>, metDate: Input<DateInput>,
    followUpDate: Input<DateInput>, lastContactedDate: Input<DateInput>)

  /** An optional date of a new contact: null when absent. */
  function OptionalDate(i: Input<DateInput>): Option<When>
  {
    if !DateTruthy(i) then Some(Unset)
    else match Parse(i.value)
      case None => None
      case Some(ms) => Some(At(ms))
  }

  /** The first error `createNetworkContact` raises, if any. */
  function CreateError(d: NewContact): Option<ContactError>
  {
    if MetAtRejected(d.metAt) then Some(InvalidMetAt)
    else if DateTruthy(d.metDate) && Parse(d.metDate.value).None? then Some(InvalidMetDate)
    else if OptionalDate(d.followUpDate).None? then Some(InvalidFollowUpDate)
    else if OptionalDate(d.lastContactedDate).None? then Some(InvalidLastContactedDate)
    else None
  }

  /** The record `createNetworkContact` inserts when nothing is invalid. */
  function NewRecord(d: NewContact, id: nat, now: int): Contact
    requires CreateError(d).None?
  {
    Contact(
      id, d.userId, Some(Trim(d.name)), Some(Lower(Trim(OrDefault(d.email, "")))),
      Some(Trim(OrDefault(d.company, ""))), Some(Trim(OrDefault(d.role, ""))),
      Some(OrDefault(d.metAt, "other")),
      Some(OrDefault(d.notes, "")),
      if DateTruthy(d.metDate) then At(Parse(d.metDate.value).value) else At(now),
      OptionalDate(d.followUpDate).value, OptionalDate(d.lastContactedDate).value, now, now)
  }

  /** A normalised contact: every text field present, trimmed, the email in lower case, `metAt` valid. */
  predicate Normalised(c: Contact)
  {
    && c.name.Some? && c.email.Some? && c.company.Some? && c.role.Some? && c.metAt.Some? && c.notes.Some?
    && Trim(c.name.value) == c.name.value && Trim(c.email.value) == c.email.value
    && Trim(c.company.value) == c.company.value && Trim(c.role.value) == c.role.value
    && Lower(c.email.value) == c.email.value
    && c.metAt.value in VALID_MET_AT
    && c.metDate.At?
  }

  /** A new contact is refused exactly for an invalid `metAt` or an unparsable date, in that order. */
  lemma CreateErrorSpec(d: NewContact)
    ensures CreateError(d) == Some(InvalidMetAt) <==> MetAtRejected(d.metAt)
    ensures CreateError(d).None? <==>
      && !MetAtRejected(d.metAt)
      && (DateTruthy(d.metDate) ==> Parse(d.metDate.value).Some?)
      && (DateTruthy(d.followUpDate) ==> Parse(d.followUpDate.value).Some?)
      && (DateTruthy(d.lastContactedDate) ==> Parse(d.lastContactedDate.value).Some?)
  {
  }

  /** Every new contact is normalised. */
  lemma NewRecordNormalised(d: NewContact, id: nat, now: int)
    requires CreateError(d).None?
    ensures Normalised(NewRecord(d, id, now))
  {
    var c := NewRecord(d, id, now);
    var name, email := Trim(d.name), Lower(Trim(OrDefault(d.email, "")));
    var company, role := Trim(OrDefault(d.company, "")), Trim(OrDefault(d.role, ""));
    assert c.name == Some(name) && c.email == Some(email) && c.company == Some(company) && c.role == Some(role);
    TrimIdempotent(d.name);
    TrimIdempotent(OrDefault(d.company, ""));
    TrimIdempotent(OrDefault(d.role, ""));
    EmailNormal(OrDefault(d.email, ""));
  }

  /** The defaults of a new contact: "other", "", now, and null for the optional dates. */
  lemma NewRecordDefaults(d: NewContact, id: nat, now: int)
    requires CreateError(d).None?
    ensures var c := NewRecord(d, id, now);
      && (!Truthy(d.metAt) ==> c.metAt == Some("other"))
      && (!Truthy(d.notes) ==> c.notes == Some(""))
      && (!Truthy(d.company) ==> c.company == Some(""))
      && (!Truthy(d.role) ==> c.role == Some(""))
      && (!Truthy(d.email) ==> c.email == Some(""))
      && (!DateTruthy(d.metDate) ==> c.metDate == At(now))
      && (!DateTruthy(d.followUpDate) ==> c.followUpDate == Unset)
      && (!DateTruthy(d.lastContactedDate) ==> c.lastContactedDate == Unset)
      && c.createdAt == c.updatedAt == now
  {
    assert Trim("") == "" && Lower("") == "";
  }

  /** The body of `updateNetworkContact`, spread into the update document. */
  datatype ContactPatch = ContactPatch(
    id: Option<nat>, userId: Option<string>, createdAt: Option<int>,
    name: Input<string>, email: Input<string>, company: Input<string>, role: Input<string>,
    metAt: Input<string>, notes: Input<string>, metDate: Input<DateInput>,
    followUpDate: Input<DateInput>, lastContactedDate: Input<DateInput>)

  /** How a truthy text value is normalised before it is stored. */
  datatype Normalisation = AsIs | Trimmed | TrimmedLower

  /** The new value of a text field: kept when the key is absent; normalised only when truthy. */
  function SetText(cur: Option<string>, i: Input<string>, how: Normalisation): Option<string>
  {
    match i
    case Missing => cur
    case Null => None
    case Given(s) =>
      if s == "" then Some("")
      else match how
        case AsIs => Some(s)
        case Trimmed => Some(Trim(s))
        case TrimmedLower => Some(Lower(Trim(s)))
  }

  /** The new value of a date field, or None for an Invalid Date; a falsy string is stored as sent. */
  function SetDate(cur: When, i: Input<DateInput>): Option<When>
  {
    match i
    case Missing => Some(cur)
    case Null => Some(Unset)
    case Given(d) =>
      if !DateTruthy(i) then Some(BlankText)
      else match Parse(d)
        case None => None
        case Some(ms) => Some(At(ms))
  }

  /** The first error `updateNetworkContact` raises, if any; none depends on the stored record. */
  function UpdateError(p: ContactPatch): Option<ContactError>
  {
    if MetAtRejected(p.metAt) then Some(InvalidMetAt)
    else if SetDate(Unset, p.metDate).None? then Some(InvalidMetDate)
    else if SetDate(Unset, p.followUpDate).None? then Some(InvalidFollowUpDate)
    else if SetDate(Unset, p.lastContactedDate).None? then Some(InvalidLastContactedDate)
    else None
  }

  /** The `$set` of the prepared update document, without `_id`, `userId` and `createdAt`. */
  function Patched(c: Contact, p: ContactPatch, now: int): Contact
    requires UpdateError(p).None?
  {
    c.(name := SetText(c.name, p.name, Trimmed),
       email := SetText(c.email, p.email, TrimmedLower),
       company := SetText(c.company, p.company, Trimmed),
       role := SetText(c.role, p.role, Trimmed),
       metAt := SetText(c.metAt, p.metAt, AsIs),
       notes := SetText(c.notes, p.notes, AsIs),
       metDate := SetDate(c.metDate, p.metDate).value,
       followUpDate := SetDate(c.followUpDate, p.followUpDate).value,
       lastContactedDate := SetDate(c.lastContactedDate, p.lastContactedDate).value,
       updatedAt := now)
  }

  /** An update never changes the id, owner or creation time, always refreshes `updatedAt`, and leaves absent keys alone. */
  lemma PatchedKeeps(c: Contact, p: ContactPatch, now: int)
    requires UpdateError(p).None?
    ensures var n := Patched(c, p, now);
      && n.id == c.id && n.userId == c.userId && n.createdAt == c.createdAt && n.updatedAt == now
      && (p.name.Missing? ==> n.name == c.name)
      && (p.email.Missing? ==> n.email == c.email)
      && (p.company.Missing? ==> n.company == c.company)
      && (p.role.Missing? ==> n.role == c.role)
      && (p.metAt.Missing? ==> n.metAt == c.metAt)
      && (p.notes.Missing? ==> n.notes == c.notes)
      && (p.metDate.Missing? ==> n.metDate == c.metDate)
      && (p.followUpDate.Missing? ==> n.followUpDate == c.followUpDate)
      && (p.lastContactedDate.Missing? ==> n.lastContactedDate == c.lastContactedDate)
  {
  }

  /** A truthy name, company and role are stored trimmed. */
  lemma PatchedNormalises(c: Contact, p: ContactPatch, now: int)
    requires UpdateError(p).None?
    ensures Truthy(p.name) ==> Patched(c, p, now).name == Some(Trim(p.name.value))
    ensures Truthy(p.company) ==> Patched(c, p, now).company == Some(Trim(p.company.value))
    ensures Truthy(p.role) ==> Patched(c, p, now).role == Some(Trim(p.role.value))
  {
    var n := Patched(c, p, now);
    assert n.name == SetText(c.name, p.name, Trimmed) && n.company == SetText(c.company, p.company, Trimmed);
    assert n.role == SetText(c.role, p.role, Trimmed);
  }

  /** A truthy email is stored trimmed and in lower case, a form that further normalisation keeps. */
  lemma PatchedEmail(c: Contact, p: ContactPatch, now: int)
    requires UpdateError(p).None? && Truthy(p.email)
    ensures Patched(c, p, now).email == Some(Lower(Trim(p.email.value)))
    ensures var e := Patched(c, p, now).email.value; Trim(e) == e && Lower(e) == e
  {
    assert Patched(c, p, now).email == SetText(c.email, p.email, TrimmedLower);
    EmailNormal(p.email.value);
  }

  /** A truthy `metAt` is stored only if it is in the enum. */
  lemma PatchedMetAt(c: Contact, p: ContactPatch, now: int)
    requires UpdateError(p).None? && Truthy(p.metAt)
    ensures Patched(c, p, now).metAt == Some(p.metAt.value) && p.metAt.value in VALID_MET_AT
  {
    assert Patched(c, p, now).metAt == SetText(c.metAt, p.metAt, AsIs);
  }

  predicate Owns(c: Contact, id: nat, userId: string)
  {
    c.id == id && c.userId == userId
  }

  /** `findNetworkContactById`: the contact with that id, if `userId` owns it. */
  function FindById(cs: seq<Contact>, id: nat, userId: string): (r: Option<Contact>)
    ensures r.Some? ==> r.value in cs && Owns(r.value, id, userId)
    ensures r.None? ==> forall c :: c in cs ==> !Owns(c, id, userId)
  {
    if cs == [] then None
    else if Owns(cs[0], id, userId) then Some(cs[0])
    else FindById(cs[1..], id, userId)
  }

  predicate UniqueIds(cs: seq<Contact>)
  {
    forall i, j :: 0 <= i < j < |cs| ==> cs[i].id != cs[j].id
  }

  /** The `network` collection. */
  class ContactStore {
    var contacts: seq<Contact>
    var nextId: nat

    ghost predicate Valid()
      reads this
    {
      UniqueIds(contacts) && forall i :: 0 <= i < |contacts| ==> contacts[i].id < nextId
    }

    constructor ()
      ensures Valid() && contacts == [] && nextId == 0
    {
      contacts, nextId := [], 0;
    }

    /** The position of the contact matching `{_id: id, userId}`, if any. */
    method IndexOf(id: nat, userId: string) returns (idx: Option<nat>)
      ensures idx.Some? ==> idx.value < |contacts| && Owns(contacts[idx.value], id, userId)
      ensures idx.None? ==> forall i :: 0 <= i < |contacts| ==> !Owns(contacts[i], id, userId)
    {
      var i := 0;
      while i < |contacts|
        invariant 0 <= i <= |contacts|
        invariant forall j :: 0 <= j < i ==> !Owns(contacts[j], id, userId)
      {
        if Owns(contacts[i], id, userId) {
          return Some(i);
        }
        i := i + 1;
      }
      return None;
    }

    /** `createNetworkContact`: refuses an invalid `metAt` or date, otherwise inserts the normalised record. */
    method Create(d: NewContact, now: int) returns (r: Result<Contact>)
      requires Valid()
      modifies this
      ensures Valid()
      ensures r.Err? <==> CreateError(d).Some?
      ensures r.Err? ==> r.error == CreateError(d).value && contacts == old(contacts) && nextId == old(nextId)
      ensures r.Ok? ==> (CreateError(d).None? && r.value == NewRecord(d, old(nextId), now)
        && contacts == old(contacts) + [r.value] && nextId == old(nextId) + 1)
    {
      var e := CreateError(d);
      if e.Some? {
        return Err(e.value);
      }
      var c := NewRecord(d, nextId, now);
      contacts := contacts + [c];
      nextId := nextId + 1;
      return Ok(c);
    }

    /**
     * `updateNetworkContact`: refuses an invalid `metAt` or date; otherwise applies the normalised
     * update to the contact `id` owned by `userId`, or answers None and changes nothing.
     */
    method Update(id: nat, userId: string, p: ContactPatch, now: int) returns (r: Result<Option<Contact>>)
      requires Valid()
      modifies this
      ensures Valid() && nextId == old(nextId)
      ensures r.Err? <==> UpdateError(p).Some?
      ensures r.Err? ==> r.error == UpdateError(p).value
      ensures r.Err? || r == Ok(None) ==> contacts == old(contacts)
      ensures r == Ok(None) <==>
        UpdateError(p).None? && forall i :: 0 <= i < |old(contacts)| ==> !Owns(old(contacts)[i], id, userId)
      ensures r.Ok? && r.value.Some? ==> UpdateError(p).None? && exists i :: (0 <= i < |old(contacts)|
        && Owns(old(contacts)[i], id, userId)
        && r.value.value == Patched(old(contacts)[i], p, now)
        && contacts == old(contacts)[i := r.value.value])
    {
      var e := UpdateError(p);
      if e.Some? {
        return Err(e.value);
      }
      var idx := IndexOf(id, userId);
      if idx.None? {
        return Ok(None);
      }
      var i := idx.value;
      var c := Patched(contacts[i], p, now);
      contacts := contacts[i := c];
      return Ok(Some(c));
    }

    /** `deleteNetworkContact`: true exactly when a contact `id` owned by `userId` was removed. */
    method Delete(id: nat, userId: string) returns (deleted: bool)
      requires Valid()
      modifies this
      ensures Valid() && nextId == old(nextId)
      ensures deleted <==> exists i :: 0 <= i < |old(contacts)| && Owns(old(contacts)[i], id, userId)
      ensures !deleted ==> contacts == old(contacts)
      ensures deleted ==> exists i :: (0 <= i < |old(contacts)| && Owns(old(contacts)[i], id, userId)
        && contacts == old(contacts)[..i] + old(contacts)[i + 1..])
    {
      var idx := IndexOf(id, userId);
      if idx.None? {
        return false;
      }
      var i := idx.value;
      contacts := contacts[..i] + contacts[i + 1..];
      return true;
    }
  }

  /** The user's contacts. */
  function Owned(cs: seq<Contact>, userId: string): (r: seq<Contact>)
    ensures forall c :: c in r <==> c in cs && c.userId == userId
  {
    if cs == [] then []
    else
      var init, c := cs[..|cs| - 1], cs[|cs| - 1];
      Owned(init, userId) + (if c.userId == userId then [c] else [])
  }

  function Companies(cs: seq<Contact>): (r: seq<Option<string>>)
    ensures |r| == |cs| && forall i :: 0 <= i < |cs| ==> r[i] == cs[i].company
  {
    seq(|cs|, i requires 0 <= i < |cs| => cs[i].company)
  }

  function MetAts(cs: seq<Contact>): (r: seq<Option<string>>)
    ensures |r| == |cs| && forall i :: 0 <= i < |cs| ==> r[i] == cs[i].metAt
  {
    seq(|cs|, i requires 0 <= i < |cs| => cs[i].metAt)
  }

  /** `item._id || fallback`: a null or empty group key becomes the fallback. */
  function KeyOr(k: Option<string>, fallback: string): string
  {
    if k.Some? && k.value != "" then k.value else fallback
  }

  /** The reduce as written: groups keyed by the raw value, renamed afterwards, later groups overwriting. */
  function CountByAsWritten(values: seq<Option<string>>, fallback: string): map<string, nat>
  {
    ToMap(Renamed(SortByCount(GroupCount(values)), fallback))
  }

  /** The `item._id || fallback` rename applied group by group. */
  function Renamed(gs: seq<Group<Option<string>>>, fallback: string): (r: seq<Group<string>>)
    ensures |r| == |gs| && forall i :: 0 <= i < |gs| ==> r[i] == Group(KeyOr(gs[i].key, fallback), gs[i].count)
  {
    seq(|gs|, i requires 0 <= i < |gs| => Group(KeyOr(gs[i].key, fallback), gs[i].count))
  }

  function KeysOr(values: seq<Option<string>>, fallback: string): (r: seq<string>)
    ensures |r| == |values| && forall i :: 0 <= i < |values| ==> r[i] == KeyOr(values[i], fallback)
  {
    seq(|values|, i requires 0 <= i < |values| => KeyOr(values[i], fallback))
  }

  /** Counting on the fallback-keyed values: null and "" share one count. */
  function CountBy(values: seq<Option<string>>, fallback: string): map<string, nat>
  {
    ToMap(GroupCount(KeysOr(values, fallback)))
  }

  datatype NetworkStats = NetworkStats(total: nat, byCompany: map<string, nat>, byMetAt: map<string, nat>)

  /** `m` holds every value or fallback present, each with the number of contacts it stands for. */
  ghost predicate CountsBy(m: map<string, nat>, values: seq<Option<string>>, fallback: string)
  {
    forall k ::
      && (k in m <==> exists i :: 0 <= i < |values| && KeyOr(values[i], fallback) == k)
      && (k in m ==> m[k] == Occurrences(KeysOr(values, fallback), k) >= 1)
  }

  /** `m` has the keys of `exact` and agrees with it, except that the fallback may be counted short. */
  ghost predicate UnderCounts(m: map<string, nat>, exact: map<string, nat>, fallback: string)
  {
    && m.Keys == exact.Keys
    && forall k :: k in m ==> 1 <= m[k] <= exact[k] && (k != fallback ==> m[k] == exact[k])
  }

  lemma CountByCounts(values: seq<Option<string>>, fallback: string)
    ensures CountsBy(CountBy(values, fallback), values, fallback)
  {
    forall k ensures k in CountBy(values, fallback) <==> exists i :: 0 <= i < |values| && KeyOr(values[i], fallback) == k
      ensures k in CountBy(values, fallback) ==> CountBy(values, fallback)[k] == Occurrences(KeysOr(values, fallback), k) >= 1
    {
      CountBySpec(values, fallback, k);
    }
  }

  /** `getNetworkStats(userId)`, with contacts lacking a company under "unknown" and lacking `metAt` under "other". */
  function GetStats(cs: seq<Contact>, userId: string): (st: NetworkStats)
    ensures st.total == |Owned(cs, userId)|
    ensures CountsBy(st.byCompany, Companies(Owned(cs, userId)), "unknown")
    ensures CountsBy(st.byMetAt, MetAts(Owned(cs, userId)), "other")
  {
    var mine := Owned(cs, userId);
    CountByCounts(Companies(mine), "unknown");
    CountByCounts(MetAts(mine), "other");
    NetworkStats(|mine|, CountBy(Companies(mine), "unknown"), CountBy(MetAts(mine), "other"))
  }

  /**
   * `GetStats` as written, renaming the groups after counting: the same keys and counts, except
   * that "unknown" and "other" may hold only one of the groups renamed to them.
   */
  function GetStatsAsWritten(cs: seq<Contact>, userId: string): (st: NetworkStats)
    ensures st.total == GetStats(cs, userId).total
    ensures UnderCounts(st.byCompany, GetStats(cs, userId).byCompany, "unknown")
    ensures UnderCounts(st.byMetAt, GetStats(cs, userId).byMetAt, "other")
  {
    var mine := Owned(cs, userId);
    CountByAsWrittenUnder(Companies(mine), "unknown");
    CountByAsWrittenUnder(MetAts(mine), "other");
    NetworkStats(|mine|, CountByAsWritten(Companies(mine), "unknown"), CountByAsWritten(MetAts(mine), "other"))
  }

  /** Renaming only merges: a value counts toward its key, alone unless that key is the fallback. */
  lemma {:induction false} OccurrencesRenamed(values: seq<Option<string>>, x: Option<string>, fallback: string)
    ensures Occurrences(values, x) <= Occurrences(KeysOr(values, fallback), KeyOr(x, fallback))
    ensures KeyOr(x, fallback) != fallback ==>
      Occurrences(values, x) == Occurrences(KeysOr(values, fallback), KeyOr(x, fallback))
  {
    if values != [] {
      var init := values[..|values| - 1];
      OccurrencesRenamed(init, x, fallback);
      assert KeysOr(values, fallback)[..|values| - 1] == KeysOr(init, fallback);
    }
  }

  /** The keys the reduce as written produces are those of the corrected count. */
  lemma CountByAsWrittenKeys(values: seq<Option<string>>, fallback: string, k: string)
    ensures k in CountByAsWritten(values, fallback) <==> k in CountBy(values, fallback)
  {
    CountBySpec(values, fallback, k);
    if k in CountByAsWritten(values, fallback) {
      AsWrittenKeyPresent(values, fallback, k);
    }
    if k in CountBy(values, fallback) {
      var i :| 0 <= i < |values| && KeyOr(values[i], fallback) == k;
      PresentAsWrittenKey(values, fallback, i);
    }
  }

  lemma AsWrittenKeyPresent(values: seq<Option<string>>, fallback: string, k: string)
    requires k in CountByAsWritten(values, fallback)
    ensures exists i :: 0 <= i < |values| && KeyOr(values[i], fallback) == k
  {
    var gs := GroupCount(values);
    var sorted := SortByCount(gs);
    var renamed := Renamed(sorted, fallback);
    assert k in KeySet(renamed);
    var j :| 0 <= j < |renamed| && renamed[j].key == k;
    assert sorted[j] in multiset(gs);
    assert sorted[j].key in KeySet(gs);
    var i :| 0 <= i < |values| && values[i] == sorted[j].key;
  }

  lemma PresentAsWrittenKey(values: seq<Option<string>>, fallback: string, i: nat)
    requires i < |values|
    ensures KeyOr(values[i], fallback) in CountByAsWritten(values, fallback)
  {
    var gs := GroupCount(values);
    var sorted := SortByCount(gs);
    var renamed := Renamed(sorted, fallback);
    assert values[i] in KeySet(gs);
    var g :| g in gs && g.key == values[i];
    assert g in multiset(sorted);
    var j :| 0 <= j < |sorted| && sorted[j] == g;
    assert renamed[j] in renamed;
  }

  /** Each count the reduce as written keeps is one renamed group, at most the corrected count and equal to it off the fallback. */
  lemma CountByAsWrittenValue(values: seq<Option<string>>, fallback: string, k: string)
    requires k in CountByAsWritten(values, fallback)
    ensures k in CountBy(values, fallback)
    ensures 1 <= CountByAsWritten(values, fallback)[k] <= CountBy(values, fallback)[k]
    ensures k != fallback ==> CountByAsWritten(values, fallback)[k] == CountBy(values, fallback)[k]
  {
    var gs := GroupCount(values);
    var sorted := SortByCount(gs);
    var renamed := Renamed(sorted, fallback);
    CountByAsWrittenKeys(values, fallback, k);
    CountBySpec(values, fallback, k);
    ToMapLast(renamed, k);
    var j :| 0 <= j < |renamed| && renamed[j].key == k && ToMap(renamed)[k] == renamed[j].count;
    assert sorted[j] in multiset(gs);
    var i :| 0 <= i < |gs| && gs[i] == sorted[j];
    GroupCountExact(values, i);
    OccurrencesRenamed(values, gs[i].key, fallback);
  }

  lemma CountByAsWrittenUnder(values: seq<Option<string>>, fallback: string)
    ensures UnderCounts(CountByAsWritten(values, fallback), CountBy(values, fallback), fallback)
  {
    forall k ensures k in CountByAsWritten(values, fallback) <==> k in CountBy(values, fallback) {
      CountByAsWrittenKeys(values, fallback, k);
    }
    forall k | k in CountByAsWritten(values, fallback)
      ensures 1 <= CountByAsWritten(values, fallback)[k] <= CountBy(values, fallback)[k]
      ensures k != fallback ==> CountByAsWritten(values, fallback)[k] == CountBy(values, fallback)[k]
    {
      CountByAsWrittenValue(values, fallback, k);
    }
  }

  /**
   * Each key counts exactly the contacts whose value, or fallback, it is; the counts sum to the
   * number of contacts.
   */
  lemma CountBySpec(values: seq<Option<string>>, fallback: string, k: string)
    ensures k in CountBy(values, fallback) <==> exists i :: 0 <= i < |values| && KeyOr(values[i], fallback) == k
    ensures k in CountBy(values, fallback) ==>
      CountBy(values, fallback)[k] == Occurrences(KeysOr(values, fallback), k) >= 1
    ensures Total(GroupCount(KeysOr(values, fallback))) == |values|
  {
    var keys := KeysOr(values, fallback);
    CountMapSpec(keys, k);
    if k in keys {
      var gs := GroupCount(keys);
      assert k in KeySet(gs);
      var i :| 0 <= i < |gs| && gs[i].key == k;
      GroupCountExact(keys, i);
    }
  }

  /** The raw groups of one empty and one null company. */
  lemma EmptyThenNullGroups()
    ensures SortByCount(GroupCount([Some(""), None])) == [Group(Some(""), 1), Group(None, 1)]
  {
    var values: seq<Option<string>> := [Some(""), None];
    assert values[..1] == [Some("")] && values[..1][..0] == [];
    assert GroupCount(values[..1]) == [Group(Some(""), 1)];
    assert [Group(Some(""), 1)][1..] == [];
    var gs := GroupCount(values);
    assert gs == [Group(Some(""), 1), Group(None, 1)];
    assert gs[..1] == [Group(Some(""), 1)] && gs[..1][..0] == [];
  }

  /** Two groups renamed to the same key: the later one overwrites the earlier one. */
  lemma RenamedCollide(gs: seq<Group<Option<string>>>)
    requires gs == [Group(Some(""), 1), Group(None, 1)]
    ensures ToMap(Renamed(gs, "unknown")) == map["unknown" := 1]
  {
    var renamed := Renamed(gs, "unknown");
    assert renamed == [Group("unknown", 1), Group("unknown", 1)];
    assert renamed[..1] == [Group("unknown", 1)] && renamed[..1][..0] == [];
  }

  /** Grouping on the fallback key counts both. */
  lemma FallbackGroupsBoth()
    ensures CountBy([Some(""), None], "unknown") == map["unknown" := 2]
  {
    var keys := KeysOr([Some(""), None], "unknown");
    assert keys == ["unknown", "unknown"];
    assert keys[..1] == ["unknown"] && keys[..1][..0] == [];
    assert GroupCount(keys[..1]) == [Group("unknown", 1)];
    assert [Group("unknown", 1)][1..] == [];
    assert GroupCount(keys) == [Group("unknown", 2)];
  }

  /** Two contacts without a company, one with "" and one with null: written as one "unknown". */
  lemma MissingCompanyCounterexample()
    ensures CountByAsWritten([Some(""), None], "unknown") == map["unknown" := 1]
    ensures CountBy([Some(""), None], "unknown") == map["unknown" := 2]
  {
    EmptyThenNullGroups();
    RenamedCollide(SortByCount(GroupCount([Some(""), None])));
    FallbackGroupsBoth();
  }
}

/** The `/api/activity-logs` handlers. */
module ActivityLogRoutes {
  import opened Common
  import opened Http
  import opened ActivityLog

  /** `parseInt(req.query.limit) || 50`: `None` is a query that does not parse. */
  function ParseLimit(query: Option<int>): (n: int)
    ensures n != 0
    ensures query.Some? && query.value != 0 ==> n == query.value
    ensures query.None? || query.value == 0 ==> n == 50
  {
    if query.Some? && query.value != 0 then query.value else 50
  }

  /** `GET /applications`: the user's application entries, newest first. */
  function ApplicationLogs(es: seq<LogEntry>, userId: string): (r: Reply<seq<LogEntry>>)
    ensures r.Success? && r.code == OK
    ensures forall e :: e in r.payload <==> e in es && e.rec.userId == userId && e.rec.entityType == ApplicationEntity
  {
    Success(OK, FindByEntityType(es, userId, ApplicationEntity))
  }

  /** `GET /network`: the user's network entries, newest first. */
  function NetworkLogs(es: seq<LogEntry>, userId: string): (r: Reply<seq<LogEntry>>)
    ensures r.Success? && r.code == OK
    ensures forall e :: e in r.payload <==> e in es && e.rec.userId == userId && e.rec.entityType == NetworkEntity
  {
    Success(OK, FindByEntityType(es, userId, NetworkEntity))
  }

  /** `GET /`: the user's feed, at most `limit` entries, 50 when the query gives none. */
  function Feed(es: seq<LogEntry>, userId: string, query: Option<int>): (r: Reply<seq<LogEntry>>)
    ensures r.Success? && r.code == OK
    ensures |r.payload| == LimitCount(ParseLimit(query), OwnedCount(es, userId))
    ensures forall e :: e in r.payload ==> e in es && e.rec.userId == userId
    ensures Chronological(es) ==> NewestFirstOrder(r.payload)
    ensures Chronological(es) ==>
      forall e, x :: (e in es && e.rec.userId == userId && e !in r.payload && x in r.payload) ==> e.timestamp < x.timestamp
  {
    FindAllSpec(es, userId, Some(ParseLimit(query)));
    Success(OK, FindAll(es, userId, Some(ParseLimit(query))))
  }

  /**
   * `GET /entity/:entityId`: every entry about the entity, whoever owns it; an id that is not an
   * object id makes the lookup throw, answered with 500.
   */
  function EntityLogs(es: seq<LogEntry>, entityId: Option<nat>): (r: Reply<seq<LogEntry>>)
    ensures entityId.None? <==> r == Failure(SERVER_ERROR)
    ensures r.Success? ==> (r.code == OK && entityId.Some?
      && forall e :: e in r.payload <==> e in es && e.rec.entityId == entityId.value)
  {
    if entityId.None? then Failure(SERVER_ERROR)
    else Success(OK, FindByEntityId(es, entityId.value))
  }

  /**
   * `PUT /:id`: 400 without a `userNote`, 500 for an id that is not an object id, 404 when the
   * user owns no entry with that id; otherwise the note is replaced and the entry returned.
   */
  method UpdateNoteRoute(logs: LogStore, userId: string, id: Option<nat>, userNote: Option<string>)
    returns (r: Reply<LogEntry>)
    requires logs.Valid()
    modifies logs
    ensures logs.Valid()
    ensures userNote.None? ==> r == Failure(BAD_REQUEST)
    ensures userNote.Some? && id.None? ==> r == Failure(SERVER_ERROR)
    ensures userNote.Some? && id.Some? ==>
      (r == Failure(NOT_FOUND) <==> forall i :: 0 <= i < |old(logs.entries)| ==> !IsTarget(old(logs.entries)[i], id.value, userId))
    ensures userNote.Some? && id.Some?
      && (exists i :: 0 <= i < |old(logs.entries)| && IsTarget(old(logs.entries)[i], id.value, userId))
      ==> r.Success?
    ensures r.Failure? ==> logs.entries == old(logs.entries)
    ensures r.Success? ==> r.code == OK && userNote.Some? && id.Some? && exists i ::
      (0 <= i < |old(logs.entries)| && IsTarget(old(logs.entries)[i], id.value, userId)
        && r.payload == WithNote(old(logs.entries)[i], userNote.value)
        && SameButNote(old(logs.entries)[i], r.payload)
        && logs.entries == old(logs.entries)[i := r.payload])
  {
    if userNote.None? {
      return Failure(BAD_REQUEST);
    }
    if id.None? {
      return Failure(SERVER_ERROR);
    }
    var updated := logs.UpdateNote(id.value, userId, userNote.value);
    if updated.None? {
      return Failure(NOT_FOUND);
    }
    return Success(OK, updated.value);
  }
}

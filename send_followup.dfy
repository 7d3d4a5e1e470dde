/**
 * The send-followup edge function (supabase/functions/send-followup/index.ts).
 * No e-mail leaves the system: "sending" is a status update of the
 * follow-up row. The database is a map from row id to row; whether the
 * database client can be created, whether the lookup or the update reports
 * an error, and the current instant, are parameters.
 */
module SendFollowup {
  import opened Wrappers
  import opened Http

  /** The follow-up columns this function reads or writes (plus those it leaves alone). */
  datatype StoredFollowup = StoredFollowup(
    clientId: string,
    subject: string,
    body: string,
    status: string,
    sentDate: Option<string>,
    scheduledDate: Option<string>)

  /** The members of the request body; `None` for the body is a `req.json()` that throws. */
  datatype SendBody = SendBody(followupId: Field, sendNow: Field)

  datatype SendRequest = SendRequest(httpMethod: string, body: Option<SendBody>)

  /** The `updateData` object: which columns are set, and to what. */
  datatype Update =
    | MarkSent(sentDate: string)
    | MarkScheduled(scheduledDate: string)

  /** `sendNow = true` in the destructuring, then read for truthiness. */
  predicate SendNowOf(f: Field) {
    if f.Absent? then true else Truthy(f)
  }

  /** The update for a follow-up found in the store; a missing or empty `scheduled_date` falls back to `now`. */
  function UpdateFor(sendNow: bool, f: StoredFollowup, now: string): Update {
    if sendNow then MarkSent(now)
    else MarkScheduled(if f.scheduledDate.Some? && f.scheduledDate.value != "" then f.scheduledDate.value else now)
  }

  /** The status an update writes, which is also the `status` of the answer. */
  function StatusOf(u: Update): string {
    match u
    case MarkSent(_) => "sent"
    case MarkScheduled(_) => "scheduled"
  }

  /** The row after `update(updateData)`. */
  function Apply(f: StoredFollowup, u: Update): StoredFollowup {
    match u
    case MarkSent(d) => f.(status := "sent", sentDate := Some(d))
    case MarkScheduled(d) => f.(status := "scheduled", scheduledDate := Some(d))
  }

  /**
   * The row `select('*, clients!inner(*)').eq('id', followupId).single()`
   * returns: the id must be a string naming a row whose client exists
   * (the inner join drops the others), and the lookup must not fail.
   */
  function Lookup(rows: map<string, StoredFollowup>, clientIds: set<string>, id: Field, lookupError: bool): Option<StoredFollowup> {
    if !lookupError && id.Str? && id.s in rows && rows[id.s].clientId in clientIds then Some(rows[id.s]) else None
  }

  /** Where a request ends. */
  datatype Outcome =
    | NoContent
    | MissingId
    | NotFound
    | UpdateFailed
    | Updated(id: string, update: Update, sendNow: bool)
    | Threw

  /**
   * The path the handler takes through its early returns. `initFails` is a
   * `createClient` call that throws, as it does for the empty URL that an
   * unset environment variable leaves; it happens inside the `try`, before
   * the body is read.
   */
  function Decide(rows: map<string, StoredFollowup>, clientIds: set<string>, req: SendRequest, initFails: bool, now: string, lookupError: bool, updateError: bool): Outcome {
    if req.httpMethod == "OPTIONS" then NoContent
    else if initFails || req.body.None? then Threw
    else
      var b := req.body.value;
      if !Truthy(b.followupId) then MissingId
      else
        var found := Lookup(rows, clientIds, b.followupId, lookupError);
        if found.None? then NotFound
        else if updateError then UpdateFailed
        else Updated(b.followupId.s, UpdateFor(SendNowOf(b.sendNow), found.value, now), SendNowOf(b.sendNow))
  }

  /** The answer sent for each outcome. */
  function ResponseFor(o: Outcome): Response {
    match o
    case NoContent => Preflight
    case MissingId => Response(400, Some(ErrorBody("Missing followupId")))
    case NotFound => Response(404, Some(ErrorBody("Followup not found")))
    case UpdateFailed => Response(500, Some(ErrorBody("Failed to update followup status")))
    case Updated(_, u, sendNow) =>
      Response(200, Some(SentBody(true, if sendNow then "Email sent successfully" else "Email scheduled successfully", StatusOf(u))))
    case Threw => ServerError
  }

  /** The rows after the request. */
  function RowsAfter(rows: map<string, StoredFollowup>, o: Outcome): map<string, StoredFollowup> {
    if o.Updated? && o.id in rows then rows[o.id := Apply(rows[o.id], o.update)] else rows
  }

  /**
   * The followups table, with the columns this function reads and writes
   * (`sent_date`, `scheduled_date`); FollowupForm.FollowupTable is the same
   * table seen through the columns the form writes.
   */
  class FollowupStore {
    var rows: map<string, StoredFollowup>

    constructor (initial: map<string, StoredFollowup>)
      ensures rows == initial
    {
      rows := initial;
    }

    /** `update(updateData).eq('id', id)` on a row that exists. */
    method Update(id: string, u: Update)
      requires id in rows
      modifies this
      ensures rows == old(rows)[id := Apply(old(rows)[id], u)]
    {
      rows := rows[id := Apply(rows[id], u)];
    }
  }

  /** The handler given to `serve`, one early return at a time. */
  method Handle(store: FollowupStore, clientIds: set<string>, req: SendRequest, initFails: bool, now: string, lookupError: bool, updateError: bool)
    returns (resp: Response)
    modifies store
    ensures resp == ResponseFor(Decide(old(store.rows), clientIds, req, initFails, now, lookupError, updateError))
    ensures store.rows == RowsAfter(old(store.rows), Decide(old(store.rows), clientIds, req, initFails, now, lookupError, updateError))
  {
    if req.httpMethod == "OPTIONS" {
      return Preflight;
    }
    if initFails || req.body.None? {
      return ServerError;
    }
    var b := req.body.value;
    var sendNow := if b.sendNow.Absent? then true else Truthy(b.sendNow);
    if !Truthy(b.followupId) {
      return Response(400, Some(ErrorBody("Missing followupId")));
    }
    var found := Lookup(store.rows, clientIds, b.followupId, lookupError);
    if found.None? {
      return Response(404, Some(ErrorBody("Followup not found")));
    }
    var followup := found.value;
    var id := b.followupId.s;
    var status := "sent";
    var update := MarkSent(now);
    if !sendNow {
      status := "scheduled";
      update := MarkScheduled(if followup.scheduledDate.Some? && followup.scheduledDate.value != "" then followup.scheduledDate.value else now);
    }
    if updateError {
      return Response(500, Some(ErrorBody("Failed to update followup status")));
    }
    store.Update(id, update);
    resp := Response(200, Some(SentBody(true, if sendNow then "Email sent successfully" else "Email scheduled successfully", status)));
  }

  /** `sendNow` is true when absent; otherwise it is the member's truthiness, so an explicit `null` schedules. */
  lemma SendNowDefault(f: Field)
    ensures SendNowOf(Absent)
    ensures !SendNowOf(Null)
    ensures f.Bool? ==> (SendNowOf(f) <==> f.b)
    ensures !f.Absent? ==> (SendNowOf(f) <==> Truthy(f))
  {
  }

  /** A preflight request gets 204 with no body and touches no row. */
  lemma PreflightTouchesNothing(rows: map<string, StoredFollowup>, clientIds: set<string>, req: SendRequest, initFails: bool, now: string, lookupError: bool, updateError: bool)
    requires req.httpMethod == "OPTIONS"
    ensures var o := Decide(rows, clientIds, req, initFails, now, lookupError, updateError);
      ResponseFor(o) == Response(204, None) && RowsAfter(rows, o) == rows
  {
  }

  /** A falsy `followupId` is answered 400 whatever the store holds or would report, and nothing is written. */
  lemma MissingIdBeforeLookup(rows: map<string, StoredFollowup>, rows': map<string, StoredFollowup>, clientIds: set<string>, req: SendRequest, initFails: bool, now: string, lookupError: bool, updateError: bool)
    requires req.httpMethod != "OPTIONS" && !initFails && req.body.Some? && !Truthy(req.body.value.followupId)
    ensures var o := Decide(rows, clientIds, req, initFails, now, lookupError, updateError);
      && o == Decide(rows', clientIds, req, initFails, now, !lookupError, !updateError)
      && ResponseFor(o) == Response(400, Some(ErrorBody("Missing followupId")))
      && RowsAfter(rows, o) == rows
  {
  }

  /** An id that names no row with a client, or a failed lookup, is answered 404 and nothing is written. */
  lemma UnknownIdIsNotFound(rows: map<string, StoredFollowup>, clientIds: set<string>, req: SendRequest, initFails: bool, now: string, lookupError: bool, updateError: bool)
    requires req.httpMethod != "OPTIONS" && !initFails && req.body.Some? && Truthy(req.body.value.followupId)
    requires var id := req.body.value.followupId;
      lookupError || !id.Str? || id.s !in rows || rows[id.s].clientId !in clientIds
    ensures var o := Decide(rows, clientIds, req, initFails, now, lookupError, updateError);
      ResponseFor(o) == Response(404, Some(ErrorBody("Followup not found"))) && RowsAfter(rows, o) == rows
  {
  }

  /**
   * Sending now writes exactly `status = "sent"` and `sent_date = now`;
   * otherwise exactly `status = "scheduled"` and the existing non-empty
   * `scheduled_date`, or `now`. Every other column is left as it was.
   */
  lemma UpdateExact(sendNow: bool, f: StoredFollowup, now: string)
    ensures var g := Apply(f, UpdateFor(sendNow, f, now));
      && g.clientId == f.clientId && g.subject == f.subject && g.body == f.body
      && (sendNow ==> g.status == "sent" && g.sentDate == Some(now) && g.scheduledDate == f.scheduledDate)
      && (!sendNow ==>
            g.status == "scheduled" && g.sentDate == f.sentDate
            && g.scheduledDate == Some(if f.scheduledDate.Some? && f.scheduledDate.value != "" then f.scheduledDate.value else now))
  {
  }

  /**
   * The answer is 200 exactly when the row was updated; its `status` is the
   * one now stored in the row and its message follows `sendNow`. An update
   * error is 500 with nothing written.
   */
  lemma SuccessMatchesStore(rows: map<string, StoredFollowup>, clientIds: set<string>, req: SendRequest, initFails: bool, now: string, lookupError: bool, updateError: bool)
    ensures var o := Decide(rows, clientIds, req, initFails, now, lookupError, updateError);
      var resp := ResponseFor(o);
      && (resp.status == 200 <==> o.Updated?)
      && (o.Updated? ==>
            && o.id in rows
            && resp.body == Some(SentBody(true, if o.sendNow then "Email sent successfully" else "Email scheduled successfully", RowsAfter(rows, o)[o.id].status))
            && (RowsAfter(rows, o)[o.id].status == "sent" <==> o.sendNow))
      && (o == UpdateFailed ==> resp.status == 500 && RowsAfter(rows, o) == rows)
      && (!o.Updated? ==> RowsAfter(rows, o) == rows)
  {
  }

  /**
   * A client that cannot be created, or a body that cannot be read, is
   * answered 500 "Internal server error"; every answer is one of five codes.
   */
  lemma ResponseCodes(rows: map<string, StoredFollowup>, clientIds: set<string>, req: SendRequest, initFails: bool, now: string, lookupError: bool, updateError: bool)
    ensures req.httpMethod != "OPTIONS" && (initFails || req.body.None?) ==>
      ResponseFor(Decide(rows, clientIds, req, initFails, now, lookupError, updateError)) == Response(500, Some(ErrorBody("Internal server error")))
    ensures ResponseFor(Decide(rows, clientIds, req, initFails, now, lookupError, updateError)).status in {200, 204, 400, 404, 500}
  {
  }

  /** Only a request with `sendNow` truthy (or absent) ever writes status "sent": nothing promotes a scheduled row. */
  lemma SentOnlyWhenSendNow(rows: map<string, StoredFollowup>, clientIds: set<string>, req: SendRequest, initFails: bool, now: string, lookupError: bool, updateError: bool, id: string)
    requires id in rows && rows[id].status != "sent"
    requires var o := Decide(rows, clientIds, req, initFails, now, lookupError, updateError);
      RowsAfter(rows, o)[id].status == "sent"
    ensures !initFails && req.body.Some? && SendNowOf(req.body.value.sendNow)
  {
  }
}

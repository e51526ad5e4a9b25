/** The `assessment_users` lead table and the five routes that write it:
    create-session, update-lead, finalize-lead, save-lead and
    save-session-summary. The hosted store is an in-memory table keyed by
    session id; every route is a function from the old table, the request and
    the backend's behaviour to a reply and a new table, and `LeadStore` runs the
    same steps in place. */
module LeadTable {
  import opened Common

  /** The columns of `assessment_users` that the routes read or write. */
  datatype Column =
    | SessionId | Name | Phone | Email | City | PreferredContactTime
    | Summary | Notes | Status | CompletedAt | UpdatedAt

  /** A row of the lead table; `None` is NULL. */
  datatype Row = Row(
    sessionId: Option<string>,
    name: Option<string>,
    phone: Option<string>,
    email: Option<string>,
    city: Option<string>,
    preferredContactTime: Option<string>,
    summary: Option<string>,
    notes: Option<string>,
    status: Option<string>,
    completedAt: Option<string>,
    updatedAt: Option<string>)

  /** The row `insert` creates from an object naming only `session_id`. */
  function BareRow(sessionId: string): Row {
    Row(Some(sessionId), None, None, None, None, None, None, None, None, None, None)
  }

  /** The table, one row per session id. */
  type Table = map<string, Row>

  /** An `update(...)` object: the columns it names, each with the value to
      write; `None` writes NULL. */
  type Patch = map<Column, Option<string>>

  /** The contact columns that update-lead and save-lead write. */
  predicate IsLeadField(c: Column) {
    c.Name? || c.Phone? || c.Email? || c.City? || c.PreferredContactTime?
  }

  /** The value of a column, `None` for NULL. */
  function Cell(row: Row, c: Column): Option<string> {
    match c
    case SessionId => row.sessionId
    case Name => row.name
    case Phone => row.phone
    case Email => row.email
    case City => row.city
    case PreferredContactTime => row.preferredContactTime
    case Summary => row.summary
    case Notes => row.notes
    case Status => row.status
    case CompletedAt => row.completedAt
    case UpdatedAt => row.updatedAt
  }

  /** The value a patch gives column `c`, or `was` when it does not name it. */
  function Pick(patch: Patch, c: Column, was: Option<string>): Option<string> {
    if c in patch then patch[c] else was
  }

  /** Writing a patch into a row: the columns it names take its values, every
      other column keeps its old value. */
  function Apply(row: Row, patch: Patch): (r: Row)
    ensures forall c :: Cell(r, c) == if c in patch then patch[c] else Cell(row, c)
  {
    Row(Pick(patch, SessionId, row.sessionId), Pick(patch, Name, row.name), Pick(patch, Phone, row.phone),
        Pick(patch, Email, row.email), Pick(patch, City, row.city),
        Pick(patch, PreferredContactTime, row.preferredContactTime), Pick(patch, Summary, row.summary),
        Pick(patch, Notes, row.notes), Pick(patch, Status, row.status),
        Pick(patch, CompletedAt, row.completedAt), Pick(patch, UpdatedAt, row.updatedAt))
  }

  /** `update(patch).eq("session_id", key)`: only the row whose session id is
      `key` changes; an absent key matches no row. */
  function UpdateWhere(t: Table, key: Option<string>, patch: Patch): (r: Table)
    ensures r.Keys == t.Keys
    ensures forall k :: k in t && key != Some(k) ==> r[k] == t[k]
    ensures key.Some? && key.value in t ==> r[key.value] == Apply(t[key.value], patch)
  {
    if key.Some? && key.value in t then t[key.value := Apply(t[key.value], patch)] else t
  }

  /** The rows `.select()` hands back after an update: those whose key matches. */
  function Selected(t: Table, key: Option<string>): seq<Row> {
    if key.Some? && key.value in t then [t[key.value]] else []
  }

  /** The JSON bodies these routes answer with. */
  datatype Reply =
    | ErrorReply(status: int, error: string)                // { error }, status 400 or 500
    | FailureReply(error: string, details: Option<string>)  // { success: false, error, details? }, status 500
    | RowsReply(message: string, data: seq<Row>)           // { success: true, message, data }
    | OkReply(note: Option<string>)                         // { success: true, message? }
    | SessionReply(sessionId: string)                       // { success: true, sessionId }

  function StatusOf(r: Reply): int {
    match r
    case ErrorReply(status, _) => status
    case FailureReply(_, _) => 500
    case _ => 200
  }

  predicate Succeeded(r: Reply) {
    r.RowsReply? || r.OkReply? || r.SessionReply?
  }

  /** What a route answers and the table it leaves behind. */
  datatype Outcome = Outcome(reply: Reply, table: Table)

  const MissingSession: Reply := ErrorReply(400, "Session ID required")

  /** The outer `catch`. The routes that read the environment with `!` hand
      missing variables to `createServerClient`, which throws, so they land here too. */
  const InternalError: Reply := ErrorReply(500, "Internal server error")

  const DefaultSummary: string := "Assessment completed"

  // ---------------------------------------------------------------- create-session

  /** POST /api/create-session. The insert fails when the store reports an
      error, or when a row with the same session id exists. */
  function CreateSessionRoute(t: Table, sessionId: Option<string>, b: Backend): (out: Outcome)
    ensures !Truthy(sessionId) ==> out == Outcome(MissingSession, t)
    ensures Succeeded(out.reply) <==> Truthy(sessionId) && Healthy(b) && sessionId.value !in t
    ensures !Succeeded(out.reply) ==> out.table == t && StatusOf(out.reply) in {400, 500}
    ensures Succeeded(out.reply) ==>
      && out.reply == SessionReply(sessionId.value)
      && out.table.Keys == t.Keys + {sessionId.value}
      && (forall k :: k in t ==> out.table[k] == t[k])
      && Cell(out.table[sessionId.value], SessionId) == sessionId
      && (forall c :: c != SessionId ==> Cell(out.table[sessionId.value], c) == None)
  {
    if !Truthy(sessionId) then Outcome(MissingSession, t)
    else if b.fault.Some? || !b.configured then Outcome(InternalError, t)
    else if b.dbError.Some? || sessionId.value in t then Outcome(ErrorReply(500, "Failed to create session"), t)
    else Outcome(SessionReply(sessionId.value), t[sessionId.value := BareRow(sessionId.value)])
  }

  // ---------------------------------------------------------------- update-lead

  datatype UpdateLeadRequest = UpdateLeadRequest(
    sessionId: Option<string>,
    name: Option<string>,
    phone: Option<string>,
    email: Option<string>,
    city: Option<string>,
    preferredTime: Option<string>)

  /** The request field that feeds column `c`: `preferredTime` feeds
      `preferred_contact_time`; other columns are fed by none. */
  function Supplied(req: UpdateLeadRequest, c: Column): Option<string> {
    match c
    case Name => req.name
    case Phone => req.phone
    case Email => req.email
    case City => req.city
    case PreferredContactTime => req.preferredTime
    case _ => None
  }

  /** update-lead's `updateData`: `updated_at`, plus each contact column whose
      request field is truthy. */
  function UpdatePatch(req: UpdateLeadRequest, now: string): (p: Patch)
    ensures forall c :: c in p <==> c == UpdatedAt || (IsLeadField(c) && Truthy(Supplied(req, c)))
    ensures p[UpdatedAt] == Some(now)
    ensures forall c :: c in p && c != UpdatedAt ==> p[c] == Supplied(req, c)
  {
    var p0 := map[UpdatedAt := Some(now)];
    var p1 := if Truthy(req.name) then p0[Name := req.name] else p0;
    var p2 := if Truthy(req.phone) then p1[Phone := req.phone] else p1;
    var p3 := if Truthy(req.email) then p2[Email := req.email] else p2;
    var p4 := if Truthy(req.city) then p3[City := req.city] else p3;
    if Truthy(req.preferredTime) then p4[PreferredContactTime := req.preferredTime] else p4
  }

  /** POST /api/update-lead at clock reading `now`. */
  function UpdateLeadRoute(t: Table, req: UpdateLeadRequest, b: Backend, now: string): (out: Outcome)
    ensures !Truthy(req.sessionId) ==> out == Outcome(MissingSession, t)
    ensures Succeeded(out.reply) <==> Truthy(req.sessionId) && Healthy(b)
    ensures !Succeeded(out.reply) ==> out.table == t
    ensures Truthy(req.sessionId) && (b.fault.Some? || !b.configured) ==> out.reply == InternalError
    ensures Truthy(req.sessionId) && b.fault.None? && b.configured && b.dbError.Some? ==>
      out.reply == ErrorReply(500, "Failed to update lead")
    ensures out.table.Keys == t.Keys
    ensures forall k :: k in t && req.sessionId != Some(k) ==> out.table[k] == t[k]
    ensures Succeeded(out.reply) ==>
      out.reply == RowsReply("Lead updated successfully", Selected(out.table, req.sessionId))
    ensures Succeeded(out.reply) && req.sessionId.value in t ==>
      forall c :: Cell(out.table[req.sessionId.value], c) ==
        if c == UpdatedAt then Some(now)
        else if IsLeadField(c) && Truthy(Supplied(req, c)) then Supplied(req, c)
        else Cell(t[req.sessionId.value], c)
  {
    if !Truthy(req.sessionId) then Outcome(MissingSession, t)
    else if b.fault.Some? || !b.configured then Outcome(InternalError, t)
    else if b.dbError.Some? then Outcome(ErrorReply(500, "Failed to update lead"), t)
    else
      var t' := UpdateWhere(t, req.sessionId, UpdatePatch(req, now));
      Outcome(RowsReply("Lead updated successfully", Selected(t', req.sessionId)), t')
  }

  // ---------------------------------------------------------------- finalize-lead

  datatype FinalizeLeadRequest = FinalizeLeadRequest(
    sessionId: Option<string>,
    summary: Option<string>,
    finalNote: Option<string>)

  /** finalize-lead's `updateData`, built from two clock readings. */
  function FinalizePatch(req: FinalizeLeadRequest, completedAt: string, updatedAt: string): (p: Patch)
    ensures Summary in p && Status in p && CompletedAt in p && UpdatedAt in p
    ensures Notes in p <==> Truthy(req.finalNote)
    ensures forall c :: IsLeadField(c) || c == SessionId ==> c !in p
    ensures p[Summary] == Some(if Truthy(req.summary) then req.summary.value else DefaultSummary)
    ensures p[Status] == Some("completed")
    ensures p[CompletedAt] == Some(completedAt) && p[UpdatedAt] == Some(updatedAt)
    ensures Notes in p ==> p[Notes] == req.finalNote
  {
    var p := map[Summary := Some(OrElse(req.summary, DefaultSummary)),
                 Status := Some("completed"),
                 CompletedAt := Some(completedAt),
                 UpdatedAt := Some(updatedAt)];
    if Truthy(req.finalNote) then p[Notes := req.finalNote] else p
  }

  /** POST /api/finalize-lead. Nothing here looks at the contact columns. */
  function FinalizeLeadRoute(t: Table, req: FinalizeLeadRequest, b: Backend,
                             completedAt: string, updatedAt: string): (out: Outcome)
    ensures !Truthy(req.sessionId) ==> out == Outcome(MissingSession, t)
    ensures Succeeded(out.reply) <==> Truthy(req.sessionId) && Healthy(b)
    ensures !Succeeded(out.reply) ==> out.table == t
    ensures Truthy(req.sessionId) && (b.fault.Some? || !b.configured) ==> out.reply == InternalError
    ensures Truthy(req.sessionId) && b.fault.None? && b.configured && b.dbError.Some? ==>
      out.reply == ErrorReply(500, "Failed to finalize lead")
    ensures out.table.Keys == t.Keys
    ensures forall k :: k in t && req.sessionId != Some(k) ==> out.table[k] == t[k]
    ensures Succeeded(out.reply) ==>
      out.reply == RowsReply("Lead finalized successfully", Selected(out.table, req.sessionId))
    ensures Succeeded(out.reply) && req.sessionId.value in t ==>
      var row, row' := t[req.sessionId.value], out.table[req.sessionId.value];
      && row'.status == Some("completed")
      && row'.summary == Some(if Truthy(req.summary) then req.summary.value else DefaultSummary)
      && row'.completedAt == Some(completedAt)
      && row'.updatedAt == Some(updatedAt)
      && row'.notes == (if Truthy(req.finalNote) then req.finalNote else row.notes)
      && row'.sessionId == row.sessionId
      && row'.name == row.name && row'.phone == row.phone && row'.email == row.email && row'.city == row.city
      && row'.preferredContactTime == row.preferredContactTime
  {
    if !Truthy(req.sessionId) then Outcome(MissingSession, t)
    else if b.fault.Some? || !b.configured then Outcome(InternalError, t)
    else if b.dbError.Some? then Outcome(ErrorReply(500, "Failed to finalize lead"), t)
    else
      var t' := UpdateWhere(t, req.sessionId, FinalizePatch(req, completedAt, updatedAt));
      Outcome(RowsReply("Lead finalized successfully", Selected(t', req.sessionId)), t')
  }

  // ---------------------------------------------------------------- save-lead

  datatype SaveLeadRequest = SaveLeadRequest(
    sessionId: Option<string>,
    name: Option<string>,
    email: Option<string>,
    phone: Option<string>,
    city: Option<string>,
    preferredTime: Option<string>,
    summary: Option<string>)

  /** save-lead's update object: six columns, each the field `|| null`. */
  function SaveLeadPatch(req: SaveLeadRequest): (p: Patch)
    ensures forall c :: c in p <==> IsLeadField(c) || c == Summary
    ensures SessionId !in p && Status !in p && Notes !in p && CompletedAt !in p && UpdatedAt !in p
    ensures Name in p && Email in p && Phone in p && City in p && PreferredContactTime in p
    ensures p[Name] == OrNull(req.name) && p[Email] == OrNull(req.email) && p[Phone] == OrNull(req.phone)
    ensures p[City] == OrNull(req.city) && p[PreferredContactTime] == OrNull(req.preferredTime)
    ensures p[Summary] == OrNull(req.summary)
  {
    map[Name := OrNull(req.name), Email := OrNull(req.email), Phone := OrNull(req.phone),
        City := OrNull(req.city), PreferredContactTime := OrNull(req.preferredTime),
        Summary := OrNull(req.summary)]
  }

  /** POST /api/save-lead. Reading the cookies comes before the environment
      check, so a fault there wins over missing configuration. */
  function SaveLeadRoute(t: Table, req: SaveLeadRequest, b: Backend): (out: Outcome)
    ensures Succeeded(out.reply) <==> Healthy(b)
    ensures Succeeded(out.reply) ==> out.reply == OkReply(Some("Lead saved successfully"))
    ensures !Succeeded(out.reply) ==> out.table == t && out.reply.FailureReply? && StatusOf(out.reply) == 500
    ensures b.fault.None? && !b.configured ==>
      out.reply == FailureReply("Missing Supabase environment variables", None)
    ensures b.fault.None? && b.configured && b.dbError.Some? ==>
      out.reply == FailureReply("Failed to save lead", b.dbError)
    ensures out.table.Keys == t.Keys
    ensures forall k :: k in t && req.sessionId != Some(k) ==> out.table[k] == t[k]
    ensures Succeeded(out.reply) && req.sessionId.Some? && req.sessionId.value in t ==>
      var row, row' := t[req.sessionId.value], out.table[req.sessionId.value];
      && row'.name == OrNull(req.name)
      && row'.email == OrNull(req.email)
      && row'.phone == OrNull(req.phone)
      && row'.city == OrNull(req.city)
      && row'.preferredContactTime == OrNull(req.preferredTime)
      && row'.summary == OrNull(req.summary)
      && row'.sessionId == row.sessionId && row'.status == row.status && row'.notes == row.notes
      && row'.completedAt == row.completedAt && row'.updatedAt == row.updatedAt
  {
    if b.fault.Some? then Outcome(FailureReply("Failed to save lead", b.fault), t)
    else if !b.configured then Outcome(FailureReply("Missing Supabase environment variables", None), t)
    else if b.dbError.Some? then Outcome(FailureReply("Failed to save lead", b.dbError), t)
    else Outcome(OkReply(Some("Lead saved successfully")), UpdateWhere(t, req.sessionId, SaveLeadPatch(req)))
  }

  // ---------------------------------------------------------------- save-session-summary

  /** `summary` None stands for a JSON null. */
  datatype SummaryRequest = SummaryRequest(sessionId: Option<string>, summary: Option<string>)

  /** POST /api/save-session-summary. There is no session id check. */
  function SaveSummaryRoute(t: Table, req: SummaryRequest, b: Backend): (out: Outcome)
    ensures Succeeded(out.reply) <==> Healthy(b)
    ensures Succeeded(out.reply) ==> out.reply == OkReply(None)
    ensures !Succeeded(out.reply) ==> out.table == t && StatusOf(out.reply) == 500
    ensures b.fault.None? && b.configured && b.dbError.Some? ==> out.reply == ErrorReply(500, b.dbError.value)
    ensures out.table.Keys == t.Keys
    ensures forall k :: k in t && req.sessionId != Some(k) ==> out.table[k] == t[k]
    ensures Succeeded(out.reply) && req.sessionId.Some? && req.sessionId.value in t ==>
      forall c :: Cell(out.table[req.sessionId.value], c) ==
        if c == Summary then req.summary else Cell(t[req.sessionId.value], c)
  {
    if b.fault.Some? || !b.configured then Outcome(InternalError, t)
    else if b.dbError.Some? then Outcome(ErrorReply(500, b.dbError.value), t)
    else Outcome(OkReply(None), UpdateWhere(t, req.sessionId, map[Summary := req.summary]))
  }

  // ---------------------------------------------------------------- the table, in place

  /** The lead table as the routes change it: each method performs its route's
      steps on `rows` and answers what the route function says. */
  class LeadStore {
    var rows: Table

    /** Every row carries its own key in `session_id`. */
    ghost predicate Valid()
      reads this
    {
      forall k :: k in rows ==> Cell(rows[k], SessionId) == Some(k)
    }

    constructor ()
      ensures Valid() && rows == map[]
    {
      rows := map[];
    }

    method CreateSession(sessionId: Option<string>, b: Backend) returns (reply: Reply)
      requires Valid()
      modifies this
      ensures Valid()
      ensures Outcome(reply, rows) == CreateSessionRoute(old(rows), sessionId, b)
    {
      if !Truthy(sessionId) {
        return MissingSession;
      }
      if b.fault.Some? || !b.configured {
        return InternalError;
      }
      var id := sessionId.value;
      if b.dbError.Some? || id in rows {
        return ErrorReply(500, "Failed to create session");
      }
      rows := rows[id := BareRow(id)];
      reply := SessionReply(id);
    }

    method UpdateLead(req: UpdateLeadRequest, b: Backend, now: string) returns (reply: Reply)
      requires Valid()
      modifies this
      ensures Valid()
      ensures Outcome(reply, rows) == UpdateLeadRoute(old(rows), req, b, now)
    {
      if !Truthy(req.sessionId) {
        return MissingSession;
      }
      if b.fault.Some? || !b.configured {
        return InternalError;
      }
      var updateData: Patch := map[UpdatedAt := Some(now)];
      if Truthy(req.name) { updateData := updateData[Name := req.name]; }
      if Truthy(req.phone) { updateData := updateData[Phone := req.phone]; }
      if Truthy(req.email) { updateData := updateData[Email := req.email]; }
      if Truthy(req.city) { updateData := updateData[City := req.city]; }
      if Truthy(req.preferredTime) { updateData := updateData[PreferredContactTime := req.preferredTime]; }
      if b.dbError.Some? {
        return ErrorReply(500, "Failed to update lead");
      }
      WriteRow(req.sessionId.value, updateData);
      reply := RowsReply("Lead updated successfully", Selected(rows, req.sessionId));
    }

    method FinalizeLead(req: FinalizeLeadRequest, b: Backend, completedAt: string, updatedAt: string)
      returns (reply: Reply)
      requires Valid()
      modifies this
      ensures Valid()
      ensures Outcome(reply, rows) == FinalizeLeadRoute(old(rows), req, b, completedAt, updatedAt)
    {
      if !Truthy(req.sessionId) {
        return MissingSession;
      }
      if b.fault.Some? || !b.configured {
        return InternalError;
      }
      var updateData: Patch := map[Summary := Some(OrElse(req.summary, DefaultSummary)),
                                   Status := Some("completed"),
                                   CompletedAt := Some(completedAt),
                                   UpdatedAt := Some(updatedAt)];
      if Truthy(req.finalNote) {
        updateData := updateData[Notes := req.finalNote];
      }
      if b.dbError.Some? {
        return ErrorReply(500, "Failed to finalize lead");
      }
      WriteRow(req.sessionId.value, updateData);
      reply := RowsReply("Lead finalized successfully", Selected(rows, req.sessionId));
    }

    method SaveLead(req: SaveLeadRequest, b: Backend) returns (reply: Reply)
      requires Valid()
      modifies this
      ensures Valid()
      ensures Outcome(reply, rows) == SaveLeadRoute(old(rows), req, b)
    {
      if b.fault.Some? {
        return FailureReply("Failed to save lead", b.fault);
      }
      if !b.configured {
        return FailureReply("Missing Supabase environment variables", None);
      }
      if b.dbError.Some? {
        return FailureReply("Failed to save lead", b.dbError);
      }
      if req.sessionId.Some? {
        WriteRow(req.sessionId.value, SaveLeadPatch(req));
      }
      reply := OkReply(Some("Lead saved successfully"));
    }

    method SaveSessionSummary(req: SummaryRequest, b: Backend) returns (reply: Reply)
      requires Valid()
      modifies this
      ensures Valid()
      ensures Outcome(reply, rows) == SaveSummaryRoute(old(rows), req, b)
    {
      if b.fault.Some? || !b.configured {
        return InternalError;
      }
      if b.dbError.Some? {
        return ErrorReply(500, b.dbError.value);
      }
      if req.sessionId.Some? {
        WriteRow(req.sessionId.value, map[Summary := req.summary]);
      }
      reply := OkReply(None);
    }

    /** `update(patch).eq("session_id", key)` on the table in place. */
    method WriteRow(key: string, patch: Patch)
      requires Valid()
      requires SessionId !in patch
      modifies this
      ensures Valid()
      ensures rows == UpdateWhere(old(rows), Some(key), patch)
    {
      if key in rows {
        rows := rows[key := Apply(rows[key], patch)];
      }
    }
  }

  // ---------------------------------------------------------------- properties over several calls

  /** The row after a run of update-lead calls, the i-th call at clock reading `nows[i]`. */
  function ApplyUpdates(row: Row, reqs: seq<UpdateLeadRequest>, nows: seq<string>): Row
    requires |nows| == |reqs|
  {
    if |reqs| == 0 then row
    else Apply(ApplyUpdates(row, reqs[..|reqs| - 1], nows[..|nows| - 1]),
               UpdatePatch(reqs[|reqs| - 1], nows[|nows| - 1]))
  }

  /** The value the latest call with a truthy field for `c` supplied, or `prior`
      when no call did. */
  function LatestSupplied(reqs: seq<UpdateLeadRequest>, c: Column, prior: Option<string>): Option<string> {
    if |reqs| == 0 then prior
    else if Truthy(Supplied(reqs[|reqs| - 1], c)) then Supplied(reqs[|reqs| - 1], c)
    else LatestSupplied(reqs[..|reqs| - 1], c, prior)
  }

  /** Over any run of update-lead calls, each contact column ends up with the
      most recently supplied non-empty value, or keeps its old value when no call
      supplied one; so a value once written is never cleared. With calls that
      supply disjoint fields, the row holds the union of all of them. */
  lemma {:induction false} UpdatesKeepLatest(row: Row, reqs: seq<UpdateLeadRequest>, nows: seq<string>, c: Column)
    requires |nows| == |reqs|
    requires IsLeadField(c)
    ensures Cell(ApplyUpdates(row, reqs, nows), c) == LatestSupplied(reqs, c, Cell(row, c))
    ensures Cell(row, c).Some? ==> Cell(ApplyUpdates(row, reqs, nows), c).Some?
  {
    if |reqs| > 0 {
      var n := |reqs| - 1;
      UpdatesKeepLatest(row, reqs[..n], nows[..n], c);
      var p := UpdatePatch(reqs[n], nows[n]);
      assert c in p <==> Truthy(Supplied(reqs[n], c));
    }
  }

  /** update-lead on a healthy backend writes `UpdatePatch` into the matching row,
      so a run of them is `ApplyUpdates`. */
  lemma {:induction false} UpdateRouteIsApply(t: Table, sid: string, req: UpdateLeadRequest, b: Backend, now: string)
    requires sid in t && sid != "" && req.sessionId == Some(sid) && Healthy(b)
    ensures UpdateLeadRoute(t, req, b, now).table[sid] == ApplyUpdates(t[sid], [req], [now])
  {
    assert [req][..0] == [] && [now][..0] == [];
  }

  /** The row update-lead writes, column by column: every truthy contact field,
      the clock reading, and everything else as it was. */
  lemma UpdatedRow(row: Row, req: UpdateLeadRequest, now: string)
    ensures Apply(row, UpdatePatch(req, now))
         == row.(name := if Truthy(req.name) then req.name else row.name,
                 phone := if Truthy(req.phone) then req.phone else row.phone,
                 email := if Truthy(req.email) then req.email else row.email,
                 city := if Truthy(req.city) then req.city else row.city,
                 preferredContactTime := if Truthy(req.preferredTime) then req.preferredTime else row.preferredContactTime,
                 updatedAt := Some(now))
  {
  }

  /** A second finalize-lead on the same row succeeds again: status stays
      "completed" while summary and completed_at are overwritten. */
  lemma FinalizeTwice(t: Table, sid: string, b: Backend,
                      first: FinalizeLeadRequest, c1: string, u1: string,
                      second: FinalizeLeadRequest, c2: string, u2: string)
    requires sid in t && sid != "" && Healthy(b)
    requires first.sessionId == Some(sid) && second.sessionId == Some(sid)
    ensures var t1 := FinalizeLeadRoute(t, first, b, c1, u1).table;
            var out := FinalizeLeadRoute(t1, second, b, c2, u2);
            && Succeeded(out.reply)
            && Cell(out.table[sid], Status) == Some("completed")
            && Cell(out.table[sid], Summary) == Some(OrElse(second.summary, DefaultSummary))
            && Cell(out.table[sid], CompletedAt) == Some(c2)
  {
  }

  /** The rule "name, city and a phone or e-mail before finalising" lives only in
      the model's instructions: a session fresh from create-session, with no
      contact column set, is finalised all the same. */
  lemma FinalizeNeedsNoContactDetails(t: Table, sid: string, b: Backend, req: FinalizeLeadRequest,
                                      completedAt: string, updatedAt: string)
    requires sid != "" && sid !in t && Healthy(b) && req.sessionId == Some(sid)
    ensures var t1 := CreateSessionRoute(t, Some(sid), b).table;
            var out := FinalizeLeadRoute(t1, req, b, completedAt, updatedAt);
            && Succeeded(out.reply)
            && Cell(out.table[sid], Status) == Some("completed")
            && (forall c :: IsLeadField(c) ==> Cell(out.table[sid], c) == None)
  {
    CreatedRowIsBare(t, sid, b);
    FinalizeKeepsContacts(CreateSessionRoute(t, Some(sid), b).table, sid, b, req, completedAt, updatedAt);
  }

  /** A successful finalize completes the row and leaves its contact columns as they were. */
  lemma FinalizeKeepsContacts(t: Table, sid: string, b: Backend, req: FinalizeLeadRequest,
                              completedAt: string, updatedAt: string)
    requires sid != "" && sid in t && Healthy(b) && req.sessionId == Some(sid)
    ensures var out := FinalizeLeadRoute(t, req, b, completedAt, updatedAt);
            && Succeeded(out.reply)
            && Cell(out.table[sid], Status) == Some("completed")
            && (forall c :: IsLeadField(c) ==> Cell(out.table[sid], c) == Cell(t[sid], c))
  {
  }

  /** A successful create-session row has only its session id set. */
  lemma CreatedRowIsBare(t: Table, sid: string, b: Backend)
    requires sid != "" && sid !in t && Healthy(b)
    ensures CreateSessionRoute(t, Some(sid), b).table[sid] == BareRow(sid)
  {
  }

  // ---------------------------------------------------------------- completion is never reversed

  /** One call of any of the five routes. */
  datatype Call =
    | CreateCall(sessionId: Option<string>)
    | UpdateCall(update: UpdateLeadRequest, now: string)
    | FinalizeCall(finalize: FinalizeLeadRequest, completedAt: string, updatedAt: string)
    | SaveLeadCall(save: SaveLeadRequest)
    | SaveSummaryCall(summary: SummaryRequest)

  function Step(t: Table, call: Call, b: Backend): Table {
    match call
    case CreateCall(sid) => CreateSessionRoute(t, sid, b).table
    case UpdateCall(req, now) => UpdateLeadRoute(t, req, b, now).table
    case FinalizeCall(req, c, u) => FinalizeLeadRoute(t, req, b, c, u).table
    case SaveLeadCall(req) => SaveLeadRoute(t, req, b).table
    case SaveSummaryCall(req) => SaveSummaryRoute(t, req, b).table
  }

  /** The table after a run of calls, each on its own backend state. */
  function Run(t: Table, calls: seq<Call>, bs: seq<Backend>): Table
    requires |bs| == |calls|
  {
    if |calls| == 0 then t
    else Step(Run(t, calls[..|calls| - 1], bs[..|bs| - 1]), calls[|calls| - 1], bs[|bs| - 1])
  }

  /** No route deletes a row or moves its status away from "completed". */
  lemma StepKeepsCompleted(t: Table, call: Call, b: Backend, k: string)
    requires k in t && t[k].status == Some("completed")
    ensures k in Step(t, call, b) && Step(t, call, b)[k].status == Some("completed")
  {
    match call
    case CreateCall(sid) =>
    case UpdateCall(req, now) => UpdateKeepsStatus(t, req, b, now, k);
    case FinalizeCall(req, c, u) =>
    case SaveLeadCall(req) =>
    case SaveSummaryCall(req) => SummaryKeepsStatus(t, req, b, k);
  }

  /** update-lead never writes the status column. */
  lemma UpdateKeepsStatus(t: Table, req: UpdateLeadRequest, b: Backend, now: string, k: string)
    requires k in t
    ensures k in UpdateLeadRoute(t, req, b, now).table
    ensures UpdateLeadRoute(t, req, b, now).table[k].status == t[k].status
  {
    var out := UpdateLeadRoute(t, req, b, now);
    if Succeeded(out.reply) && req.sessionId == Some(k) {
      assert Cell(out.table[k], Status) == Cell(t[k], Status);
    }
  }

  /** save-session-summary never writes the status column. */
  lemma SummaryKeepsStatus(t: Table, req: SummaryRequest, b: Backend, k: string)
    requires k in t
    ensures k in SaveSummaryRoute(t, req, b).table
    ensures SaveSummaryRoute(t, req, b).table[k].status == t[k].status
  {
    var out := SaveSummaryRoute(t, req, b);
    if Succeeded(out.reply) && req.sessionId == Some(k) {
      assert Cell(out.table[k], Status) == Cell(t[k], Status);
    }
  }

  /** Once a lead is completed it stays completed, whatever calls follow and
      whatever the backend does: the status only ever moves to "completed". */
  lemma {:induction false} CompletedStaysCompleted(t: Table, calls: seq<Call>, bs: seq<Backend>, k: string)
    requires |bs| == |calls|
    requires k in t && t[k].status == Some("completed")
    ensures k in Run(t, calls, bs) && Run(t, calls, bs)[k].status == Some("completed")
  {
    if |calls| > 0 {
      var n := |calls| - 1;
      CompletedStaysCompleted(t, calls[..n], bs[..n], k);
      StepKeepsCompleted(Run(t, calls[..n], bs[..n]), calls[n], bs[n], k);
    }
  }
}

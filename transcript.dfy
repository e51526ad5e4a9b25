/** The `chat_history` table: one transcript per session, appended to by
    save-chat-message and read back by get-chat-history. */
module Transcript {
  import opened Common

  /** One stored message, `{ role, content }`. */
  datatype StoredMsg = StoredMsg(role: string, content: Content)

  /** Session id to its `messages` column; `None` when that column is NULL. */
  type ChatTable = map<string, Option<seq<StoredMsg>>>

  /** The greeting save-chat-message starts a transcript with. Its dash is
      stored as the three characters a UTF-8 em dash becomes when read as
      Windows-1252, unlike the greeting the chat components show. */
  const ServerGreeting: string :=
    "Hi there! I'm Scout, your AI Pest Assessment Assistant. I help homeowners identify pest issues "
    + "and recommend the best solutions \U{00E2}\U{20AC}\U{201D} whether it's a quick DIY fix or something that needs a pro."

  /** The transcript a session has before anything is stored for it. */
  const DefaultTranscript: seq<StoredMsg> := [StoredMsg("assistant", Text(ServerGreeting))]

  /** The body the chat route posts: `userMessage` is a string or an array of parts. */
  datatype SaveChatRequest = SaveChatRequest(sessionId: string, userMessage: Content, botResponse: string)

  /** `{ success: true, message }` with status 200, or `{ success: false, error, details? }` with 500. */
  datatype SaveReply = Saved | SaveFailed(error: string, details: Option<string>)

  datatype SaveOutcome = SaveOutcome(reply: SaveReply, table: ChatTable)

  /** `existingChat?.messages || [greeting]`. The select yields no data when the
      session has no row (the PGRST116 error) and when it fails in any other way,
      which is only logged (`fetchFails`). A stored empty array is truthy and is kept. */
  function Existing(t: ChatTable, sessionId: string, fetchFails: bool): seq<StoredMsg> {
    if !fetchFails && sessionId in t && t[sessionId].Some? then t[sessionId].value else DefaultTranscript
  }

  /** The two messages one chat turn adds. */
  function Turn(userMessage: Content, botResponse: string): seq<StoredMsg> {
    [StoredMsg("user", userMessage), StoredMsg("assistant", Text(botResponse))]
  }

  /** POST /api/save-chat-message. */
  function SaveChatRoute(t: ChatTable, req: SaveChatRequest, b: Backend, fetchFails: bool): (out: SaveOutcome)
    ensures out.reply.Saved? <==> Healthy(b)
    ensures !out.reply.Saved? ==> out.table == t
    ensures b.fault.Some? ==> out.reply == SaveFailed("Failed to save chat message", b.fault)
    ensures b.fault.None? && !b.configured ==>
      out.reply == SaveFailed("Missing Supabase environment variables", None)
    ensures b.fault.None? && b.configured && b.dbError.Some? ==>
      out.reply == SaveFailed("Failed to save chat history", None)
    ensures out.reply.Saved? ==>
      && out.table.Keys == t.Keys + {req.sessionId}
      && (forall k :: k in t && k != req.sessionId ==> out.table[k] == t[k])
      && out.table[req.sessionId].Some?
      && var before, after := Existing(t, req.sessionId, fetchFails), out.table[req.sessionId].value;
         && |after| == |before| + 2
         && after[..|before|] == before
         && after[|before|] == StoredMsg("user", req.userMessage)
         && after[|before| + 1] == StoredMsg("assistant", Text(req.botResponse))
  {
    if b.fault.Some? then SaveOutcome(SaveFailed("Failed to save chat message", b.fault), t)
    else if !b.configured then SaveOutcome(SaveFailed("Missing Supabase environment variables", None), t)
    else if b.dbError.Some? then SaveOutcome(SaveFailed("Failed to save chat history", None), t)
    else
      var updated := Existing(t, req.sessionId, fetchFails) + Turn(req.userMessage, req.botResponse);
      SaveOutcome(Saved, t[req.sessionId := Some(updated)])
  }

  /** `{ error: "Missing sessionId" }` with status 400, or `{ messages }` with a status. */
  datatype HistoryReply = MissingSessionId | History(status: int, messages: seq<StoredMsg>)

  /** GET /api/get-chat-history. Every failure after the session id check still
      answers with a message list, an empty one. */
  function GetChatHistory(t: ChatTable, sessionId: Option<string>, b: Backend): (r: HistoryReply)
    ensures r == MissingSessionId <==> !Truthy(sessionId)
    ensures Truthy(sessionId) && (b.fault.Some? || !b.configured) ==> r == History(500, [])
    ensures (Truthy(sessionId) && b.fault.None? && b.configured
             && (b.dbError.Some? || sessionId.value !in t || t[sessionId.value].None?)) ==> r == History(200, [])
    ensures Truthy(sessionId) && Healthy(b) && sessionId.value in t && t[sessionId.value].Some? ==>
      r == History(200, t[sessionId.value].value)
    ensures r.History? && r.messages != [] ==>
      r.status == 200 && sessionId.value in t && t[sessionId.value] == Some(r.messages)
  {
    if !Truthy(sessionId) then MissingSessionId
    else if b.fault.Some? || !b.configured then History(500, [])
    else if b.dbError.Some? || sessionId.value !in t then History(200, [])
    else if t[sessionId.value].None? then History(200, [])
    else History(200, t[sessionId.value].value)
  }

  /** The chat history table in place. */
  class TranscriptStore {
    var rows: ChatTable

    constructor ()
      ensures rows == map[]
    {
      rows := map[];
    }

    /** Read the stored transcript, fall back to the greeting, append the turn, upsert. */
    method SaveChatMessage(req: SaveChatRequest, b: Backend, fetchFails: bool) returns (reply: SaveReply)
      modifies this
      ensures SaveOutcome(reply, rows) == SaveChatRoute(old(rows), req, b, fetchFails)
    {
      if b.fault.Some? {
        return SaveFailed("Failed to save chat message", b.fault);
      }
      if !b.configured {
        return SaveFailed("Missing Supabase environment variables", None);
      }
      var existingChat: Option<seq<StoredMsg>> := None;
      if !fetchFails && req.sessionId in rows {
        existingChat := rows[req.sessionId];
      }
      var existingMessages := if existingChat.Some? then existingChat.value else DefaultTranscript;
      var updatedMessages := existingMessages + [StoredMsg("user", req.userMessage),
                                                 StoredMsg("assistant", Text(req.botResponse))];
      if b.dbError.Some? {
        return SaveFailed("Failed to save chat history", None);
      }
      rows := rows[req.sessionId := Some(updatedMessages)];
      reply := Saved;
    }
  }

  // ---------------------------------------------------------------- properties over several calls

  /** Reading back after a successful save gives the earlier transcript (or the
      greeting) followed by the two new messages, unchanged and in order. */
  lemma SaveThenGet(t: ChatTable, req: SaveChatRequest, b: Backend, fetchFails: bool)
    requires Healthy(b) && req.sessionId != ""
    ensures GetChatHistory(SaveChatRoute(t, req, b, fetchFails).table, Some(req.sessionId), b)
            == History(200, Existing(t, req.sessionId, fetchFails) + Turn(req.userMessage, req.botResponse))
  {
  }

  /** The turns of a run of saves, flattened. */
  function Turns(users: seq<Content>, bots: seq<string>): seq<StoredMsg>
    requires |users| == |bots|
  {
    if |users| == 0 then []
    else Turns(users[..|users| - 1], bots[..|bots| - 1]) + Turn(users[|users| - 1], bots[|bots| - 1])
  }

  /** The table after a run of saves for one session, none of whose reads fail. */
  function SaveRun(t: ChatTable, sid: string, b: Backend, users: seq<Content>, bots: seq<string>): ChatTable
    requires |users| == |bots|
  {
    if |users| == 0 then t
    else SaveChatRoute(SaveRun(t, sid, b, users[..|users| - 1], bots[..|bots| - 1]),
                       SaveChatRequest(sid, users[|users| - 1], bots[|bots| - 1]), b, false).table
  }

  /** The transcript is append-only: after any run of successful saves it is
      the transcript the first save started from, followed by every turn in order,
      and other sessions are untouched. */
  lemma SaveRunAppends(t: ChatTable, sid: string, b: Backend, users: seq<Content>, bots: seq<string>)
    requires |users| == |bots| && |users| > 0 && Healthy(b)
    ensures var t' := SaveRun(t, sid, b, users, bots);
            && sid in t' && t'[sid] == Some(Existing(t, sid, false) + Turns(users, bots))
            && (forall k :: k in t && k != sid ==> k in t' && t'[k] == t[k])
  {
    SaveRunIsAppendRun(t, sid, b, users, bots);
    AppendRunTranscript(t, sid, users, bots);
    AppendRunOthers(t, sid, users, bots);
  }

  /** The table after one successful save of a turn for `sid`. */
  function Saved1(t: ChatTable, sid: string, user: Content, bot: string): ChatTable {
    t[sid := Some(Existing(t, sid, false) + Turn(user, bot))]
  }

  /** A run of `Saved1` steps. */
  function AppendRun(t: ChatTable, sid: string, users: seq<Content>, bots: seq<string>): ChatTable
    requires |users| == |bots|
  {
    if |users| == 0 then t
    else Saved1(AppendRun(t, sid, users[..|users| - 1], bots[..|bots| - 1]), sid, users[|users| - 1], bots[|bots| - 1])
  }

  lemma SaveStep(t: ChatTable, sid: string, b: Backend, user: Content, bot: string)
    requires Healthy(b)
    ensures SaveChatRoute(t, SaveChatRequest(sid, user, bot), b, false).table == Saved1(t, sid, user, bot)
  {
  }

  /** On a healthy backend a run of saves is a run of `Saved1` steps. */
  lemma {:induction false} SaveRunIsAppendRun(t: ChatTable, sid: string, b: Backend, users: seq<Content>, bots: seq<string>)
    requires |users| == |bots| && Healthy(b)
    ensures SaveRun(t, sid, b, users, bots) == AppendRun(t, sid, users, bots)
  {
    if |users| > 0 {
      var n := |users| - 1;
      var before := SaveRun(t, sid, b, users[..n], bots[..n]);
      SaveRunIsAppendRun(t, sid, b, users[..n], bots[..n]);
      SaveStep(before, sid, b, users[n], bots[n]);
      assert AppendRun(t, sid, users, bots) == Saved1(before, sid, users[n], bots[n]);
    }
  }

  /** What the next save reads after a run: the starting transcript followed by every turn so far. */
  lemma {:induction false} AppendRunExisting(t: ChatTable, sid: string, users: seq<Content>, bots: seq<string>)
    requires |users| == |bots|
    ensures Existing(AppendRun(t, sid, users, bots), sid, false) == Existing(t, sid, false) + Turns(users, bots)
  {
    var e := Existing(t, sid, false);
    if |users| == 0 {
      assert e + [] == e;
    } else {
      var n := |users| - 1;
      var tn, tr := Turns(users[..n], bots[..n]), Turn(users[n], bots[n]);
      AppendRunExisting(t, sid, users[..n], bots[..n]);
      assert e + tn + tr == e + (tn + tr);
    }
  }

  /** The session's own transcript after a run of `Saved1` steps. */
  lemma AppendRunTranscript(t: ChatTable, sid: string, users: seq<Content>, bots: seq<string>)
    requires |users| == |bots| && |users| > 0
    ensures var t' := AppendRun(t, sid, users, bots);
            sid in t' && t'[sid] == Some(Existing(t, sid, false) + Turns(users, bots))
  {
    var n := |users| - 1;
    var before := AppendRun(t, sid, users[..n], bots[..n]);
    var e, tn, tr := Existing(t, sid, false), Turns(users[..n], bots[..n]), Turn(users[n], bots[n]);
    AppendRunExisting(t, sid, users[..n], bots[..n]);
    assert Turns(users, bots) == tn + tr;
    assert e + tn + tr == e + (tn + tr);
  }

  /** `Saved1` steps for one session leave every other session's row as it was. */
  lemma {:induction false} AppendRunOthers(t: ChatTable, sid: string, users: seq<Content>, bots: seq<string>)
    requires |users| == |bots|
    ensures var t' := AppendRun(t, sid, users, bots);
            forall k :: k in t && k != sid ==> k in t' && t'[k] == t[k]
  {
    if |users| > 0 {
      AppendRunOthers(t, sid, users[..|users| - 1], bots[..|bots| - 1]);
    }
  }

  /** A failing read before the upsert is only logged, so the save replaces the
      session's stored transcript by the greeting and the new turn, whatever was
      stored before. */
  lemma FetchErrorOverwritesHistory(t: ChatTable, req: SaveChatRequest, b: Backend)
    requires Healthy(b)
    ensures SaveChatRoute(t, req, b, true).table[req.sessionId]
            == Some(DefaultTranscript + Turn(req.userMessage, req.botResponse))
  {
  }
}

/** POST /api/chat: validates the message, builds the model context from the
    system prompt, the client's history and the current turn, turns the model's
    tool calls into posts to update-lead and finalize-lead, saves the turn, and
    answers with the model's text or a fixed fallback. The model itself is an
    oracle: its text and its tool calls are inputs. */
module ChatRoute {
  import opened Common
  import LeadTable
  import Transcript

  datatype Role = System | User | Assistant

  /** `role.toUpperCase()` as it appears in the summariser's transcript. */
  function RoleLabel(r: Role): string {
    match r
    case System => "SYSTEM"
    case User => "USER"
    case Assistant => "ASSISTANT"
  }

  /** One entry of the context handed to the model. */
  datatype ContextMsg = ContextMsg(role: Role, content: Content)

  /** One entry of the history the client sends, `{ sender, content }`. */
  datatype HistoryEntry = HistoryEntry(sender: string, content: Content)

  /** The request body. `history` is `None` unless it is an array; the other
      optional fields are `None` when absent. */
  datatype ChatRequest = ChatRequest(
    message: Option<Content>,
    history: Option<seq<HistoryEntry>>,
    sessionId: Option<string>,
    userName: Option<string>,
    imageUrl: Option<string>)

  /** The route goes on only for a non-empty string message. */
  predicate ValidMessage(m: Option<Content>) {
    m.Some? && m.value.Text? && m.value.s != ""
  }

  const SpeakingWith: string := "\n\nYou are currently speaking with "

  /** `getSystemPrompt(userName)`: the fixed policy text, followed by a line
      naming the user when a truthy name is given. */
  function SystemPrompt(policy: string, userName: Option<string>): (prompt: string)
    ensures StartsWith(prompt, policy)
    ensures prompt == policy <==> !Truthy(userName)
    ensures Truthy(userName) ==> EndsWith(prompt, SpeakingWith + userName.value + ".")
  {
    var suffix := if Truthy(userName) then SpeakingWith + userName.value + "." else "";
    assert (policy + suffix)[..|policy|] == policy;
    assert Truthy(userName) ==> (policy + suffix)[|policy + suffix| - |suffix|..] == suffix;
    policy + suffix
  }

  // ---------------------------------------------------------------- context

  /** The history entries the route keeps: those sent by `user` or by `bot`. */
  predicate Kept(e: HistoryEntry) {
    e.sender == "user" || e.sender == "bot"
  }

  function KeptCount(h: seq<HistoryEntry>): nat {
    if |h| == 0 then 0 else KeptCount(h[..|h| - 1]) + (if Kept(h[|h| - 1]) then 1 else 0)
  }

  /** The context entry for one history entry, if it is kept. */
  function MapEntry(e: HistoryEntry): seq<ContextMsg> {
    if e.sender == "user" then [ContextMsg(User, e.content)]
    else if e.sender == "bot" then [ContextMsg(Assistant, e.content)]
    else []
  }

  /** The history as context: `user` becomes the user role, `bot` the assistant
      role, any other sender is dropped, and the order is kept. */
  function MapHistory(h: seq<HistoryEntry>): (r: seq<ContextMsg>)
    ensures |r| == KeptCount(h)
    ensures forall i :: 0 <= i < |r| ==> r[i].role != System
  {
    if |h| == 0 then [] else MapHistory(h[..|h| - 1]) + MapEntry(h[|h| - 1])
  }

  /** Mapping a history split in two maps each part in turn. */
  lemma {:induction false} MapHistoryAppend(a: seq<HistoryEntry>, b: seq<HistoryEntry>)
    ensures MapHistory(a + b) == MapHistory(a) + MapHistory(b)
    decreases |b|
  {
    if |b| == 0 {
      assert a + b == a;
    } else {
      var b' := b[..|b| - 1];
      assert (a + b)[..|a + b| - 1] == a + b';
      MapHistoryAppend(a, b');
    }
  }

  /** How a single entry maps: its content is kept and its sender decides the role. */
  lemma MapHistorySingle(e: HistoryEntry)
    ensures e.sender == "user" ==> MapHistory([e]) == [ContextMsg(User, e.content)]
    ensures e.sender == "bot" ==> MapHistory([e]) == [ContextMsg(Assistant, e.content)]
    ensures !Kept(e) ==> MapHistory([e]) == []
  {
    assert [e][..0] == [];
  }

  /** The user's turn: the plain message, or a text part followed by an image part. */
  function CurrentTurn(message: string, imageUrl: Option<string>): (m: ContextMsg)
    ensures m.role == User
    ensures !Truthy(imageUrl) <==> m.content == Text(message)
    ensures Truthy(imageUrl) ==> m.content.Parts? && m.content.parts == [TextPart(message), ImagePart(imageUrl.value)]
  {
    if Truthy(imageUrl) then ContextMsg(User, Parts([TextPart(message), ImagePart(imageUrl.value)]))
    else ContextMsg(User, Text(message))
  }

  function HistoryOf(req: ChatRequest): seq<HistoryEntry> {
    if req.history.Some? then req.history.value else []
  }

  /** The context array: the system prompt, the mapped history, the current turn. */
  function Context(policy: string, req: ChatRequest): (ctx: seq<ContextMsg>)
    requires ValidMessage(req.message)
    ensures |ctx| == 2 + KeptCount(HistoryOf(req))
    ensures ctx[0] == ContextMsg(System, Text(SystemPrompt(policy, req.userName)))
    ensures ctx[|ctx| - 1] == CurrentTurn(req.message.value.s, req.imageUrl)
    ensures ctx[1..|ctx| - 1] == MapHistory(HistoryOf(req))
    ensures forall i :: 0 < i < |ctx| ==> ctx[i].role != System
  {
    var ctx := [ContextMsg(System, Text(SystemPrompt(policy, req.userName)))]
      + MapHistory(HistoryOf(req))
      + [CurrentTurn(req.message.value.s, req.imageUrl)];
    assert ctx[1..|ctx| - 1] == MapHistory(HistoryOf(req));
    ctx
  }

  /** The route's construction of `messages`, by pushes in a loop over the history. */
  method BuildContext(policy: string, req: ChatRequest) returns (messages: seq<ContextMsg>)
    requires ValidMessage(req.message)
    ensures messages == Context(policy, req)
  {
    messages := [ContextMsg(System, Text(SystemPrompt(policy, req.userName)))];
    if req.history.Some? {
      var history := req.history.value;
      for i := 0 to |history|
        invariant messages == [ContextMsg(System, Text(SystemPrompt(policy, req.userName)))] + MapHistory(history[..i])
      {
        var msg := history[i];
        assert history[..i + 1][..i] == history[..i];
        if msg.sender == "user" {
          messages := messages + [ContextMsg(User, msg.content)];
        } else if msg.sender == "bot" {
          messages := messages + [ContextMsg(Assistant, msg.content)];
        }
      }
      assert history[..|history|] == history;
    }
    var message := req.message.value.s;
    if Truthy(req.imageUrl) {
      messages := messages + [ContextMsg(User, Parts([TextPart(message), ImagePart(req.imageUrl.value)]))];
    } else {
      messages := messages + [ContextMsg(User, Text(message))];
    }
  }

  // ---------------------------------------------------------------- the updateLead tool

  /** The arguments the model passes to `updateLead`, each optional. */
  datatype LeadArgs = LeadArgs(
    name: Option<string>,
    phone: Option<string>,
    email: Option<string>,
    city: Option<string>,
    preferredTime: Option<string>)

  /** The tool argument that belongs to a lead column. */
  function Arg(args: LeadArgs, c: LeadTable.Column): Option<string> {
    match c
    case Name => args.name
    case Phone => args.phone
    case Email => args.email
    case City => args.city
    case PreferredContactTime => args.preferredTime
    case _ => None
  }

  /** The body posted to update-lead: the session id plus only the truthy arguments. */
  function ToolPayload(sessionId: Option<string>, args: LeadArgs): (r: LeadTable.UpdateLeadRequest)
    ensures r.sessionId == sessionId
    ensures forall c :: LeadTable.IsLeadField(c) ==>
      (LeadTable.Supplied(r, c).Some? <==> Truthy(Arg(args, c)))
      && (LeadTable.Supplied(r, c).Some? ==> LeadTable.Supplied(r, c) == Arg(args, c))
  {
    LeadTable.UpdateLeadRequest(sessionId, OrNull(args.name), OrNull(args.phone), OrNull(args.email),
                                OrNull(args.city), OrNull(args.preferredTime))
  }

  /** `updateLead.execute`'s construction of `updateData` by conditional assignments. */
  method UpdateData(sessionId: Option<string>, args: LeadArgs) returns (data: LeadTable.UpdateLeadRequest)
    ensures data == ToolPayload(sessionId, args)
  {
    data := LeadTable.UpdateLeadRequest(sessionId, None, None, None, None, None);
    if Truthy(args.name) { data := data.(name := args.name); }
    if Truthy(args.phone) { data := data.(phone := args.phone); }
    if Truthy(args.email) { data := data.(email := args.email); }
    if Truthy(args.city) { data := data.(city := args.city); }
    if Truthy(args.preferredTime) { data := data.(preferredTime := args.preferredTime); }
  }

  /** The tool's filter changes nothing update-lead would do with the unfiltered
      arguments: update-lead applies the same truthiness test itself. */
  lemma ToolFilterRedundant(t: LeadTable.Table, sessionId: Option<string>, args: LeadArgs,
                            b: Backend, now: string)
    ensures LeadTable.UpdateLeadRoute(t, ToolPayload(sessionId, args), b, now)
         == LeadTable.UpdateLeadRoute(t, LeadTable.UpdateLeadRequest(sessionId, args.name, args.phone,
                                         args.email, args.city, args.preferredTime), b, now)
  {
    var raw := LeadTable.UpdateLeadRequest(sessionId, args.name, args.phone, args.email, args.city, args.preferredTime);
    assert LeadTable.UpdatePatch(ToolPayload(sessionId, args), now) == LeadTable.UpdatePatch(raw, now);
  }

  // ---------------------------------------------------------------- the summariser's transcript

  function RenderPart(p: Part): string {
    match p
    case TextPart(text) => text
    case ImagePart(image) => "[Image: " + image + "]"
    case OtherPart => ""
  }

  function RenderedParts(ps: seq<Part>): (r: seq<string>)
    ensures |r| == |ps|
    ensures forall i :: 0 <= i < |ps| ==> r[i] == RenderPart(ps[i])
  {
    seq(|ps|, i requires 0 <= i < |ps| => RenderPart(ps[i]))
  }

  function RenderContent(c: Content): string {
    match c
    case Text(s) => s
    case Parts(ps) => Join(RenderedParts(ps), " ")
    case Other(_) => "[Unsupported format]"
  }

  /** One context entry as `ROLE: content`. */
  function RenderEntry(m: ContextMsg): string {
    RoleLabel(m.role) + ": " + RenderContent(m.content)
  }

  /** finalizeLead's `conversationText`: the entries rendered and separated by a blank line. */
  function ConversationText(ms: seq<ContextMsg>): string {
    Join(RenderedEntries(ms), "\n\n")
  }

  function RenderedEntries(ms: seq<ContextMsg>): (r: seq<string>)
    ensures |r| == |ms|
    ensures forall i :: 0 <= i < |ms| ==> r[i] == RenderEntry(ms[i])
  {
    seq(|ms|, i requires 0 <= i < |ms| => RenderEntry(ms[i]))
  }

  /** Every entry appears, rendered, in the summariser's transcript. */
  lemma EntryInConversation(ms: seq<ContextMsg>, k: nat)
    requires k < |ms|
    ensures OccursAt(RenderEntry(ms[k]), ConversationText(ms), JoinOffset(RenderedEntries(ms), "\n\n", k))
  {
    var xs := RenderedEntries(ms);
    JoinContains(xs, "\n\n", k);
    assert xs[k] == RenderEntry(ms[k]);
  }

  /** Every shared image link reaches the summariser, as `[Image: url]`. */
  lemma ImageInConversation(ms: seq<ContextMsg>, k: nat, j: nat)
    requires k < |ms| && ms[k].content.Parts?
    requires j < |ms[k].content.parts| && ms[k].content.parts[j].ImagePart?
    ensures IsInfix("[Image: " + ms[k].content.parts[j].image + "]", ConversationText(ms))
  {
    PartInEntry(ms[k], j);
    EntryInConversation(ms, k);
    OccursWithin(RenderPart(ms[k].content.parts[j]), RenderEntry(ms[k]), ConversationText(ms),
                 |RoleLabel(ms[k].role) + ": "| + JoinOffset(RenderedParts(ms[k].content.parts), " ", j),
                 JoinOffset(RenderedEntries(ms), "\n\n", k));
  }

  /** Where a part appears in its entry's rendering: after the role label,
      at the part's offset in the joined parts. */
  lemma PartInEntry(m: ContextMsg, j: nat)
    requires m.content.Parts? && j < |m.content.parts|
    ensures OccursAt(RenderPart(m.content.parts[j]), RenderEntry(m),
                     |RoleLabel(m.role) + ": "| + JoinOffset(RenderedParts(m.content.parts), " ", j))
  {
    var texts := RenderedParts(m.content.parts);
    var rolePrefix := RoleLabel(m.role) + ": ";
    var body := Join(texts, " ");
    JoinContains(texts, " ", j);
    assert texts[j] == RenderPart(m.content.parts[j]);
    OccursBehind(texts[j], rolePrefix, body, JoinOffset(texts, " ", j));
  }

  /** The first element of a join is its start. */
  lemma {:induction false} JoinStartsWithFirst(xs: seq<string>, sep: string)
    requires |xs| > 0
    ensures StartsWith(Join(xs, sep), xs[0])
  {
    if |xs| > 1 {
      JoinStartsWithFirst(xs[..|xs| - 1], sep);
      var j := Join(xs[..|xs| - 1], sep);
      assert Join(xs, sep) == j + sep + xs[|xs| - 1];
      assert (j + sep + xs[|xs| - 1])[..|xs[0]|] == j[..|xs[0]|];
    }
  }

  /** The summariser's transcript is built from the whole context, so it opens
      with the system prompt itself. */
  lemma ConversationOpensWithPrompt(policy: string, req: ChatRequest)
    requires ValidMessage(req.message)
    ensures StartsWith(ConversationText(Context(policy, req)), "SYSTEM: " + SystemPrompt(policy, req.userName))
  {
    var ms := Context(policy, req);
    var entries := RenderedEntries(ms);
    assert entries[0] == RenderEntry(ms[0]) == "SYSTEM: " + SystemPrompt(policy, req.userName);
    JoinStartsWithFirst(entries, "\n\n");
  }

  // ---------------------------------------------------------------- the turn

  /** A tool call the model makes: `updateLead` with its arguments, or
      `finalizeLead` with its note and the summariser's text (`None` when the
      summariser throws). */
  datatype ToolCall = CallUpdateLead(args: LeadArgs)
                    | CallFinalizeLead(finalNote: Option<string>, summary: Option<string>)

  /** What `generateText` returns, as far as the route uses it. */
  datatype Generation = Generation(text: string, calls: seq<ToolCall>)

  /** An outward call the route makes. */
  datatype Effect =
    | PostUpdateLead(update: LeadTable.UpdateLeadRequest)
    | Summarize(conversation: string)
    | PostFinalizeLead(finalize: LeadTable.FinalizeLeadRequest)
    | PostSaveChat(save: Transcript.SaveChatRequest)

  /** `{ response, shouldSaveToSheets: false }`; `{ error: "Invalid message" }` with
      400; or the 500 answer with an apology as its response. */
  datatype ChatReply = ChatAnswer(response: string) | InvalidMessage | ChatFailed(error: string, response: string)

  datatype ChatOutcome = ChatOutcome(reply: ChatReply, effects: seq<Effect>)

  const Fallback: string := "Thanks for chatting with me! I'll make sure you get all the information you need."

  const Apology: string := "I apologize, but I'm having trouble responding right now. Please try again!"

  /** `text || fallback`: the model's text, or the thank-you line when it is empty. */
  function ReplyText(text: string): (r: string)
    ensures r != ""
    ensures text != "" ==> r == text
    ensures text == "" ==> r == Fallback
  {
    if text != "" then text else Fallback
  }

  /** The calls one tool invocation makes. `finalizeLead` always asks the
      summariser for a summary of `conversation`, the rendered context, and
      posts to finalize-lead when the summary arrives. */
  function ToolEffects(conversation: string, sessionId: Option<string>, call: ToolCall): (r: seq<Effect>)
    ensures |r| >= 1 && forall i :: 0 <= i < |r| ==> !r[i].PostSaveChat?
    ensures call.CallUpdateLead? ==> r == [PostUpdateLead(ToolPayload(sessionId, call.args))]
    ensures call.CallFinalizeLead? ==>
      && 1 <= |r| <= 2
      && r[0] == Summarize(conversation)
      && (|r| == 2 <==> call.summary.Some?)
      && (call.summary.Some? ==>
            r[1] == PostFinalizeLead(LeadTable.FinalizeLeadRequest(sessionId, call.summary, call.finalNote)))
  {
    match call
    case CallUpdateLead(args) => [PostUpdateLead(ToolPayload(sessionId, args))]
    case CallFinalizeLead(finalNote, summary) =>
      [Summarize(conversation)]
      + (if summary.Some? then [PostFinalizeLead(LeadTable.FinalizeLeadRequest(sessionId, summary, finalNote))] else [])
  }

  /** The calls a run of invocations makes, in order, `effects` giving the
      calls of one invocation. */
  function Collect(effects: ToolCall -> seq<Effect>, calls: seq<ToolCall>): seq<Effect> {
    if |calls| == 0 then [] else Collect(effects, calls[..|calls| - 1]) + effects(calls[|calls| - 1])
  }

  /** The calls of two runs of invocations come one run after the other. */
  lemma {:induction false} CollectAppend(effects: ToolCall -> seq<Effect>, a: seq<ToolCall>, b: seq<ToolCall>)
    ensures Collect(effects, a + b) == Collect(effects, a) + Collect(effects, b)
    decreases |b|
  {
    if |b| == 0 {
      assert a + b == a;
    } else {
      var b' := b[..|b| - 1];
      assert (a + b)[..|a + b| - 1] == a + b';
      CollectAppend(effects, a, b');
    }
  }

  /** When every invocation makes at least one call and none saves the chat,
      neither does a run, which makes at least one call per invocation. */
  lemma {:induction false} CollectNoSave(effects: ToolCall -> seq<Effect>, calls: seq<ToolCall>)
    requires forall c :: |effects(c)| >= 1 && forall i :: 0 <= i < |effects(c)| ==> !effects(c)[i].PostSaveChat?
    ensures var r := Collect(effects, calls);
            |r| >= |calls| && forall i :: 0 <= i < |r| ==> !r[i].PostSaveChat?
  {
    if |calls| > 0 {
      CollectNoSave(effects, calls[..|calls| - 1]);
    }
  }

  /** One tool invocation's calls, as a function of the invocation. */
  function ToolCallEffects(conversation: string, sessionId: Option<string>): ToolCall -> seq<Effect> {
    call => ToolEffects(conversation, sessionId, call)
  }

  /** The calls a run of tool invocations makes, in order. */
  function AllToolEffects(conversation: string, sessionId: Option<string>, calls: seq<ToolCall>): (r: seq<Effect>)
    ensures forall i :: 0 <= i < |r| ==> !r[i].PostSaveChat?
    ensures |r| >= |calls|
  {
    CollectNoSave(ToolCallEffects(conversation, sessionId), calls);
    Collect(ToolCallEffects(conversation, sessionId), calls)
  }

  /** A single tool invocation makes exactly its own calls. */
  lemma AllToolEffectsSingle(conversation: string, sessionId: Option<string>, call: ToolCall)
    ensures AllToolEffects(conversation, sessionId, [call]) == ToolEffects(conversation, sessionId, call)
  {
    var effects := ToolCallEffects(conversation, sessionId);
    assert [call][..0] == [];
    assert Collect(effects, [call]) == [] + effects(call);
  }

  /** The calls of a run of invocations are those of its first part followed
      by those of the rest; with `AllToolEffectsSingle`, a run's calls are its
      invocations' calls, concatenated in order. */
  lemma AllToolEffectsAppend(conversation: string, sessionId: Option<string>, a: seq<ToolCall>, b: seq<ToolCall>)
    ensures AllToolEffects(conversation, sessionId, a + b)
         == AllToolEffects(conversation, sessionId, a) + AllToolEffects(conversation, sessionId, b)
  {
    CollectAppend(ToolCallEffects(conversation, sessionId), a, b);
  }

  /** An `updateLead` call for an existing session posts its filtered arguments,
      and update-lead on a healthy store then writes each argument that is
      truthy into its column and keeps every other contact column. */
  lemma UpdateToolWritesLead(t: LeadTable.Table, ctx: seq<ContextMsg>, sid: string, args: LeadArgs,
                             b: Backend, now: string)
    requires sid != "" && sid in t && Healthy(b)
    ensures var effects := ToolEffects(ConversationText(ctx), Some(sid), CallUpdateLead(args));
            && |effects| == 1 && effects[0].PostUpdateLead?
            && var out := LeadTable.UpdateLeadRoute(t, effects[0].update, b, now);
               && LeadTable.Succeeded(out.reply)
               && forall c :: LeadTable.IsLeadField(c) ==>
                    LeadTable.Cell(out.table[sid], c)
                    == if Truthy(Arg(args, c)) then Arg(args, c) else LeadTable.Cell(t[sid], c)
  {
  }

  /** A `finalizeLead` call whose summary arrives asks the summariser about the
      whole context and then posts the summary, and finalize-lead on a healthy
      store completes the session's row with that summary, or the default one
      when the summary is empty. */
  lemma FinalizeToolCompletesLead(t: LeadTable.Table, ctx: seq<ContextMsg>, sid: string,
                                  finalNote: Option<string>, summary: string,
                                  b: Backend, completedAt: string, updatedAt: string)
    requires sid != "" && sid in t && Healthy(b)
    ensures var effects := ToolEffects(ConversationText(ctx), Some(sid), CallFinalizeLead(finalNote, Some(summary)));
            && |effects| == 2 && effects[0] == Summarize(ConversationText(ctx)) && effects[1].PostFinalizeLead?
            && var out := LeadTable.FinalizeLeadRoute(t, effects[1].finalize, b, completedAt, updatedAt);
               && LeadTable.Succeeded(out.reply)
               && out.table[sid].status == Some("completed")
               && out.table[sid].summary == Some(if summary != "" then summary else LeadTable.DefaultSummary)
  {
  }

  /** The user message as it is saved: the message, or an image part followed
      by a text part. */
  function SavedUserMessage(message: string, imageUrl: Option<string>): Content {
    if Truthy(imageUrl) then Parts([ImagePart(imageUrl.value), TextPart(message)]) else Text(message)
  }

  /** The saved user message holds the same parts as the context's current turn,
      in the opposite order. */
  lemma SavedOrderReversed(message: string, imageUrl: Option<string>)
    requires Truthy(imageUrl)
    ensures var sent := CurrentTurn(message, imageUrl).content.parts;
            var saved := SavedUserMessage(message, imageUrl).parts;
            |sent| == |saved| == 2 && sent[0] == saved[1] && sent[1] == saved[0]
  {
  }

  /** The route, given the policy text of the system prompt and the model's
      answer (`None` when `generateText` throws). */
  function Chat(policy: string, req: ChatRequest, gen: Option<Generation>): (out: ChatOutcome)
    ensures !ValidMessage(req.message) <==> out == ChatOutcome(InvalidMessage, [])
    ensures ValidMessage(req.message) && gen.None? ==>
      out == ChatOutcome(ChatFailed("Failed to process message", Apology), [])
    ensures ValidMessage(req.message) && gen.Some? ==>
      && out.reply == ChatAnswer(ReplyText(gen.value.text))
      && out.reply.response != ""
      && (Truthy(req.sessionId) <==> |out.effects| > 0 && out.effects[|out.effects| - 1].PostSaveChat?)
      && (Truthy(req.sessionId) ==>
            out.effects[|out.effects| - 1]
            == PostSaveChat(Transcript.SaveChatRequest(req.sessionId.value,
                                                       SavedUserMessage(req.message.value.s, req.imageUrl),
                                                       gen.value.text)))
    ensures ValidMessage(req.message) && gen.Some? ==>
      var tools := AllToolEffects(ConversationText(Context(policy, req)), req.sessionId, gen.value.calls);
      |out.effects| == |tools| + (if Truthy(req.sessionId) then 1 else 0) && out.effects[..|tools|] == tools
  {
    if !ValidMessage(req.message) then ChatOutcome(InvalidMessage, [])
    else if gen.None? then ChatOutcome(ChatFailed("Failed to process message", Apology), [])
    else
      var message := req.message.value.s;
      var ctx := Context(policy, req);
      var tools := AllToolEffects(ConversationText(ctx), req.sessionId, gen.value.calls);
      var save := if Truthy(req.sessionId)
        then [PostSaveChat(Transcript.SaveChatRequest(req.sessionId.value, SavedUserMessage(message, req.imageUrl),
                                                      gen.value.text))]
        else [];
      ChatOutcome(ChatAnswer(ReplyText(gen.value.text)), tools + save)
  }

  /** The turn saved is the model's raw text, while the answer falls back to the
      thank-you line: an empty model text is saved as an empty assistant message. */
  lemma EmptyTextSavedRaw(policy: string, req: ChatRequest, calls: seq<ToolCall>)
    requires ValidMessage(req.message) && Truthy(req.sessionId)
    ensures var out := Chat(policy, req, Some(Generation("", calls)));
            && out.reply == ChatAnswer(Fallback)
            && out.effects[|out.effects| - 1].save.botResponse == ""
  {
  }
}

/** The message list both chat components keep in state, and the pure
    operations on it: loading a stored transcript, the history sent to the chat
    route, replacing the "typing" placeholder by id, removing it, and the guard
    that decides whether a send goes ahead. */
module UiMessages {
  import opened Common
  import Transcript
  import ChatRoute

  datatype Sender = UserSender | Bot

  function SenderName(s: Sender): string {
    match s
    case UserSender => "user"
    case Bot => "bot"
  }

  /** One displayed message. The timestamp is left out. */
  datatype UiMessage = UiMessage(id: string, content: Content, sender: Sender, imageUrl: Option<string>)

  /** The greeting the components show; unlike the stored one, its dash is a real em dash. */
  const UiGreetingText: string :=
    "Hi there! I'm Scout, your AI Pest Assessment Assistant. I help homeowners identify pest issues "
    + "and recommend the best solutions \U{2014} whether it's a quick DIY fix or something that needs a pro."

  const Greeting: UiMessage := UiMessage("1", Text(UiGreetingText), Bot, None)

  /** The content of the placeholder shown while a reply is awaited. */
  const Typing: string := "typing"

  /** `s || fallback` on a string. */
  function TextOr(s: string, fallback: string): (r: string)
    ensures s != "" ==> r == s
    ensures s == "" ==> r == fallback
  {
    if s != "" then s else fallback
  }

  /** The history reply counts as loaded when the response is ok (status 200). */
  predicate LoadsHistory(reply: Option<Transcript.HistoryReply>) {
    reply.Some? && reply.value.History? && reply.value.status == 200
  }

  /** What `createSession` answers once it has adopted a fresh id and posted
      it: the id, or nothing when the post throws. */
  function NewSession(generated: string, fetchFails: bool): (r: Option<string>)
    ensures r.None? <==> fetchFails
    ensures r.Some? ==> r.value == generated
  {
    if fetchFails then None else Some(generated)
  }

  /** The sender a loaded message gets: `assistant` and every unknown role
      become the bot; only `user` becomes the user. */
  function SenderOf(role: string): (s: Sender)
    ensures s == UserSender <==> role == "user"
  {
    if role == "assistant" then Bot else if role == "user" then UserSender else Bot
  }

  /** A stored transcript as displayed messages, with the ids generated for them. */
  function Loaded(stored: seq<Transcript.StoredMsg>, ids: seq<string>): (ms: seq<UiMessage>)
    requires |ids| == |stored|
    ensures |ms| == |stored|
    ensures forall i :: 0 <= i < |ms| ==>
      ms[i].id == ids[i] && ms[i].content == stored[i].content && ms[i].sender == SenderOf(stored[i].role)
      && ms[i].imageUrl.None?
  {
    if |stored| == 0 then []
    else Loaded(stored[..|stored| - 1], ids[..|ids| - 1])
         + [UiMessage(ids[|ids| - 1], stored[|stored| - 1].content, SenderOf(stored[|stored| - 1].role), None)]
  }

  /** `{ sender, content }` for one message. */
  function Entry(m: UiMessage): ChatRoute.HistoryEntry {
    ChatRoute.HistoryEntry(SenderName(m.sender), m.content)
  }

  /** `ms.filter(keep)`: the messages `keep` accepts, in their order. */
  function Filter(ms: seq<UiMessage>, keep: UiMessage -> bool): (r: seq<UiMessage>)
    ensures |r| <= |ms|
    ensures forall i :: 0 <= i < |r| ==> keep(r[i])
    ensures forall m :: m in r <==> m in ms && keep(m)
  {
    if |ms| == 0 then []
    else
      assert ms == ms[..|ms| - 1] + [ms[|ms| - 1]];
      Filter(ms[..|ms| - 1], keep) + (if keep(ms[|ms| - 1]) then [ms[|ms| - 1]] else [])
  }

  /** Filtering a list split in two filters each part in turn, so the kept
      messages stay in order. */
  lemma {:induction false} FilterAppend(a: seq<UiMessage>, b: seq<UiMessage>, keep: UiMessage -> bool)
    ensures Filter(a + b, keep) == Filter(a, keep) + Filter(b, keep)
    decreases |b|
  {
    if |b| == 0 {
      assert a + b == a;
    } else {
      var b' := b[..|b| - 1];
      assert (a + b)[..|a + b| - 1] == a + b';
      FilterAppend(a, b', keep);
    }
  }

  /** A filter that accepts every message changes nothing. */
  lemma {:induction false} FilterAll(ms: seq<UiMessage>, keep: UiMessage -> bool)
    requires forall i :: 0 <= i < |ms| ==> keep(ms[i])
    ensures Filter(ms, keep) == ms
  {
    if |ms| > 0 {
      var n := |ms| - 1;
      FilterAll(ms[..n], keep);
      assert keep(ms[n]);
      assert Filter(ms, keep) == ms[..n] + [ms[n]];
      assert ms[..n] + [ms[n]] == ms;
    }
  }

  /** A one-message list is kept or dropped whole. */
  lemma FilterSingle(m: UiMessage, keep: UiMessage -> bool)
    ensures Filter([m], keep) == if keep(m) then [m] else []
  {
    assert [m][..0] == [];
  }

  /** `msg.content !== "typing"`. */
  predicate NotPlaceholder(m: UiMessage) {
    m.content != Text(Typing)
  }

  /** The chatbot's history, `messages.map(msg => ({ sender, content }))`:
      every message, in order, as its entry. */
  function ChatbotHistory(ms: seq<UiMessage>): (h: seq<ChatRoute.HistoryEntry>)
    ensures |h| == |ms|
    ensures forall i :: 0 <= i < |h| ==> h[i] == Entry(ms[i]) && ChatRoute.Kept(h[i])
  {
    if |ms| == 0 then [] else ChatbotHistory(ms[..|ms| - 1]) + [Entry(ms[|ms| - 1])]
  }

  /** The widget's history: the same map after dropping the messages whose
      content is the placeholder text, whoever sent them. Every other message
      reaches the history. */
  function WidgetHistory(ms: seq<UiMessage>): (h: seq<ChatRoute.HistoryEntry>)
    ensures |h| <= |ms|
    ensures forall i :: 0 <= i < |h| ==> h[i].content != Text(Typing) && ChatRoute.Kept(h[i])
    ensures forall m :: m in ms && m.content != Text(Typing) ==> Entry(m) in h
  {
    var kept := Filter(ms, NotPlaceholder);
    var h := ChatbotHistory(kept);
    assert forall m :: m in kept ==> Entry(m) in h by {
      forall m | m in kept ensures Entry(m) in h {
        var j :| 0 <= j < |kept| && kept[j] == m;
        assert h[j] == Entry(m);
      }
    }
    h
  }

  /** No message holds the placeholder text. */
  predicate NoPlaceholder(ms: seq<UiMessage>) {
    forall i :: 0 <= i < |ms| ==> ms[i].content != Text(Typing)
  }

  /** The two components send the same history exactly when nothing is filtered. */
  lemma HistoriesAgree(ms: seq<UiMessage>)
    requires NoPlaceholder(ms)
    ensures WidgetHistory(ms) == ChatbotHistory(ms)
  {
    FilterAll(ms, NotPlaceholder);
  }

  /** The widget's filter tests only the content: a user message that reads
      `typing` is dropped from the history too. */
  lemma TypingUserMessageDropped(ms: seq<UiMessage>, id: string, imageUrl: Option<string>)
    ensures WidgetHistory(ms + [UiMessage(id, Text(Typing), UserSender, imageUrl)]) == WidgetHistory(ms)
    ensures |ChatbotHistory(ms + [UiMessage(id, Text(Typing), UserSender, imageUrl)])| == |ms| + 1
  {
    var m := UiMessage(id, Text(Typing), UserSender, imageUrl);
    FilterAppend(ms, [m], NotPlaceholder);
    FilterSingle(m, NotPlaceholder);
    assert Filter(ms, NotPlaceholder) + [] == Filter(ms, NotPlaceholder);
  }

  /** The model role a stored role comes back as once it is loaded and sent as history. */
  function RoleAfterReload(role: string): ChatRoute.Role {
    if role == "user" then ChatRoute.User else ChatRoute.Assistant
  }

  /** A stored transcript as context entries, role by role. */
  function AsContext(stored: seq<Transcript.StoredMsg>): (ctx: seq<ChatRoute.ContextMsg>)
    ensures |ctx| == |stored|
  {
    if |stored| == 0 then []
    else AsContext(stored[..|stored| - 1])
         + [ChatRoute.ContextMsg(RoleAfterReload(stored[|stored| - 1].role), stored[|stored| - 1].content)]
  }

  /** A loaded transcript mapped as history gives its stored turns, role by role. */
  lemma {:induction false} LoadedHistoryIsContext(stored: seq<Transcript.StoredMsg>, ids: seq<string>)
    requires |ids| == |stored|
    ensures ChatRoute.MapHistory(ChatbotHistory(Loaded(stored, ids))) == AsContext(stored)
  {
    if |stored| > 0 {
      var n := |stored| - 1;
      var ms := Loaded(stored, ids);
      assert ms[..n] == Loaded(stored[..n], ids[..n]);
      LoadedHistoryIsContext(stored[..n], ids[..n]);
      var last := Entry(ms[n]);
      assert ChatbotHistory(ms) == ChatbotHistory(ms[..n]) + [last];
      ChatRoute.MapHistoryAppend(ChatbotHistory(ms[..n]), [last]);
      ChatRoute.MapHistorySingle(last);
    }
  }

  /** A transcript loaded into the widget and sent back as history reaches the
      model whole: every message with its content, in order, the user's as user
      turns and every other one as an assistant turn, as long as no content is
      the placeholder text. */
  lemma ReloadedHistoryReachesModel(stored: seq<Transcript.StoredMsg>, ids: seq<string>)
    requires |ids| == |stored|
    requires forall i :: 0 <= i < |stored| ==> stored[i].content != Text(Typing)
    ensures ChatRoute.MapHistory(WidgetHistory(Loaded(stored, ids))) == AsContext(stored)
  {
    HistoriesAgree(Loaded(stored, ids));
    LoadedHistoryIsContext(stored, ids);
  }

  /** `prev.map(msg => msg.id === id ? { ...msg, content } : msg)`. */
  function ReplaceContent(ms: seq<UiMessage>, id: string, content: Content): (r: seq<UiMessage>)
    ensures |r| == |ms|
    ensures forall i :: 0 <= i < |ms| ==>
      && r[i].id == ms[i].id && r[i].sender == ms[i].sender && r[i].imageUrl == ms[i].imageUrl
      && (ms[i].id == id ==> r[i].content == content)
      && (ms[i].id != id ==> r[i] == ms[i])
  {
    if |ms| == 0 then []
    else
      var m := ms[|ms| - 1];
      ReplaceContent(ms[..|ms| - 1], id, content) + [if m.id == id then m.(content := content) else m]
  }

  /** Every id occurs once. */
  predicate UniqueIds(ms: seq<UiMessage>) {
    forall i, j :: 0 <= i < j < |ms| ==> ms[i].id != ms[j].id
  }

  /** With unique ids, replacing by id rewrites the content of that one message. */
  lemma ReplaceOne(ms: seq<UiMessage>, k: nat, content: Content)
    requires UniqueIds(ms) && k < |ms|
    ensures ReplaceContent(ms, ms[k].id, content) == ms[k := ms[k].(content := content)]
  {
    var r := ReplaceContent(ms, ms[k].id, content);
    forall i | 0 <= i < |ms|
      ensures r[i] == ms[k := ms[k].(content := content)][i]
    {
      if i != k {
        assert ms[i].id != ms[k].id by {
          if i < k { assert ms[i].id != ms[k].id; } else { assert ms[k].id != ms[i].id; }
        }
      }
    }
  }

  /** `msg.id !== id`, as a filter. */
  function OtherId(id: string): UiMessage -> bool {
    (m: UiMessage) => m.id != id
  }

  /** `prev.filter(msg => msg.id !== id)`: exactly the messages with another
      id, in their order. */
  function RemoveId(ms: seq<UiMessage>, id: string): (r: seq<UiMessage>)
    ensures |r| <= |ms|
    ensures forall i :: 0 <= i < |r| ==> r[i].id != id
    ensures forall m :: m in r <==> m in ms && m.id != id
  {
    Filter(ms, OtherId(id))
  }

  /** Removing an id from a list split in two removes it from each part, in order. */
  lemma RemoveIdAppend(a: seq<UiMessage>, b: seq<UiMessage>, id: string)
    ensures RemoveId(a + b, id) == RemoveId(a, id) + RemoveId(b, id)
  {
    FilterAppend(a, b, OtherId(id));
  }

  /** Removing an id no message carries changes nothing. */
  lemma RemoveAbsent(ms: seq<UiMessage>, id: string)
    requires forall i :: 0 <= i < |ms| ==> ms[i].id != id
    ensures RemoveId(ms, id) == ms
  {
    FilterAll(ms, OtherId(id));
  }

  /** The send guard: nothing to send (no text and no truthy image), or a reply
      is still awaited. */
  predicate Blocked(textToSend: string, uploadedImage: Option<string>, isLoading: bool) {
    (textToSend == "" && !Truthy(uploadedImage)) || isLoading
  }

  /** The values a send closes over: the text and image taken from the input,
      the placeholder's id, and the message list and session as they were when
      the send began. */
  datatype PendingSend = PendingSend(
    text: string,
    image: Option<string>,
    loadingId: string,
    snapshot: seq<UiMessage>,
    sessionId: string,
    sessionCreated: bool)

  /** What a send appends at once: the user's message, then the placeholder. */
  function SendAppended(p: PendingSend, userId: string, caption: string): seq<UiMessage> {
    [UiMessage(userId, Text(TextOr(p.text, caption)), UserSender, OrNull(p.image)),
     UiMessage(p.loadingId, Text(Typing), Bot, None)]
  }

  /** When the placeholder's id is fresh, replacing it rewrites only the placeholder. */
  lemma ReplyReplacesPlaceholder(before: seq<UiMessage>, user: UiMessage, loadingId: string, reply: Content)
    requires UniqueIds(before + [user]) && forall i :: 0 <= i < |before + [user]| ==> (before + [user])[i].id != loadingId
    ensures ReplaceContent(before + [user, UiMessage(loadingId, Text(Typing), Bot, None)], loadingId, reply)
         == before + [user, UiMessage(loadingId, reply, Bot, None)]
  {
    var ms := before + [user, UiMessage(loadingId, Text(Typing), Bot, None)];
    assert UniqueIds(ms) by {
      forall i, j | 0 <= i < j < |ms| ensures ms[i].id != ms[j].id {
        if j < |ms| - 1 {
          assert ms[i] == (before + [user])[i] && ms[j] == (before + [user])[j];
        } else {
          assert ms[i] == (before + [user])[i];
        }
      }
    }
    ReplaceOne(ms, |ms| - 1, reply);
  }

  /** When the placeholder's id is fresh, removing it after a failed session
      start and appending the error leaves the user's message followed by the
      error. */
  lemma FailureDropsPlaceholder(before: seq<UiMessage>, user: UiMessage, loadingId: string, error: UiMessage)
    requires forall i :: 0 <= i < |before + [user]| ==> (before + [user])[i].id != loadingId
    ensures RemoveId(before + [user, UiMessage(loadingId, Text(Typing), Bot, None)], loadingId) + [error]
         == before + [user, error]
  {
    var placeholder := UiMessage(loadingId, Text(Typing), Bot, None);
    assert before + [user, placeholder] == (before + [user]) + [placeholder];
    RemoveIdAppend(before + [user], [placeholder], loadingId);
    FilterSingle(placeholder, OtherId(loadingId));
    RemoveAbsent(before + [user], loadingId);
    assert (before + [user]) + [] == before + [user];
  }
}

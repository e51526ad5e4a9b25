/** The full-page chatbot: like the widget, but started with an optional session
    id and user name, sending every message as history, taking an explicit
    message text before the input box, and holding the conversation summary
    helper. Ids, fetch results and failures are parameters. */
module AiChatbot {
  import opened Common
  import opened UiMessages
  import Transcript
  import ChatRoute

  const SessionTrouble: string := "Sorry, I'm having trouble starting the conversation. Please refresh and try again."
  const UploadTrouble: string := "Sorry, I had trouble uploading that image. Please try again."
  const ChatbotApology: string :=
    "I apologize, but I'm having trouble responding right now. Please try again or continue with your assessment."
  /** The text shown, and sent to the model, for an image-only message. */
  const ImageCaption: string := "Here's an image of the pest"

  /** The text a send takes: an explicit truthy message text as given, else the
      trimmed input. */
  function TextToSend(messageText: Option<string>, inputValue: string): (r: string)
    ensures Truthy(messageText) ==> r == messageText.value
    ensures !Truthy(messageText) ==> r == Trim(inputValue)
  {
    OrElse(messageText, Trim(inputValue))
  }

  /** The explicit text is not trimmed: one made only of spaces passes the guard
      with an empty input box, which by itself would be blocked. */
  lemma ExplicitTextNotTrimmed()
    ensures !Blocked(TextToSend(Some("  "), ""), None, false)
    ensures Blocked(TextToSend(None, "  "), None, false)
  {
    assert Trim("  ") == "" by {
      assert TrimStart("  ") == TrimStart(" ") == TrimStart("") == "";
    }
  }

  class Chatbot {
    const initialSessionId: Option<string>
    const userName: Option<string>
    var messages: seq<UiMessage>
    var sessionId: string
    var sessionCreated: bool
    var isLoading: bool
    var inputValue: string
    var uploadedImage: Option<string>

    /** The initial state: the session is taken as created exactly when a truthy
        id is given. */
    constructor (initial: Option<string>, name: Option<string>)
      ensures initialSessionId == initial && userName == name
      ensures sessionId == OrElse(initial, "") && sessionCreated == Truthy(initial)
      ensures messages == [Greeting] && !isLoading && inputValue == "" && uploadedImage.None?
    {
      initialSessionId := initial;
      userName := name;
      sessionId := OrElse(initial, "");
      sessionCreated := Truthy(initial);
      messages := [Greeting];
      isLoading := false;
      inputValue := "";
      uploadedImage := None;
    }

    /** The history effect: with a truthy initial id, replace the list by the
        stored transcript when the fetch succeeds. */
    method LoadHistory(reply: Option<Transcript.HistoryReply>, ids: seq<string>)
      requires LoadsHistory(reply) ==> |ids| == |reply.value.messages|
      modifies this
      ensures messages == if Truthy(initialSessionId) && LoadsHistory(reply)
                          then Loaded(reply.value.messages, ids) else old(messages)
      ensures sessionId == old(sessionId) && sessionCreated == old(sessionCreated)
      ensures isLoading == old(isLoading) && inputValue == old(inputValue) && uploadedImage == old(uploadedImage)
    {
      if Truthy(initialSessionId) && LoadsHistory(reply) {
        messages := Loaded(reply.value.messages, ids);
      }
    }

    /** `createSession`, as in the widget. */
    method CreateSession(generated: string, fetchFails: bool) returns (r: Option<string>, posted: Option<string>)
      modifies this
      ensures old(sessionCreated) ==> r == Some(old(sessionId)) && posted.None? && sessionId == old(sessionId)
      ensures !old(sessionCreated) ==> sessionId == generated && posted == Some(generated)
                                       && r == (if fetchFails then None else Some(generated))
      ensures sessionCreated
      ensures messages == old(messages) && isLoading == old(isLoading)
      ensures inputValue == old(inputValue) && uploadedImage == old(uploadedImage)
    {
      if sessionCreated {
        return Some(sessionId), None;
      }
      sessionId := generated;
      sessionCreated := true;
      posted := Some(generated);
      r := NewSession(generated, fetchFails);
    }

    method AddBotMessage(id: string, content: string)
      modifies this
      ensures messages == old(messages) + [UiMessage(id, Text(content), Bot, None)]
      ensures sessionId == old(sessionId) && sessionCreated == old(sessionCreated)
      ensures isLoading == old(isLoading) && inputValue == old(inputValue) && uploadedImage == old(uploadedImage)
    {
      messages := messages + [UiMessage(id, Text(content), Bot, None)];
    }

    method AddUserMessage(id: string, content: string, imageUrl: Option<string>)
      modifies this
      ensures messages == old(messages) + [UiMessage(id, Text(content), UserSender, imageUrl)]
      ensures sessionId == old(sessionId) && sessionCreated == old(sessionCreated)
      ensures isLoading == old(isLoading) && inputValue == old(inputValue) && uploadedImage == old(uploadedImage)
    {
      messages := messages + [UiMessage(id, Text(content), UserSender, imageUrl)];
    }

    /** `handleSendMessage(messageText)` up to its first await. */
    method BeginSend(messageText: Option<string>, userId: string, loadingId: string) returns (p: Option<PendingSend>)
      modifies this
      ensures p.None? <==> Blocked(TextToSend(messageText, old(inputValue)), old(uploadedImage), old(isLoading))
      ensures p.None? ==> messages == old(messages) && isLoading == old(isLoading)
                          && inputValue == old(inputValue) && uploadedImage == old(uploadedImage)
      ensures p.Some? ==>
        && p.value == PendingSend(TextToSend(messageText, old(inputValue)), old(uploadedImage), loadingId,
                                  old(messages), old(sessionId), old(sessionCreated))
        && messages == old(messages) + SendAppended(p.value, userId, ImageCaption)
        && isLoading && inputValue == "" && uploadedImage.None?
      ensures sessionId == old(sessionId) && sessionCreated == old(sessionCreated)
    {
      var before := messages;
      var textToSend := OrElse(messageText, Trim(inputValue));
      if (textToSend == "" && !Truthy(uploadedImage)) || isLoading {
        return None;
      }
      var imageToSend := uploadedImage;
      inputValue := "";
      uploadedImage := None;
      AddUserMessage(userId, TextOr(textToSend, ImageCaption), OrNull(imageToSend));
      messages := messages + [UiMessage(loadingId, Text(Typing), Bot, None)];
      isLoading := true;
      p := Some(PendingSend(textToSend, imageToSend, loadingId, before, sessionId, sessionCreated));
    }

    /** The rest of `handleSendMessage`: as in the widget, except that the
        history is every message of the list before the send, the user name is
        sent, and an image-only message is sent with the caption it is shown with. */
    method CompleteSend(p: PendingSend, generated: string, createFails: bool, errorId: string,
                        apiReply: Option<string>) returns (sent: Option<ChatRoute.ChatRequest>)
      modifies this
      ensures !p.sessionCreated ==> sessionId == generated && sessionCreated
      ensures p.sessionCreated ==> sessionId == old(sessionId) && sessionCreated == old(sessionCreated)
      ensures var failed := !p.sessionCreated && (createFails || generated == "");
              && (failed ==>
                    sent.None?
                    && messages == RemoveId(old(messages), p.loadingId) + [UiMessage(errorId, Text(SessionTrouble), Bot, None)])
              && (!failed ==>
                    sent.Some?
                    && sent.value == ChatRoute.ChatRequest(
                         Some(Text(TextOr(p.text, ImageCaption))),
                         Some(ChatbotHistory(p.snapshot)),
                         Some(if p.sessionCreated then p.sessionId else generated),
                         userName,
                         OrNull(p.image))
                    && messages == ReplaceContent(old(messages), p.loadingId,
                                                  Text(if apiReply.Some? then apiReply.value else ChatbotApology)))
      ensures !isLoading && inputValue == old(inputValue) && uploadedImage == old(uploadedImage)
    {
      var currentSessionId := p.sessionId;
      if !p.sessionCreated {
        // the createSession of the render the send began in, which saw no session
        sessionId := generated;
        sessionCreated := true;
        var created := NewSession(generated, createFails);
        if !Truthy(created) {
          messages := RemoveId(messages, p.loadingId);
          AddBotMessage(errorId, SessionTrouble);
          isLoading := false;
          return None;
        }
        currentSessionId := created.value;
      }
      var history := ChatbotHistory(p.snapshot);
      sent := Some(ChatRoute.ChatRequest(Some(Text(TextOr(p.text, ImageCaption))), Some(history),
                                         Some(currentSessionId), userName, OrNull(p.image)));
      var response := if apiReply.Some? then apiReply.value else ChatbotApology;
      messages := ReplaceContent(messages, p.loadingId, Text(response));
      isLoading := false;
    }

    /** `handleImageUpload` once the upload answers. */
    method UploadFinished(url: Option<string>, errorId: string)
      modifies this
      ensures url.Some? ==> uploadedImage == url && messages == old(messages)
      ensures url.None? ==> uploadedImage == old(uploadedImage)
                            && messages == old(messages) + [UiMessage(errorId, Text(UploadTrouble), Bot, None)]
      ensures sessionId == old(sessionId) && sessionCreated == old(sessionCreated)
      ensures isLoading == old(isLoading) && inputValue == old(inputValue)
    {
      if url.Some? {
        uploadedImage := url;
      } else {
        AddBotMessage(errorId, UploadTrouble);
      }
    }
  }

  /** An image-only send shows and sends the same caption. */
  lemma ImageOnlyUsesCaption(p: PendingSend, userId: string)
    requires p.text == ""
    ensures SendAppended(p, userId, ImageCaption)[0].content == Text(ImageCaption)
    ensures TextOr(p.text, ImageCaption) == ImageCaption
  {
  }

  // ---------------------------------------------------------------- summarizeConversation

  /** One line of the summary input: `User: ` or `Assistant: `, then the content
      as a template literal renders it. */
  function SummaryLine(m: UiMessage): string {
    (if m.sender == UserSender then "User: " else "Assistant: ") + JsString(m.content)
  }

  /** The lines of a conversation joined by newlines. */
  function SummaryText(ms: seq<UiMessage>): string {
    Join(seq(|ms|, i requires 0 <= i < |ms| => SummaryLine(ms[i])), "\n")
  }

  const SummaryPrompt: string := "Please provide a brief summary of this pest assessment conversation in 2-3 sentences:\n\n"

  /** The request the summary helper posts to the chat route. */
  function SummaryRequest(sessionId: string, ms: seq<UiMessage>): (req: ChatRoute.ChatRequest)
    ensures ChatRoute.ValidMessage(req.message)
    ensures req.history == Some([]) && req.sessionId == Some(sessionId) && req.imageUrl.None?
  {
    ChatRoute.ChatRequest(Some(Text(SummaryPrompt + SummaryText(ms))), Some([]), Some(sessionId), None, None)
  }

  const SummaryFallback: string := "Assessment completed"

  /** `data.response || "Assessment completed"`, whatever the status; `reply` is
      `None` when the call throws. */
  function SummaryResult(reply: Option<ChatRoute.ChatReply>): (r: string)
    ensures r != ""
    ensures reply.None? || reply == Some(ChatRoute.InvalidMessage) ==> r == SummaryFallback
    ensures reply.Some? && !reply.value.InvalidMessage? && reply.value.response != "" ==> r == reply.value.response
  {
    match reply
    case None => SummaryFallback
    case Some(ChatAnswer(response)) => TextOr(response, SummaryFallback)
    case Some(InvalidMessage) => SummaryFallback
    case Some(ChatFailed(_, response)) => TextOr(response, SummaryFallback)
  }

  /** Every message's text reaches the summary input, after its speaker label. */
  lemma MessageInSummary(ms: seq<UiMessage>, k: nat)
    requires k < |ms|
    ensures IsInfix(JsString(ms[k].content), SummaryText(ms))
  {
    var lines := seq(|ms|, i requires 0 <= i < |ms| => SummaryLine(ms[i]));
    JoinContains(lines, "\n", k);
    var o := JoinOffset(lines, "\n", k);
    var speaker := if ms[k].sender == UserSender then "User: " else "Assistant: ";
    OccursInConcat(speaker, JsString(ms[k].content), "");
    assert SummaryLine(ms[k]) == speaker + JsString(ms[k].content) + "";
    OccursWithin(JsString(ms[k].content), SummaryLine(ms[k]), SummaryText(ms), |speaker|, o);
  }

  /** The summary is taken from the response field even when the chat route
      fails, so a failing route makes its apology the summary. */
  lemma FailedChatBecomesSummary(policy: string, sessionId: string, ms: seq<UiMessage>)
    ensures var out := ChatRoute.Chat(policy, SummaryRequest(sessionId, ms), None);
            SummaryResult(Some(out.reply)) == ChatRoute.Apology
  {
  }

  /** The summary request is an ordinary chat turn: with a session it is saved
      into the transcript as a user message. */
  lemma SummaryRequestIsSaved(policy: string, sessionId: string, ms: seq<UiMessage>, gen: ChatRoute.Generation)
    requires sessionId != ""
    ensures var out := ChatRoute.Chat(policy, SummaryRequest(sessionId, ms), Some(gen));
            && |out.effects| > 0
            && out.effects[|out.effects| - 1]
               == ChatRoute.PostSaveChat(Transcript.SaveChatRequest(sessionId, Text(SummaryPrompt + SummaryText(ms)), gen.text))
  {
  }
}

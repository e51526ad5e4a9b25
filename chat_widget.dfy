/** The floating chat widget: its message list and session flags, changed step
    by step by the mount effect, `createSession`, a send (split at its awaits),
    the image upload and the reset listener. Ids, fetch results and failures are
    parameters. */
module ChatWidget {
  import opened Common
  import opened UiMessages
  import Transcript
  import ChatRoute

  const SessionTrouble: string := "Sorry, I'm having trouble starting the conversation. Please refresh and try again."
  const UploadTrouble: string := "Sorry, I had trouble uploading that image. Please try again."
  const WidgetApology: string :=
    "I apologize, but I'm having trouble responding right now. Please try again or continue with your assessment."
  /** The text shown in place of an image-only message. */
  const ImageCaption: string := "Here's an image of the pest"
  /** The text the widget sends to the model for an image-only message. */
  const ImageQuestion: string := "Can you identify this pest from the image?"

  class Widget {
    var messages: seq<UiMessage>
    var sessionId: string
    var sessionCreated: bool
    var isLoading: bool
    var inputValue: string
    var uploadedImage: Option<string>

    constructor ()
      ensures messages == [Greeting] && sessionId == "" && !sessionCreated
      ensures !isLoading && inputValue == "" && uploadedImage.None?
    {
      messages := [Greeting];
      sessionId := "";
      sessionCreated := false;
      isLoading := false;
      inputValue := "";
      uploadedImage := None;
    }

    /** The mount effect: adopt the saved session id, if any, and replace the
        list by its stored transcript when the history fetch succeeds (`reply` is
        `None` when the fetch throws). An ok reply with no messages empties the
        list, greeting included. */
    method LoadSession(saved: Option<string>, reply: Option<Transcript.HistoryReply>, ids: seq<string>)
      requires LoadsHistory(reply) ==> |ids| == |reply.value.messages|
      modifies this
      ensures Truthy(saved) ==> sessionId == saved.value && sessionCreated
      ensures !Truthy(saved) ==> sessionId == old(sessionId) && sessionCreated == old(sessionCreated)
      ensures messages == if Truthy(saved) && LoadsHistory(reply) then Loaded(reply.value.messages, ids) else old(messages)
      ensures isLoading == old(isLoading) && inputValue == old(inputValue) && uploadedImage == old(uploadedImage)
    {
      if Truthy(saved) {
        sessionId := saved.value;
        sessionCreated := true;
        if LoadsHistory(reply) {
          messages := Loaded(reply.value.messages, ids);
        }
      }
    }

    /** `createSession`: reuse the current id once a session exists; otherwise
        adopt `generated` and post it to create-session, whose answer is ignored.
        Only a throwing fetch (`fetchFails`) yields `None`, and by then the new id
        is already adopted. `posted` is the id sent to create-session. */
    method CreateSession(generated: string, fetchFails: bool) returns (r: Option<string>, posted: Option<string>)
      modifies this
      ensures old(sessionCreated) ==> r == Some(old(sessionId)) && posted.None? && sessionId == old(sessionId)
      ensures !old(sessionCreated) ==> sessionId == generated && posted == Some(generated)
                                       && r == (if fetchFails then None else Some(generated))
      ensures sessionCreated
      ensures messages == old(messages) && isLoading == old(isLoading)
      ensures inputValue == old(inputValue) && uploadedImage == old(uploadedImage)
    {
      if sessionCreated {
        return Some(sessionId), None;
      }
      sessionId := generated;
      sessionCreated := true;
      posted := Some(generated);
      r := NewSession(generated, fetchFails);
    }

    method AddBotMessage(id: string, content: string)
      modifies this
      ensures messages == old(messages) + [UiMessage(id, Text(content), Bot, None)]
      ensures sessionId == old(sessionId) && sessionCreated == old(sessionCreated)
      ensures isLoading == old(isLoading) && inputValue == old(inputValue) && uploadedImage == old(uploadedImage)
    {
      messages := messages + [UiMessage(id, Text(content), Bot, None)];
    }

    method AddUserMessage(id: string, content: string, imageUrl: Option<string>)
      modifies this
      ensures messages == old(messages) + [UiMessage(id, Text(content), UserSender, imageUrl)]
      ensures sessionId == old(sessionId) && sessionCreated == old(sessionCreated)
      ensures isLoading == old(isLoading) && inputValue == old(inputValue) && uploadedImage == old(uploadedImage)
    {
      messages := messages + [UiMessage(id, Text(content), UserSender, imageUrl)];
    }

    /** The part of `handleSendMessage` before its first await. Unless the guard
        blocks it, it clears the input, appends the user's message and then the
        placeholder, and sets the loading flag; it answers what the rest of the
        send closes over. */
    method BeginSend(userId: string, loadingId: string) returns (p: Option<PendingSend>)
      modifies this
      ensures p.None? <==> Blocked(Trim(old(inputValue)), old(uploadedImage), old(isLoading))
      ensures p.None? ==> messages == old(messages) && isLoading == old(isLoading)
                          && inputValue == old(inputValue) && uploadedImage == old(uploadedImage)
      ensures p.Some? ==>
        && p.value == PendingSend(Trim(old(inputValue)), old(uploadedImage), loadingId, old(messages),
                                  old(sessionId), old(sessionCreated))
        && messages == old(messages) + SendAppended(p.value, userId, ImageCaption)
        && isLoading && inputValue == "" && uploadedImage.None?
      ensures sessionId == old(sessionId) && sessionCreated == old(sessionCreated)
    {
      var before := messages;
      var textToSend := Trim(inputValue);
      if (textToSend == "" && !Truthy(uploadedImage)) || isLoading {
        return None;
      }
      var imageToSend := uploadedImage;
      inputValue := "";
      uploadedImage := None;
      AddUserMessage(userId, TextOr(textToSend, ImageCaption), OrNull(imageToSend));
      var loadingMessage := UiMessage(loadingId, Text(Typing), Bot, None);
      messages := messages + [loadingMessage];
      isLoading := true;
      p := Some(PendingSend(textToSend, imageToSend, loadingId, before, sessionId, sessionCreated));
    }

    /** The rest of `handleSendMessage`. Without a session it first runs
        `createSession` with the flag the send closed over; if that yields no
        truthy id the placeholder is removed and an apology appended. Otherwise
        it posts the request it answers in `sent`, whose history is the list as it
        was before the send, and puts the reply (`apiReply`, `None` when the call
        fails or is not ok) in place of the placeholder. */
    method CompleteSend(p: PendingSend, generated: string, createFails: bool, errorId: string,
                        apiReply: Option<string>) returns (sent: Option<ChatRoute.ChatRequest>)
      modifies this
      ensures !p.sessionCreated ==> sessionId == generated && sessionCreated
      ensures p.sessionCreated ==> sessionId == old(sessionId) && sessionCreated == old(sessionCreated)
      ensures var failed := !p.sessionCreated && (createFails || generated == "");
              && (failed ==>
                    sent.None?
                    && messages == RemoveId(old(messages), p.loadingId) + [UiMessage(errorId, Text(SessionTrouble), Bot, None)])
              && (!failed ==>
                    sent.Some?
                    && sent.value == ChatRoute.ChatRequest(
                         Some(Text(TextOr(p.text, ImageQuestion))),
                         Some(WidgetHistory(p.snapshot)),
                         Some(if p.sessionCreated then p.sessionId else generated),
                         None,
                         OrNull(p.image))
                    && messages == ReplaceContent(old(messages), p.loadingId,
                                                  Text(if apiReply.Some? then apiReply.value else WidgetApology)))
      ensures !isLoading && inputValue == old(inputValue) && uploadedImage == old(uploadedImage)
    {
      var currentSessionId := p.sessionId;
      if !p.sessionCreated {
        // the createSession of the render the send began in, which saw no session
        sessionId := generated;
        sessionCreated := true;
        var created := NewSession(generated, createFails);
        if !Truthy(created) {
          messages := RemoveId(messages, p.loadingId);
          AddBotMessage(errorId, SessionTrouble);
          isLoading := false;
          return None;
        }
        currentSessionId := created.value;
      }
      var history := WidgetHistory(p.snapshot);
      sent := Some(ChatRoute.ChatRequest(Some(Text(TextOr(p.text, ImageQuestion))), Some(history),
                                         Some(currentSessionId), None, OrNull(p.image)));
      var response := if apiReply.Some? then apiReply.value else WidgetApology;
      messages := ReplaceContent(messages, p.loadingId, Text(response));
      isLoading := false;
    }

    /** `handleImageUpload` once the upload answers: keep the URL for the next
        send, or append an apology when the upload failed (`url` is `None`). */
    method UploadFinished(url: Option<string>, errorId: string)
      modifies this
      ensures url.Some? ==> uploadedImage == url && messages == old(messages)
      ensures url.None? ==> uploadedImage == old(uploadedImage)
                            && messages == old(messages) + [UiMessage(errorId, Text(UploadTrouble), Bot, None)]
      ensures sessionId == old(sessionId) && sessionCreated == old(sessionCreated)
      ensures isLoading == old(isLoading) && inputValue == old(inputValue)
    {
      if url.Some? {
        uploadedImage := url;
      } else {
        AddBotMessage(errorId, UploadTrouble);
      }
    }

    /** The `chatbot-reset` listener: forget the session and show only the greeting. */
    method Reset()
      modifies this
      ensures messages == [Greeting] && sessionId == "" && !sessionCreated
      ensures isLoading == old(isLoading) && inputValue == old(inputValue) && uploadedImage == old(uploadedImage)
    {
      sessionId := "";
      sessionCreated := false;
      messages := [Greeting];
    }
  }

  /** Reloading after a saved turn finds the transcript and shows it: the
      history reply is ok and holds the earlier transcript and the new turn. */
  lemma ReloadAfterSave(t: Transcript.ChatTable, req: Transcript.SaveChatRequest, b: Backend, fetchFails: bool)
    requires Healthy(b) && req.sessionId != ""
    ensures var reply := Transcript.GetChatHistory(Transcript.SaveChatRoute(t, req, b, fetchFails).table,
                                                    Some(req.sessionId), b);
            && LoadsHistory(Some(reply))
            && reply.messages == Transcript.Existing(t, req.sessionId, fetchFails)
                                 + Transcript.Turn(req.userMessage, req.botResponse)
  {
    Transcript.SaveThenGet(t, req, b, fetchFails);
  }

  /** A saved session id that has no transcript gets an ok, empty history, so
      loading it empties the list and the greeting disappears. */
  lemma UnknownSessionEmptiesList(t: Transcript.ChatTable, saved: string, b: Backend)
    requires Healthy(b) && saved != "" && saved !in t
    ensures var reply := Transcript.GetChatHistory(t, Some(saved), b);
            LoadsHistory(Some(reply)) && Loaded(reply.messages, []) == []
  {
  }

  /** The request a send posts is always one the chat route accepts: the
      message is never empty, because an empty text falls back to the question. */
  lemma SentMessageValid(p: PendingSend, currentSessionId: string)
    ensures ChatRoute.ValidMessage(Some(Text(TextOr(p.text, ImageQuestion))))
  {
  }
}

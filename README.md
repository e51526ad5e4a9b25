# Scout lead capture, modelled in Dafny

Scout is a pest-assessment chat assistant. A visitor chats with the model in one of two
components: the floating chat widget or the full-page chatbot. While they chat, the model
calls two tools. `updateLead` writes the visitor's contact details into the
`assessment_users` lead table. `finalizeLead` has a summariser write a report and marks the
lead completed. Every turn is appended to the session's transcript in `chat_history`, and
the components reload that transcript when a visitor comes back.

The model covers:

- the seven lead-table and transcript routes (create-session, update-lead, finalize-lead,
  save-lead, save-session-summary, save-chat-message, get-chat-history);
- the upload route's validation and stored name;
- the chat route's context building, tool effects, saving and reply;
- the two components' state: loading a transcript, creating a session, the two halves of a
  send, the upload outcome and the reset.

Each route is a pure function. It takes the old table, the request and a `Backend`, and
gives a reply and a new table. `Backend` says whether configuration is present, whether
`cookies()` throws, and what error the store reports. The two stores, `LeadStore` and
`TranscriptStore`, are classes whose methods do the same steps in place and are proved to
agree with the route functions. The two components, `Widget` and `Chatbot`, are classes
whose methods update the message list and session flags in place; their contracts give the
new state through the list operations of `UiMessages` (`Loaded`, `ReplaceContent`,
`RemoveId`, `WidgetHistory`, `ChatbotHistory`). The language model is an oracle, so its text
and tool calls are inputs.

The modules follow the program:

- `Common`: JavaScript truthiness, `Option`, message content, `Join`, trimming.
- `LeadTable`: the five lead routes and `LeadStore`.
- `Transcript`: save-chat-message, get-chat-history and `TranscriptStore`.
- `Upload`: the upload route.
- `ChatRoute`: the chat route.
- `UiMessages`: the message-list operations both components share.
- `ChatWidget`: the floating widget.
- `AiChatbot`: the full-page chatbot.

Where the program's own instructions and its code part ways, the model follows the code:

- The `finalizeLead` tool description (app/api/chat/route.ts:281) and the system prompt
  (app/api/chat/route.ts:107 and :126) ask for a name, a city and a phone or e-mail before a
  lead is completed. finalize-lead does not check this.
  `LeadTable.FinalizeNeedsNoContactDetails` finalises a row that has no contact column set.
- When `generateText` throws, the chat route's outer catch answers status 500, with the
  apology as its `response` (app/api/chat/route.ts:391-400). `ChatRoute.Chat` models that
  answer.

Behaviour of the code that the proofs bring out:

- A failing read in save-chat-message replaces the stored transcript with the greeting and
  the new turn (`Transcript.FetchErrorOverwritesHistory`).
- A saved session id with no transcript gets an ok, empty history, which empties the
  widget's list, greeting included (`ChatWidget.UnknownSessionEmptiesList`).
- The widget drops a user's own message that reads `typing` from the history
  (`UiMessages.TypingUserMessageDropped`).
- The saved user message lists the image before the text; the model's context lists it
  after (`ChatRoute.SavedOrderReversed`).
- An empty model text is answered with the thank-you line but saved as an empty assistant
  message (`ChatRoute.EmptyTextSavedRaw`).
- The chatbot's summary helper is saved as a user turn (`AiChatbot.SummaryRequestIsSaved`).
  When the chat route fails, its apology becomes the summary
  (`AiChatbot.FailedChatBecomesSummary`).

## Model

| member | source | states |
|---|---|---|
| LeadTable.Apply | app/api/update-lead/route.ts:54-58 | a written row takes the patch's value in every column the patch names and keeps every other column |
| LeadTable.UpdateWhere | app/api/update-lead/route.ts:54-56 | an update keyed by session id changes only the matching row; no key is added or removed; an absent key changes nothing |
| LeadTable.CreateSessionRoute | app/api/create-session/route.ts:9-57 | a missing id gives 400; success happens exactly when the id is truthy, the backend is healthy and the id is new; success adds one row with only `session_id` set, leaves every old row unchanged and answers the id; every failure leaves the table unchanged with status 400 or 500 |
| LeadTable.UpdatePatch | app/api/update-lead/route.ts:41-49 | the patch names `updated_at` (set to now) and exactly the contact fields whose request value is truthy, each with that value |
| LeadTable.UpdateLeadRoute | app/api/update-lead/route.ts:10-81 | 400 without a session id; success exactly on a healthy backend; configuration and cookie failures give 500 "Internal server error"; a store error gives its 500 failure; only the matching row changes, by the patch; failures leave the table unchanged |
| LeadTable.FinalizePatch | app/api/finalize-lead/route.ts:41-50 | the patch sets status "completed", the summary or "Assessment completed" when it is falsy, `completed_at` and `updated_at`; it sets `notes` exactly when the final note is truthy; it never touches contact columns |
| LeadTable.FinalizeLeadRoute | app/api/finalize-lead/route.ts:9-79 | the same error cases as update-lead; on success only the matching row changes, by the finalize patch |
| LeadTable.SaveLeadPatch | app/api/save-lead/route.ts:37-47 | the patch writes every contact column and the summary, falsy values as NULL, and nothing else |
| LeadTable.SaveLeadRoute | app/api/save-lead/route.ts:8-75 | success exactly on a healthy backend, with "Lead saved successfully"; missing configuration, a store error and a thrown cookie read each give their own 500 failure and leave the table unchanged; only the matching row changes |
| LeadTable.SaveSummaryRoute | app/api/save-session-summary/route.ts:6-44 | success exactly on a healthy backend; a store error answers its message with 500; only the summary of the matching row changes |
| LeadTable.LeadStore.constructor | app/api/create-session/route.ts:38-40 | the store starts empty |
| LeadTable.LeadStore.CreateSession | app/api/create-session/route.ts:9-57 | the reply and new rows are those of `CreateSessionRoute` on the old rows |
| LeadTable.LeadStore.UpdateLead | app/api/update-lead/route.ts:10-81 | the reply and new rows are those of `UpdateLeadRoute` on the old rows |
| LeadTable.LeadStore.FinalizeLead | app/api/finalize-lead/route.ts:9-79 | the reply and new rows are those of `FinalizeLeadRoute` on the old rows |
| LeadTable.LeadStore.SaveLead | app/api/save-lead/route.ts:8-75 | the reply and new rows are those of `SaveLeadRoute` on the old rows |
| LeadTable.LeadStore.SaveSessionSummary | app/api/save-session-summary/route.ts:6-44 | the reply and new rows are those of `SaveSummaryRoute` on the old rows |
| LeadTable.LeadStore.WriteRow | app/api/update-lead/route.ts:54-58 | writing a patch in place gives `UpdateWhere` of the old rows |
| LeadTable.UpdatesKeepLatest | app/api/update-lead/route.ts:41-58 | over any run of update-lead calls, each contact column holds the latest truthy value supplied, or its old value, and a set column is never cleared |
| LeadTable.UpdateRouteIsApply | app/api/update-lead/route.ts:41-58 | one successful update-lead call on an existing row is one step of `ApplyUpdates` |
| LeadTable.UpdatedRow | app/api/update-lead/route.ts:41-58 | the written row takes each contact field the request supplies truthy, keeps every other contact field and sets `updated_at` to now |
| LeadTable.FinalizeTwice | app/api/finalize-lead/route.ts:41-56 | a second finalize succeeds again; the status stays completed while the summary and completion time are overwritten |
| LeadTable.FinalizeNeedsNoContactDetails | app/api/finalize-lead/route.ts:41-72 | a session with no contact details is finalised all the same |
| LeadTable.FinalizeKeepsContacts | app/api/finalize-lead/route.ts:41-56 | finalising an existing row on a healthy backend succeeds, marks it completed and leaves every contact column as it was |
| LeadTable.CreatedRowIsBare | app/api/create-session/route.ts:38-40 | the row create-session inserts has only its session id set |
| LeadTable.StepKeepsCompleted | app/api/finalize-lead/route.ts:41-46 | no call of any lead route removes a completed row or changes its status |
| LeadTable.UpdateKeepsStatus | app/api/update-lead/route.ts:41-58 | update-lead keeps every row and never changes a status |
| LeadTable.SummaryKeepsStatus | app/api/save-session-summary/route.ts:30-33 | save-session-summary keeps every row and never changes a status |
| LeadTable.CompletedStaysCompleted | app/api/finalize-lead/route.ts:41-46 | once a lead is completed it stays completed, whatever run of route calls and backend failures follows |
| Transcript.SaveChatRoute | app/api/save-chat-message/route.ts:8-93 | success exactly on a healthy backend; the three failure kinds answer their own error and details and leave the table unchanged; on success the session's transcript is the stored one, or the greeting when there is none or the read fails, followed by the user and assistant messages, and other sessions are untouched |
| Transcript.GetChatHistory | app/api/get-chat-history/route.ts:10-56 | 400 exactly when the id is falsy; 500 with no messages on configuration and cookie failures; 200 with no messages on a store error, a missing row or NULL; otherwise the stored transcript; a non-empty answer is always a stored transcript |
| Transcript.TranscriptStore.constructor | app/api/save-chat-message/route.ts:61-69 | the store starts empty |
| Transcript.TranscriptStore.SaveChatMessage | app/api/save-chat-message/route.ts:37-82 | the reply and new rows are those of `SaveChatRoute` on the old rows |
| Transcript.SaveThenGet | app/api/get-chat-history/route.ts:37-52 | reading back after a successful save gives the earlier transcript followed by the new turn |
| Transcript.SaveRunAppends | app/api/save-chat-message/route.ts:47-69 | after any run of successful saves, the transcript is the starting one followed by every turn in order, and other sessions are untouched |
| Transcript.SaveStep | app/api/save-chat-message/route.ts:55-69 | one successful save with a good read appends the turn to the session's transcript |
| Transcript.SaveRunIsAppendRun | app/api/save-chat-message/route.ts:47-69 | on a healthy backend a run of saves is a run of single appends |
| Transcript.AppendRunExisting | app/api/save-chat-message/route.ts:37-59 | what the next save reads is the starting transcript followed by every turn saved so far |
| Transcript.AppendRunTranscript | app/api/save-chat-message/route.ts:55-69 | after a non-empty run the session's row holds the starting transcript followed by every turn in order |
| Transcript.AppendRunOthers | app/api/save-chat-message/route.ts:61-69 | saves for one session leave every other session's row as it was |
| Transcript.FetchErrorOverwritesHistory | app/api/save-chat-message/route.ts:43-59 | a failing read makes the save replace the stored transcript with the greeting and the new turn |
| Upload.Decimal | app/api/upload/route.ts:28-29 | the rendering of `Date.now()` is a non-empty string of decimal digits |
| Upload.DecimalRoundTrip | app/api/upload/route.ts:28-29 | reading the rendered digits back gives the timestamp |
| Upload.StoredNameShape | app/api/upload/route.ts:28-29 | the stored name starts with "pest-assessment-" and ends with the file's name |
| Upload.LeadingDigitsOf | app/api/upload/route.ts:28-29 | the digits of a rendered timestamp run up to the `-` that follows them |
| Upload.StoredNameInjective | app/api/upload/route.ts:28-29 | two uploads share a stored name only when their timestamps and names both agree |
| Upload.UploadRoute | app/api/upload/route.ts:9-45 | "No file provided" exactly for a missing or empty field; oversize files, then wrong types, are refused with 400 before anything is stored; a file is stored exactly when it passes both checks, under the prefixed name; success echoes the URL and the file's name, size and type; a failed store or a non-file field gives 500 "Upload failed" |
| Upload.SizeBoundary | app/api/upload/route.ts:14-17 | 20971520 bytes is accepted and one byte more is refused |
| Upload.PdfRejected | app/api/upload/route.ts:14-25 | a PDF is refused by type, or by size when it is also too large, because size is checked first |
| ChatRoute.SystemPrompt | app/api/chat/route.ts:174 | the prompt is the policy text, followed by a line naming the user exactly when the name is truthy |
| ChatRoute.MapHistory | app/api/chat/route.ts:196-204 | one context entry per kept history entry, none of them a system entry |
| ChatRoute.MapHistoryAppend | app/api/chat/route.ts:196-204 | mapping a split history maps each part in turn |
| ChatRoute.MapHistorySingle | app/api/chat/route.ts:196-204 | `user` maps to the user role, `bot` to the assistant role, with the same content; any other sender is dropped |
| ChatRoute.CurrentTurn | app/api/chat/route.ts:206-217 | the current turn is a user entry: the plain message exactly when the image URL is falsy, otherwise a text part then an image part |
| ChatRoute.Context | app/api/chat/route.ts:186-217 | the context is the system prompt, then the mapped history, then the current turn, and only its first entry is a system entry |
| ChatRoute.BuildContext | app/api/chat/route.ts:186-217 | the loop of pushes builds exactly `Context` |
| ChatRoute.ToolPayload | app/api/chat/route.ts:250-257 | the posted body carries the session id and exactly the truthy tool arguments, each unchanged |
| ChatRoute.UpdateData | app/api/chat/route.ts:250-257 | the conditional assignments build exactly `ToolPayload` |
| ChatRoute.ToolFilterRedundant | app/api/chat/route.ts:250-267 | update-lead does the same with the filtered body as with the raw arguments |
| ChatRoute.RenderedParts | app/api/chat/route.ts:299-305 | one rendering per part, in order: the text, `[Image: url]`, or nothing |
| ChatRoute.RenderedEntries | app/api/chat/route.ts:293-309 | one `ROLE: content` rendering per context entry, in order |
| ChatRoute.EntryInConversation | app/api/chat/route.ts:293-309 | every context entry appears, rendered, in the summariser's transcript at its join offset |
| ChatRoute.ImageInConversation | app/api/chat/route.ts:300-305 | every image link in the context reaches the summariser as `[Image: url]` |
| ChatRoute.PartInEntry | app/api/chat/route.ts:299-305 | every part of an entry appears, rendered, after the role label at its offset in the space-joined parts |
| ChatRoute.JoinStartsWithFirst | app/api/chat/route.ts:293-309 | a join starts with its first element |
| ChatRoute.ConversationOpensWithPrompt | app/api/chat/route.ts:293-309 | the summariser's transcript starts with the whole system prompt |
| ChatRoute.ReplyText | app/api/chat/route.ts:385-389 | the reply is never empty: the model's text, or the thank-you line when the text is empty |
| ChatRoute.ToolEffects | app/api/chat/route.ts:245-350 | an `updateLead` call posts exactly the filtered payload to update-lead; a `finalizeLead` call first asks the summariser about the rendered context and, exactly when the summary arrives, posts the session id, that summary and the final note to finalize-lead; no tool call saves the chat |
| ChatRoute.AllToolEffects | app/api/chat/route.ts:227-355 | a run of tool calls never saves the chat and makes at least one call per tool use |
| ChatRoute.CollectAppend | app/api/chat/route.ts:227-355 | the calls of two runs of tool uses are those of the first run followed by those of the second |
| ChatRoute.CollectNoSave | app/api/chat/route.ts:227-355 | when no single tool use saves the chat and each makes a call, a run saves nothing and makes a call per use |
| ChatRoute.AllToolEffectsSingle | app/api/chat/route.ts:245-350 | one tool use makes exactly its own calls |
| ChatRoute.AllToolEffectsAppend | app/api/chat/route.ts:227-355 | a run of tool uses makes the calls of its uses concatenated in order |
| ChatRoute.UpdateToolWritesLead | app/api/chat/route.ts:248-267 | an `updateLead` call for an existing session makes one post, and update-lead on a healthy store then writes each truthy argument into its column and keeps every other contact column |
| ChatRoute.FinalizeToolCompletesLead | app/api/chat/route.ts:291-341 | a `finalizeLead` call whose summary arrives asks the summariser about the rendered context and posts the summary, and finalize-lead on a healthy store completes the row with that summary, or the default one when it is empty |
| ChatRoute.SavedOrderReversed | app/api/chat/route.ts:358-363 | the saved user message holds the context turn's two parts in reverse order |
| ChatRoute.Chat | app/api/chat/route.ts:182-400 | "Invalid message" exactly for a missing, non-string or empty message, with no calls; a throwing model gives the 500 apology with no calls; otherwise the answer is `ReplyText`, the calls are the tool uses' calls in order followed by the save exactly when the session id is truthy, and the save carries the image-first user message and the raw model text |
| ChatRoute.EmptyTextSavedRaw | app/api/chat/route.ts:357-389 | an empty model text is answered with the thank-you line but saved as empty |
| UiMessages.TextOr | components/chat-widget.tsx:273-276 | `s \|\| fallback` on strings |
| Common.TrimEmptyIffBlank | components/chat-widget.tsx:265 | the trimmed input is empty exactly when every character is white space |
| UiMessages.SenderOf | components/chat-widget.tsx:88-93 | a stored role becomes the user exactly when it is `user`; any other role becomes the bot |
| UiMessages.NewSession | components/chat-widget.tsx:156-172 | once `createSession` has adopted a fresh id it answers that id, or nothing exactly when the post throws |
| UiMessages.Loaded | components/chat-widget.tsx:83-96 | a loaded transcript keeps length, order and content, takes the generated ids and has no image URLs |
| UiMessages.WidgetHistory | components/chat-widget.tsx:231-236 | the widget's history is the map of the filtered list: no entry is the placeholder, every sender is `user` or `bot`, and every message whose content is not the placeholder reaches the history as its entry |
| UiMessages.Filter | components/chat-widget.tsx:231-232 | `filter` keeps exactly the messages its test accepts, and no more of them than there were |
| UiMessages.FilterAppend | components/chat-widget.tsx:231-232 | filtering a split list filters each part in turn, so the order is kept |
| UiMessages.FilterAll | components/chat-widget.tsx:231-232 | a filter that accepts every message changes nothing |
| UiMessages.FilterSingle | components/chat-widget.tsx:231-232 | a one-message list is kept or dropped whole |
| UiMessages.ChatbotHistory | components/ai-chatbot.tsx:239-242 | the chatbot's history has one entry per message, in order, each the message's sender and content |
| UiMessages.HistoriesAgree | components/chat-widget.tsx:231-236 | without a placeholder in the list, the two components send the same history |
| UiMessages.TypingUserMessageDropped | components/chat-widget.tsx:231-236 | the widget drops a user message that reads `typing`, and the chatbot keeps it |
| UiMessages.AsContext | components/chat-widget.tsx:83-96 | one context entry per stored message |
| UiMessages.LoadedHistoryIsContext | components/chat-widget.tsx:83-96 | a loaded transcript mapped as history gives its stored turns, role by role, in order |
| UiMessages.ReloadedHistoryReachesModel | components/chat-widget.tsx:83-96 | a reloaded transcript sent back as history reaches the model whole, in order, as user turns and assistant turns |
| UiMessages.ReplaceContent | components/chat-widget.tsx:315-319 | replacing by id keeps length, ids, senders and images, and changes only the content of messages with that id |
| UiMessages.ReplaceOne | components/chat-widget.tsx:315-319 | with unique ids, replacing by id rewrites exactly one message's content |
| UiMessages.RemoveId | components/chat-widget.tsx:296-298 | the result holds exactly the messages with another id, and none with the removed one |
| UiMessages.RemoveIdAppend | components/chat-widget.tsx:296-298 | removing an id from a split list removes it from each part, so the kept messages stay in order |
| UiMessages.RemoveAbsent | components/chat-widget.tsx:296-298 | removing an id no message carries changes nothing |
| UiMessages.ReplyReplacesPlaceholder | components/chat-widget.tsx:279-319 | the reply takes the placeholder's place and everything else stays as it was |
| UiMessages.FailureDropsPlaceholder | components/chat-widget.tsx:288-301 | after a failed session start the list is the user's message followed by the error |
| ChatWidget.Widget.constructor | components/chat-widget.tsx:33-47 | the widget starts with only the greeting, no session, no input and no image |
| ChatWidget.Widget.LoadSession | components/chat-widget.tsx:67-110 | a truthy saved id is adopted and marks the session created; the list becomes the loaded transcript exactly when that id's history reply is ok |
| ChatWidget.Widget.CreateSession | components/chat-widget.tsx:153-173 | an existing session's id is reused with no post; otherwise the generated id is adopted and posted, and only a throwing post yields no id |
| ChatWidget.Widget.AddBotMessage | components/chat-widget.tsx:202-210 | appends one bot message |
| ChatWidget.Widget.AddUserMessage | components/chat-widget.tsx:212-221 | appends one user message |
| ChatWidget.Widget.BeginSend | components/chat-widget.tsx:264-289 | a send is blocked, changing nothing, exactly when there is no text and no image or a reply is awaited; otherwise the input and image are cleared, the user's message and the placeholder are appended, loading is set, and the earlier list is kept for the request |
| ChatWidget.Widget.CompleteSend | components/chat-widget.tsx:223-326 | without a session, a failed or empty creation drops the placeholder and appends the apology with no request; otherwise the request carries the text (or the image question), the earlier list's widget history, the session id and the image, and the reply or apology replaces the placeholder |
| ChatWidget.Widget.UploadFinished | components/chat-widget.tsx:175-200 | a stored URL is kept for the next send; a failed upload appends the apology |
| ChatWidget.Widget.Reset | components/chat-widget.tsx:134-148 | the list returns to the greeting and the session is forgotten |
| ChatWidget.ReloadAfterSave | components/chat-widget.tsx:67-110 | after a saved turn a reload is ok and holds the earlier transcript and the new turn |
| ChatWidget.UnknownSessionEmptiesList | components/chat-widget.tsx:67-110 | loading a saved id with no transcript empties the list |
| ChatWidget.SentMessageValid | components/chat-widget.tsx:308-312 | every request a send posts has a message the chat route accepts |
| AiChatbot.TextToSend | components/ai-chatbot.tsx:274-275 | an explicit truthy text is used as given; otherwise the trimmed input |
| AiChatbot.ExplicitTextNotTrimmed | components/ai-chatbot.tsx:274-275 | a blank explicit text passes the guard, and the same blank input alone is blocked |
| AiChatbot.Chatbot.constructor | components/ai-chatbot.tsx:33-47 | the session counts as created exactly when a truthy initial id is given, and the list is the greeting |
| AiChatbot.Chatbot.LoadHistory | components/ai-chatbot.tsx:49-86 | with a truthy initial id, the list becomes the loaded transcript exactly when the history reply is ok |
| AiChatbot.Chatbot.CreateSession | components/ai-chatbot.tsx:172-197 | as in the widget: reuse, or adopt and post the generated id |
| AiChatbot.Chatbot.AddBotMessage | components/ai-chatbot.tsx:121-130 | appends one bot message |
| AiChatbot.Chatbot.AddUserMessage | components/ai-chatbot.tsx:131-140 | appends one user message |
| AiChatbot.Chatbot.BeginSend | components/ai-chatbot.tsx:273-295 | the same guard and appends as the widget, for the explicit text or the trimmed input |
| AiChatbot.Chatbot.CompleteSend | components/ai-chatbot.tsx:231-330 | as in the widget, but the request holds every earlier message, the user name and the caption for an image-only send |
| AiChatbot.Chatbot.UploadFinished | components/ai-chatbot.tsx:142-170 | a stored URL is kept; a failed upload appends the apology |
| AiChatbot.ImageOnlyUsesCaption | components/ai-chatbot.tsx:281-284 | an image-only send shows and sends the same caption |
| AiChatbot.SummaryRequest | components/ai-chatbot.tsx:210-219 | the summary request is always accepted by the chat route and carries an empty history and the session id |
| AiChatbot.SummaryResult | components/ai-chatbot.tsx:224-227 | the summary is never empty: the route's non-empty response, or "Assessment completed" |
| AiChatbot.MessageInSummary | components/ai-chatbot.tsx:203-208 | every message's text appears in the summary input |
| AiChatbot.FailedChatBecomesSummary | components/ai-chatbot.tsx:224-227 | a failing chat route makes its apology the summary |
| AiChatbot.SummaryRequestIsSaved | components/ai-chatbot.tsx:210-219 | the summary request is saved into the transcript as a user turn |

## Left out

- The language model: `generateText`, its prompts, temperature, `stepCountIs(10)` and the
  tool results it sees. Its text and tool calls are inputs; the policy text is a parameter.
- ChatRoute.Chat: tool calls made before `generateText` throws are not recorded. The model
  gives such a turn no effects.
- The network: `fetch`, `baseUrl`/origin, JSON encoding and the URL encoding of query
  parameters. Replies to the tools' own fetches are ignored, as the route ignores them.
- Supabase, `cookies()` and environment variables. These are reduced to `Backend`.
  - An absent session id is taken to match no row.
  - Inserting an existing id is taken to be a store error.
  - A missing variable read with `!` is taken to make `createServerClient` throw.
- Parse failures of `req.json()` and `formData()`. A history that is not an array becomes
  `None`.
- A history array holding `null` or `undefined`: reading `msg.sender` of such an element
  throws inside the route's try block, so the route answers its 500 apology. Every history
  element here is a `{ sender, content }` object, so `ChatRoute.Chat` does not model that
  answer.
- Clocks and ids (`Date.now()`, `new Date().toISOString()`, message ids). All are
  parameters. Message timestamps are not kept.
- `localStorage`, `sessionStorage`, the open/visible flags, `resetKey`, the upload and
  history-loading spinners, scrolling, focus and rendering.
- The reset button's storage clearing and its event dispatch. For the widget, only the
  listener's effect is modelled. The chatbot's reset works by remounting, which the
  constructor models.
- Concurrency. Two interleaved sends, or the read-then-upsert race in save-chat-message, are
  not modelled. Nothing runs between `BeginSend` and `CompleteSend`.
- The `allMessages` field the chat route posts, which save-chat-message ignores.
- The chatbot's `userEmail` and `centered` props, which affect no state here.
- app/api/save-assessment/route.ts and app/scout/page.tsx are not part of this model.
- AiChatbot.SummaryResult: the chat route's real JSON has no `response` field on the 400
  answer. The model treats that case as a falsy response.

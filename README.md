# Chat client transcript model

This project models the state logic of a React chat client, written in Dafny. The client talks to a retrieval-augmented assistant. The model covers the logic that decides what the user sees:

- **Streaming reply reconcilers.** There are two, `useChatStreaming` and the older `ChatPage` `handleSendMessage`. Each one:
  - optimistically appends a user message and an assistant placeholder;
  - adds each streamed delta to the placeholder's in-flight text (`partial`);
  - merges that text into the content when the stream finishes;
  - overwrites the placeholder with an apology when the stream fails.

  The newer one also rewrites the client-made (`temp-…`) sidebar entry into the server's conversation and schedules navigation to it.
- **History loading** (`useMessages`). Server records are normalised and turned from newest-first into oldest-first.
- **Conversation list** (`useConversations`). The fetch replaces the list, and "new chat" puts a `temp-<time>` placeholder in front.
- **Display derivations.**
  - The text a message shows: `content` for a user, `content + partial` for an assistant.
  - The streaming cursor.
  - The "last assistant message" flag.
- **Small UI state machines.**
  - The thumbs toggles, per message and per conversation.
  - The input box's submit guard and its Enter / Shift+Enter rule.
  - The typewriter reveal.

Each transcript updater that the code passes to `setMessages(prev => …)` is a pure function from one transcript snapshot to the next. Each hook or component whose state cells and refs change is a class whose methods update those fields and state the new state through those functions.

Some inputs are parameters of the methods that need them:
- the values a closure captured when a message was sent;
- fresh `uuidv4()` ids;
- `Date.now()` and `toISOString()` values;
- the outcome of each server call.

Two effects are recorded rather than performed:
- A deferred finalize is a boolean "finalize scheduled" result.
- A deferred navigation is an entry appended to a `navigations` log.

String `trim` follows the ECMAScript whitespace and line-terminator set.

Modules, one per source file plus shared pieces:
- `ChatTypes` holds the records, `null`/`undefined`, and string truthiness.
- `JsText` holds `trim`, `startsWith` and decimal rendering.
- `JsArray` holds `reverse`.
- `ChatMessageView` covers `ChatMessage`.
- `MessagesContainer` covers `ChatMessagesContainer`.
- `Transcript` holds the updaters shared by both reconcilers.
- `ChatStreaming` covers `useChatStreaming`.
- `LegacyChatPage` covers the older `ChatPage`.
- `MessageHistory` covers `useMessages`.
- `ConversationList` covers `useConversations`.
- `MessageFeedback` and `ConversationFeedback` cover the two feedback components.
- `ChatInput` covers the input box.
- `TypewriterHook` covers `useTypewriter`.

Behaviour of the code worth knowing:

- **`message_start` does not rename the placeholder.** A `message_start` chunk only stores the server's message id in `assistantMessageIdRef`. Later deltas are addressed to the id created at send time, so the finished message keeps that id and not the server's (`ChatStreaming.MessageStartKeepsPlaceholderId`).
- **Finalize is not targeted at the placeholder.** It merges *every* message that has in-flight text. A placeholder that received no text is left alone and stays marked as streaming (`ChatStreaming.FinalizeStreamed`, `ChatStreaming.StreamThenFinalize`).
- **The sidebar and the navigation can disagree.** Metadata chunks `X` then `Y` rename the temp sidebar entry after `X`, because once renamed it no longer matches the temp id. The real-id ref ends at `Y`, so the page navigates to `/chat/Y` (`ChatStreaming.MetadataSplit`).
- **"New chat" does not check for duplicates.** Creating two conversations in the same millisecond adds two entries with the same id (`ConversationList.NoDuplicateCheck`).
- **A second click on the same thumb does not always clear it.** Two clicks end with nothing selected only when that thumb was not already selected. Otherwise they restore the selection (`MessageFeedback.ToggleTwice`).

## Model

| member | source | states |
|---|---|---|
| `JsText.Trim` | components/ChatInput.tsx:25 | `trim` drops exactly a whitespace-only prefix and suffix; the kept text neither starts nor ends with whitespace; it is empty iff the input is all whitespace |
| `JsText.TrimKeepsSolidEnds` | hooks/useChatStreaming.ts:42 | a text that neither starts nor ends with whitespace is unchanged by `trim` |
| `JsText.Decimal` | hooks/useConversations.ts:25 | the decimal rendering of a time stamp is a non-empty run of digits without a leading zero that spells exactly that number |
| `JsText.DecimalInjective` | hooks/useConversations.ts:25 | different numbers are rendered differently |
| `JsText.StartsWith` | hooks/useMessages.ts:11 | `startsWith`: the text begins with the given prefix |
| `JsText.IsBlank` | hooks/useChatStreaming.ts:29 | `!query.trim()`: every character is whitespace (also the guard at components/ChatPage.tsx:48) |
| `ChatTypes.Truthy` | hooks/useChatStreaming.ts:62 | a string test `if (x)`: present and non-empty (also at lines 29 and 47) |
| `ChatTypes.Option.GetOr` | hooks/useChatStreaming.ts:78 | `x ?? d`: the value when present, the default when null or undefined |
| `JsArray.Reverse` | hooks/useMessages.ts:22 | element `k` of the reversed list is element `n-1-k` of the original, same length |
| `JsArray.ReverseInvolution` | hooks/useMessages.ts:22 | reversing twice restores the original order |
| `ChatMessageView.DisplayText` | components/ChatMessage.tsx:39 | the text handed to the renderer: the content for a user, content followed by in-flight text for an assistant |
| `ChatMessageView.ShowsCursor` | components/ChatMessage.tsx:50 | the cursor is drawn for a streaming assistant message with in-flight text |
| `ChatMessageView.DisplayTextShape` | components/ChatMessage.tsx:21-52 | a user bubble shows its content only; an assistant message shows its content followed by its in-flight text; the cursor appears only when something beyond the content is shown |
| `ChatMessageView.AppendDeltaGrowsDisplay` | components/ChatMessage.tsx:39 | adding a delta to an assistant message's in-flight text extends what it shows by exactly that delta; a user bubble looks the same |
| `MessagesContainer.IsLastAssistant` | components/ChatPage/ChatMessagesContainer.tsx:16-18 | the per-index flag: an assistant message with no assistant message after it |
| `MessagesContainer.NoAssistant` | components/ChatPage/ChatMessagesContainer.tsx:18 | `every` message of a list is not from the assistant |
| `MessagesContainer.LastAssistantIndex` | components/ChatPage/ChatMessagesContainer.tsx:15-18 | the reference index: an assistant index with no assistant after it, absent exactly when no message is from the assistant |
| `MessagesContainer.FlaggedIffLastAssistantIndex` | components/ChatPage/ChatMessagesContainer.tsx:16-18 | index `i` is flagged last-assistant iff it is the greatest assistant index (so user messages and empty lists flag nothing) |
| `MessagesContainer.AtMostOneFlagged` | components/ChatPage/ChatMessagesContainer.tsx:16-18 | no two indices are flagged |
| `MessagesContainer.SomeIndexFlagged` | components/ChatPage/ChatMessagesContainer.tsx:16-18 | if any assistant message exists, some index is flagged |
| `MessageFeedback.Toggle` | components/MessageFeedback.tsx:26 | the new selection is either nothing or the clicked thumb, and it is nothing exactly when the clicked thumb was selected |
| `MessageFeedback.ToggleTwice` | components/MessageFeedback.tsx:25-29 | two clicks on one thumb end at nothing selected, unless that thumb was selected before, which is then restored |
| `MessageFeedback.MessageFeedbackButtons.constructor` | components/MessageFeedback.tsx:10-11 | the selection starts at the initial feedback and nothing has been posted |
| `MessageFeedback.MessageFeedbackButtons.HandleClick` | components/MessageFeedback.tsx:25-29 | the selection toggles and exactly one request posting the new selection for this message is issued |
| `ConversationFeedback.FindAssistant` | components/ConversationFeedback.tsx:16 | `find` for the first assistant message of a list |
| `ConversationFeedback.LastAssistantId` | components/ConversationFeedback.tsx:16-17 | the id of the first assistant message of the reversed transcript, or null |
| `ConversationFeedback.FindAssistantAt` | components/ConversationFeedback.tsx:16 | `find` returns the message at the first assistant index |
| `ConversationFeedback.FindAssistantNone` | components/ConversationFeedback.tsx:16 | `find` returns nothing on a list without assistant messages |
| `ConversationFeedback.LastAssistantIdIsFlaggedMessage` | components/ConversationFeedback.tsx:15-18 | the reverse-then-find lookup yields the id of the message at the greatest assistant index (the one the container flags), or null when there is none |
| `ConversationFeedback.ConversationFeedbackButtons.constructor` | components/ConversationFeedback.tsx:11-18 | nothing selected, nothing posted, and the tracked id is the last assistant id of the initial transcript |
| `ConversationFeedback.ConversationFeedbackButtons.TrackMessages` | components/ConversationFeedback.tsx:15-18 | the tracked id follows the transcript; the selection and the posts are untouched |
| `ConversationFeedback.ConversationFeedbackButtons.SubmitFeedback` | components/ConversationFeedback.tsx:20-31 | a request for the tracked message is posted with the given value, and none when no message is tracked |
| `ConversationFeedback.ConversationFeedbackButtons.HandleClick` | components/ConversationFeedback.tsx:33-45 | with no tracked message nothing changes; otherwise the selection toggles and the posted value equals the new selection |
| `ChatInput.CanSubmit` | components/ChatInput.tsx:25 | a submit is allowed iff the box holds a non-whitespace character and no reply is loading |
| `ChatInput.IsSubmitKey` | components/ChatInput.tsx:35 | Enter submits, Shift+Enter does not |
| `ChatInput.ChatInputBox.constructor` | components/ChatInput.tsx:11 | the box starts empty and nothing has been sent |
| `ChatInput.ChatInputBox.HandleInputChange` | components/ChatInput.tsx:14-15 | the box holds exactly the typed value |
| `ChatInput.ChatInputBox.HandleSubmit` | components/ChatInput.tsx:23-32 | when allowed, the untrimmed text is sent once and the box is emptied; otherwise nothing changes |
| `ChatInput.ChatInputBox.HandleKeyDown` | components/ChatInput.tsx:34-39 | Enter without Shift behaves as a submit; any other key sends nothing and keeps the text |
| `TypewriterHook.Typewriter.constructor` | hooks/useTypewriter.ts:4-14 | nothing is shown at first, and the interval runs iff the text is non-empty |
| `TypewriterHook.Typewriter.SetText` | hooks/useTypewriter.ts:6-24 | a new text restarts the reveal from nothing; an empty text stops it |
| `TypewriterHook.Typewriter.Tick` | hooks/useTypewriter.ts:15-21 | each firing shows one more UTF-16 code unit of the text, always a prefix of it, and the interval stops once all is shown; a stopped interval changes nothing |
| `TypewriterHook.Typewriter.Elapse` | hooks/useTypewriter.ts:15-22 | after `t` firings exactly the first `min(i + t, length)` UTF-16 code units are shown |
| `MessageHistory.HistoryRequest` | hooks/useMessages.ts:10-13 | the server is asked iff a token and a conversation id are present and the id does not start with `temp-`, and then for that id |
| `MessageHistory.Normalize` | hooks/useMessages.ts:16-21 | one server record as a settled display message: id kept or fresh, missing content empty |
| `MessageHistory.NormalizeHistory` | hooks/useMessages.ts:16-22 | same length; element `i` comes from server record `n-1-i`, keeps its id (or gets a fresh one), sender and content (missing content becomes empty), and is settled (no in-flight text, not streaming) |
| `MessageHistory.LoadedMessages` | hooks/useMessages.ts:9-26 | the transcript is cleared by either guard, is exactly the normalised, reversed history after a successful fetch, and is kept after a failed one |
| `MessageHistory.HistoryOrder` | hooks/useMessages.ts:22 | reversing the loaded transcript gives the records in server order |
| `ConversationList.TempId` | hooks/useConversations.ts:25 | a placeholder id is `temp-` followed by digits |
| `ConversationList.TempIdInjective` | hooks/useConversations.ts:25 | calls at different times make different temp ids |
| `ConversationList.PrependPlaceholder` | hooks/useConversations.ts:27-30 | exactly one entry is added, in front, with the temp id, title "New Conversation" and the current time; the old entries follow in order |
| `ConversationList.NoDuplicateCheck` | hooks/useConversations.ts:24-30 | two creations at the same time add two entries with the same id |
| `ConversationList.ConversationStore.constructor` | hooks/useConversations.ts:6-11 | the list starts empty and keeps the shared temp id cell |
| `ConversationList.ConversationStore.LoadConversations` | hooks/useConversations.ts:15-21 | the list is replaced by the server's list iff a token is present and the fetch succeeded |
| `ConversationList.ConversationStore.CreateNewConversation` | hooks/useConversations.ts:24-32 | the temp id becomes `temp-<now>`, the placeholder is prepended, and `/chat` is navigated to |
| `Transcript.AppendPartial` | hooks/useChatStreaming.ts:81-86 | only messages carrying the target id change, and only by the delta appended to their in-flight text; an empty delta changes nothing |
| `Transcript.AppendPartialTwice` | hooks/useChatStreaming.ts:84 | two deltas in a row equal their concatenation delivered at once |
| `Transcript.AppendPartialDisplay` | hooks/useChatStreaming.ts:81-86 | the shown text of the targeted assistant message grows by exactly the delta; every other message looks the same |
| `Transcript.AppendAll` | components/ChatPage.tsx:77-86 | chunks fed one by one to the target id; the transcript keeps its length |
| `Transcript.AppendAllIsConcat` | components/ChatPage.tsx:77-86 | feeding chunks one at a time equals appending their concatenation in arrival order |
| `Transcript.MarkFailed` | hooks/useChatStreaming.ts:100-106 | every message carrying the id gets the apology as its whole content, no in-flight text and no streaming; all others are unchanged |
| `Transcript.MarkFailedDisplay` | hooks/useChatStreaming.ts:103 | a failed message shows exactly the apology, without a cursor |
| `ChatStreaming.HasConversationId` | hooks/useChatStreaming.ts:62 | a chunk is metadata when it carries a non-empty conversation id |
| `ChatStreaming.IsMessageStart` | hooks/useChatStreaming.ts:72 | a chunk is a `message_start` when its event says so and it carries a non-empty message id |
| `ChatStreaming.DeltaOf` | hooks/useChatStreaming.ts:78 | a chunk's delta text, empty when any step of the path is missing |
| `ChatStreaming.ChunkDelta` | hooks/useChatStreaming.ts:72-78 | the text a chunk adds: none for a `message_start` chunk, whose handling returns before the delta is read, and its delta otherwise |
| `ChatStreaming.RequestsFinalize` | hooks/useChatStreaming.ts:79-95 | a chunk that is not a `message_start` and whose finish reason is `stop` schedules a finalize |
| `ChatStreaming.StreamedText` | hooks/useChatStreaming.ts:78-86 | the text all chunks add to the placeholder, joined in arrival order |
| `ChatStreaming.RewriteConversation` | hooks/useChatStreaming.ts:64-68 | the entry with the captured temp id takes the server's id, title and update time in the same slot; every other entry and the length are unchanged |
| `ChatStreaming.RewriteOnce` | hooks/useChatStreaming.ts:62-68 | after one rewrite no entry carries the temp id, so any later metadata chunk leaves the list alone |
| `ChatStreaming.FinalizeStreamed` | hooks/useChatStreaming.ts:40-44 | every message with in-flight text gets that text trimmed onto its content, no in-flight text and streaming ended; messages without in-flight text are unchanged |
| `ChatStreaming.FinalizeIdempotent` | hooks/useChatStreaming.ts:92-97 | a `stop` finalize followed by the on-close finalize equals one finalize |
| `ChatStreaming.FinalizeDisplay` | hooks/useChatStreaming.ts:42 | finalizing changes what an assistant message shows only by trimming its in-flight text, and removes its cursor |
| `ChatStreaming.StreamThenFinalize` | hooks/useChatStreaming.ts:78-97 | a fresh placeholder that streams and is finalized keeps its id, holds the trimmed concatenated deltas, and stays streaming only if no text arrived |
| `ChatStreaming.MessageStartScenarioText` | hooks/useChatStreaming.ts:72-95 | a `message_start`, two deltas and a `stop` add "CMC stands for..." and only the last chunk schedules a finalize |
| `ChatStreaming.MessageStartKeepsPlaceholderId` | hooks/useChatStreaming.ts:72-90 | in that scenario the reply reads "CMC stands for..." and keeps the placeholder's own id, not `m1` |
| `ChatStreaming.RewriteAll` | hooks/useChatStreaming.ts:62-68 | the list after a run of chunks: entries without the temp id are never touched, nothing changes without metadata chunks, and a temp entry takes the id, title and update time of the FIRST metadata chunk (when that id is not the temp id itself) |
| `ChatStreaming.LastConversationId` | hooks/useChatStreaming.ts:62-63 | the real-id ref after a run of chunks keeps its start value when no chunk carries a conversation id, and otherwise holds the id of the LAST chunk that does; it is set exactly when it already was or some chunk carried an id |
| `ChatStreaming.LastMessageStartId` | hooks/useChatStreaming.ts:72-73 | the assistant-id ref after a run of chunks keeps its start value when no `message_start` chunk arrived, and otherwise holds the non-empty server id of the LAST one |
| `ChatStreaming.ChunkRunSnoc` | hooks/useChatStreaming.ts:62-75 | one more chunk applies one handler step to the list and to both refs |
| `ChatStreaming.MetadataSplit` | hooks/useChatStreaming.ts:62-68 | after metadata chunks `X` then `Y` the sidebar entry is renamed after `X` while the ref, and so the navigation, holds `Y` |
| `ChatStreaming.StreamingChat.constructor` | hooks/useChatStreaming.ts:25-26 | both refs start null, nothing is loading and nothing has been navigated |
| `ChatStreaming.StreamingChat.Send` | hooks/useChatStreaming.ts:28-36 | it starts iff the query is not blank and a token is present; then loading starts, the user message and an empty streaming placeholder are appended and the ref holds the placeholder id; otherwise nothing changes |
| `ChatStreaming.StreamingChat.OnChunk` | hooks/useChatStreaming.ts:58-96 | metadata rewrites the temp entry and records the real id; `message_start` only records the server id; otherwise the delta goes to the send-time placeholder, and `stop` schedules a finalize |
| `ChatStreaming.StreamingChat.Finalize` | hooks/useChatStreaming.ts:38-51 | all in-flight text is merged, loading ends, and `/chat/<id>` is navigated to iff a real conversation id was recorded |
| `ChatStreaming.StreamingChat.OnError` | hooks/useChatStreaming.ts:98-108 | the placeholder shows "Sorry, something went wrong.", loading ends, nothing else changes |
| `ChatStreaming.StreamReply` | hooks/useChatStreaming.ts:28-97 | a whole reply adds exactly two messages: the earlier ones are only finalized, the user message holds the query, and the placeholder keeps its send-time id and holds the trimmed streamed text, streaming on only if no text arrived; the conversation list and both refs are the results of the chunk run, `/chat/<id>` is navigated to iff a real id is recorded, and loading is over |
| `ChatStreaming.StreamChunks` | hooks/useChatStreaming.ts:58-96 | handling a run of chunks in order leaves the streamed text on the placeholder, and the list and both refs at their chunk-run results; loading and navigations are untouched |
| `ChatStreaming.StreamOne` | hooks/useChatStreaming.ts:58-96 | handling one more chunk turns the state for a run of chunks into the state for the run extended by that chunk |
| `ChatStreaming.ReplyTranscript` | hooks/useChatStreaming.ts:36-44 | on values: streaming text into a fresh placeholder and finalizing leaves the earlier messages finalized, the user message intact, and the placeholder with its id and the trimmed text, streaming only if the text was empty |
| `ChatStreaming.Sent` | hooks/useChatStreaming.ts:33-36 | the transcript right after a send: the user message and the empty streaming placeholder appended |
| `LegacyChatPage.PlaceholderId` | components/ChatPage.tsx:59 | the placeholder id is `assistant-` followed by digits |
| `LegacyChatPage.PlaceholderIdInjective` | components/ChatPage.tsx:59 | sends at different times get different placeholder ids |
| `LegacyChatPage.CompletePlaceholder` | components/ChatPage.tsx:89-100 | the message with the id gets its in-flight text appended verbatim to its content, no in-flight text and streaming ended; all others are unchanged |
| `LegacyChatPage.CompletePreservesDisplay` | components/ChatPage.tsx:94 | completion changes nothing an assistant message shows, and the completed message has no cursor |
| `LegacyChatPage.CompleteIdempotent` | components/ChatPage.tsx:94-96 | completing twice equals completing once |
| `LegacyChatPage.LegacyChat.constructor` | components/ChatPage.tsx:15-17 | the page starts with an empty transcript, not loading |
| `LegacyChatPage.LegacyChat.Send` | components/ChatPage.tsx:47-71 | a blank query does nothing; otherwise an id-less user message and an `assistant-<now>` streaming placeholder are appended and loading starts |
| `LegacyChatPage.LegacyChat.OnChunk` | components/ChatPage.tsx:77-86 | the raw chunk is appended to the placeholder's in-flight text only |
| `LegacyChatPage.LegacyChat.OnComplete` | components/ChatPage.tsx:87-102 | the placeholder's text is merged untrimmed and loading ends |
| `LegacyChatPage.LegacyChat.OnError` | components/ChatPage.tsx:103-118 | the placeholder shows "Sorry, I encountered an error. Please try again." and loading ends |
| `LegacyChatPage.LegacyStreamReply` | components/ChatPage.tsx:47-102 | after send, chunks and completion, the earlier messages are untouched, the user message holds the query and the placeholder's content is the chunks joined in order |
| `LegacyChatPage.LegacyReply` | components/ChatPage.tsx:62-100 | on values: streaming text into a fresh placeholder and completing it puts exactly that text in it and changes nothing else |

## Left out

- The network layer is not modelled: `services/api.ts` (fetch, headers, `TextDecoder`, reading the stream). Chunks arrive as method arguments, and a failed request is the `OnError` call.
- The newer hook calls `streamQuery` with six arguments and reads parsed chunk objects. `services/api.ts:45-93` declares four parameters and passes raw text. The model takes each caller's reading of its callbacks: parsed chunks for `ChatStreaming`, raw text for `LegacyChatPage`.
- In `ChatStreaming.StreamReply` the finalize runs once, at stream close. A `stop` finalize that would run earlier in an animation frame is not interleaved. `ChatStreaming.FinalizeIdempotent` shows that the extra finalize changes nothing in the transcript once no further deltas arrive. Each finalize does schedule its own navigation, so that run would navigate twice.
- `ChatStreaming.StreamingChat.Finalize` and `ChatStreaming.StreamingChat.OnChunk` record deferred work at the time it is scheduled:
  - the navigation that runs 100 ms later is appended to `navigations` straight away;
  - the finalize that runs in the next animation frame is returned as a flag.

  Timing and the ref's value at fire time are not modelled.
- A `null` or `undefined` chunk is modelled as a chunk whose fields are all missing.
- `MessageHistory.NormalizeHistory`: a server id is taken to be a string already, so `toString()` of a numeric id is not modelled.
- The optional message fields are not carried: `tokens_used`, `model_name`, `agents_used`, `feedback`, `tool_used`, `created_at`. No modelled code reads them, and the spread copies them unchanged.
- `isStreamingTitle` on conversations is not modelled, because no modelled code writes or reads it.
- The older page's effects are not modelled:
  - the conversation-fetch and message-fetch effects (components/ChatPage.tsx:27-45);
  - the scroll effect.

  The conversation fetch has the shape of `ConversationList.ConversationStore.LoadConversations`. The message fetch stores the server's list as received, with no normalisation, no reversal and no `temp-` guard, so `MessageHistory.LoadedMessages` does not describe it.
- `LegacyChatPage.LegacyChat.Send` does not model the missing-token case. The page reads `auth.accessToken` without a guard, which throws when no auth context is present.
- `TypewriterHook.Typewriter.SetText` models a re-run of the effect, which React only performs when the text actually changes. The interval period (`speed`) is not modelled.
- Strings outside the typewriter are sequences of Unicode code points, where JavaScript counts UTF-16 code units. The modelled operations agree on both readings: equality, concatenation, `trim` (whose whitespace set lies in the Basic Multilingual Plane) and prefix tests. The typewriter, which counts and slices, works on UTF-16 code units (`TypewriterHook.CodeUnit`). Converting between the two encodings is not modelled.
- Presentation is not modelled:
  - textarea auto-resizing and `preventDefault`;
  - markdown rendering and normalisation;
  - icons and styling;
  - auto-scroll;
  - console logging;
  - double effects in development mode.
- The request bodies and URLs of feedback posts are not modelled; a post is its message id and value. Fetch failures there are only logged, so they leave the state unchanged.

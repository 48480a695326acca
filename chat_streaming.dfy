/** `useChatStreaming`: the newer reconciler. `sendMessage` optimistically adds
    the user message and a streaming assistant placeholder, then applies each
    parsed stream chunk, finalizes on `finish_reason: "stop"` or on stream
    close, and overwrites the placeholder with an apology when the stream
    fails. */
module ChatStreaming {
  import opened ChatTypes
  import opened JsText
  import opened ChatMessageView
  import opened Transcript

  const StreamFailureText: string := "Sorry, something went wrong."
  const ChatRoute: string := "/chat/"

  /** `chunk.choices[0]`: its `delta.content` and its `finish_reason`. */
  datatype Choice = Choice(deltaContent: Option<string>, finishReason: Option<string>)

  /** One parsed stream chunk. Every field may be absent, and the handler
      inspects each on its own. */
  datatype Chunk = Chunk(
    conversationId: Option<string>,
    title: Option<string>,
    updatedAt: Option<string>,
    event: Option<string>,
    messageId: Option<string>,
    firstChoice: Option<Choice>)

  /** `if (chunk?.conversation_id)`: any chunk carrying a non-empty id. */
  predicate HasConversationId(c: Chunk) {
    Truthy(c.conversationId)
  }

  /** `chunk?.event === "message_start" && chunk.message_id` */
  predicate IsMessageStart(c: Chunk) {
    c.event == Some("message_start") && Truthy(c.messageId)
  }

  /** `chunk?.choices?.[0]?.delta?.content ?? ""` */
  function DeltaOf(c: Chunk): string {
    match c.firstChoice
    case Some(choice) => choice.deltaContent.GetOr("")
    case None => ""
  }

  /** The text a chunk adds to the placeholder: none for a `message_start`
      chunk, whose handling returns before the delta is read. */
  function ChunkDelta(c: Chunk): string {
    if IsMessageStart(c) then "" else DeltaOf(c)
  }

  /** Whether the handler schedules a finalize (`finish_reason === "stop"`,
      read only when the chunk is not a `message_start`). */
  predicate RequestsFinalize(c: Chunk) {
    !IsMessageStart(c) && c.firstChoice.Some? && c.firstChoice.value.finishReason == Some("stop")
  }

  /** The text each chunk adds to the placeholder, in arrival order. */
  function Deltas(cs: seq<Chunk>): seq<string> {
    seq(|cs|, i requires 0 <= i < |cs| => ChunkDelta(cs[i]))
  }

  /** The text all chunks add to the placeholder, joined in arrival order. */
  function StreamedText(cs: seq<Chunk>): string {
    Concat(Deltas(cs))
  }

  /** The metadata updater: the entry whose id is the captured temp id gets
      the server's id, title and update time in the same slot; every other
      entry, and the length, stay as they were. A missing temp id (`null`)
      matches nothing. */
  function RewriteConversation(cs: seq<Conversation>, tempId: Option<string>,
                               newId: string, title: Option<string>, updatedAt: Option<string>): (r: seq<Conversation>)
    ensures |r| == |cs|
    ensures forall i :: 0 <= i < |cs| && Some(cs[i].id) == tempId ==> r[i] == Conversation(newId, title, updatedAt)
    ensures forall i :: 0 <= i < |cs| && Some(cs[i].id) != tempId ==> r[i] == cs[i]
  {
    seq(|cs|, i requires 0 <= i < |cs| =>
      if Some(cs[i].id) == tempId then cs[i].(id := newId, title := title, updatedAt := updatedAt) else cs[i])
  }

  /** The ephemeral-to-persisted transition happens at most once: after the
      first rewrite no entry carries the temp id any more, so a second
      metadata chunk (with any id) leaves the list as it is. */
  lemma RewriteOnce(cs: seq<Conversation>, tempId: string,
                    newId: string, title: Option<string>, updatedAt: Option<string>,
                    otherId: string, otherTitle: Option<string>, otherUpdatedAt: Option<string>)
    requires newId != tempId
    ensures var once := RewriteConversation(cs, Some(tempId), newId, title, updatedAt);
            RewriteConversation(once, Some(tempId), otherId, otherTitle, otherUpdatedAt) == once
  {
  }

  /** The finalize updater: every message with in-flight text gets that text,
      trimmed, added to its content, its in-flight text cleared and streaming
      ended; a message with no in-flight text is left alone, even a streaming
      placeholder that never received a delta. */
  function FinalizeStreamed(ms: seq<Message>): (r: seq<Message>)
    ensures |r| == |ms|
    ensures forall i :: 0 <= i < |ms| ==>
      && r[i].id == ms[i].id && r[i].sender == ms[i].sender
      && r[i].content == ms[i].content + Trim(ms[i].partial)
      && r[i].partial == ""
      && r[i].isStreaming == (ms[i].isStreaming && ms[i].partial == "")
    ensures forall i :: 0 <= i < |ms| && ms[i].partial == "" ==> r[i] == ms[i]
  {
    seq(|ms|, i requires 0 <= i < |ms| =>
      if ms[i].partial != ""
      then ms[i].(content := ms[i].content + Trim(ms[i].partial), partial := "", isStreaming := false)
      else ms[i])
  }

  /** Finalizing twice (a `stop` chunk and then the stream closing) is the
      same as finalizing once. */
  lemma FinalizeIdempotent(ms: seq<Message>)
    ensures FinalizeStreamed(FinalizeStreamed(ms)) == FinalizeStreamed(ms)
  {
  }

  /** Finalizing changes what an assistant message shows only by trimming the
      whitespace around its in-flight text, and removes its cursor. */
  lemma FinalizeDisplay(ms: seq<Message>, i: nat)
    requires i < |ms| && ms[i].sender == Assistant
    ensures DisplayText(FinalizeStreamed(ms)[i]) == ms[i].content + Trim(ms[i].partial)
    ensures !ShowsCursor(FinalizeStreamed(ms)[i])
  {
  }

  /** Delta ordering: a fresh placeholder at index `k` that receives a run of
      chunks and is then finalized ends with the trimmed concatenation of the
      chunks' deltas as its content. It keeps its original id, whatever
      `message_start` chunks said. If no text arrived at all it is left
      streaming. */
  lemma StreamThenFinalize(ms: seq<Message>, k: nat, placeholderId: string, cs: seq<Chunk>)
    requires k < |ms|
    requires ms[k] == Message(Some(placeholderId), Assistant, "", "", true)
    ensures var m := FinalizeStreamed(AppendAll(ms, placeholderId, Deltas(cs)))[k];
            && m.id == Some(placeholderId)
            && m.content == Trim(StreamedText(cs))
            && m.partial == ""
            && m.isStreaming == (StreamedText(cs) == "")
  {
    AppendAllIsConcat(ms, placeholderId, Deltas(cs));
    var streamed := AppendAll(ms, placeholderId, Deltas(cs));
    assert streamed[k] == ms[k].(partial := StreamedText(cs));
  }

  /** A `message_start` chunk with server id `m1`, two deltas and a `stop`. */
  const MessageStartScenario: seq<Chunk> := [
    Chunk(None, None, None, Some("message_start"), Some("m1"), None),
    Chunk(None, None, None, None, None, Some(Choice(Some("CMC "), None))),
    Chunk(None, None, None, None, None, Some(Choice(Some("stands for..."), None))),
    Chunk(None, None, None, None, None, Some(Choice(None, Some("stop"))))]

  /** The scenario's chunks add "CMC stands for..." and only the last one
      asks for a finalize. */
  lemma MessageStartScenarioText()
    ensures StreamedText(MessageStartScenario) == "CMC stands for..."
    ensures forall j :: 0 <= j < 3 ==> !RequestsFinalize(MessageStartScenario[j])
    ensures RequestsFinalize(MessageStartScenario[3])
  {
    var ds := Deltas(MessageStartScenario);
    assert ds == ["", "CMC ", "stands for...", ""];
    assert Concat(ds[3..]) == "";
    assert Concat(ds[2..]) == "stands for...";
  }

  /** In that scenario the reply reads "CMC stands for...", and the message
      keeps the id it was created with, not the server's `m1`. */
  lemma MessageStartKeepsPlaceholderId(ms: seq<Message>, k: nat, placeholderId: string)
    requires k < |ms|
    requires ms[k] == Message(Some(placeholderId), Assistant, "", "", true)
    ensures var m := FinalizeStreamed(AppendAll(ms, placeholderId, Deltas(MessageStartScenario)))[k];
            m.id == Some(placeholderId) && m.content == "CMC stands for..." && !m.isStreaming
  {
    MessageStartScenarioText();
    TrimKeepsSolidEnds("CMC stands for...");
    StreamThenFinalize(ms, k, placeholderId, MessageStartScenario);
  }

  /** `j` is the first chunk of `cs` that carries a conversation id. */
  predicate FirstMetadata(cs: seq<Chunk>, j: int) {
    && 0 <= j < |cs| && HasConversationId(cs[j])
    && forall k :: 0 <= k < j ==> !HasConversationId(cs[k])
  }

  /** `j` is the last chunk of `cs` that carries a conversation id. */
  predicate LastMetadata(cs: seq<Chunk>, j: int) {
    && 0 <= j < |cs| && HasConversationId(cs[j])
    && forall k :: j < k < |cs| ==> !HasConversationId(cs[k])
  }

  /** `j` is the last `message_start` chunk of `cs`. */
  predicate LastMessageStart(cs: seq<Chunk>, j: int) {
    && 0 <= j < |cs| && IsMessageStart(cs[j])
    && forall k :: j < k < |cs| ==> !IsMessageStart(cs[k])
  }

  /** The conversation list after the chunk handler has seen `cs`, in
      arrival order: every chunk carrying a conversation id applies the
      metadata rewrite to the captured temp entry. Entries without the temp id
      are never touched and without metadata chunks nothing changes. A temp
      entry takes the id, title and update time of the FIRST metadata chunk
      (when that id differs from the temp id): once renamed it no longer
      matches, so later metadata chunks pass it by. */
  function RewriteAll(convs: seq<Conversation>, tempId: Option<string>, cs: seq<Chunk>): (r: seq<Conversation>)
    ensures |r| == |convs|
    ensures forall i :: 0 <= i < |convs| && Some(convs[i].id) != tempId ==> r[i] == convs[i]
    ensures (forall j :: 0 <= j < |cs| ==> !HasConversationId(cs[j])) ==> r == convs
    ensures forall i, j :: 0 <= i < |convs| && Some(convs[i].id) == tempId && FirstMetadata(cs, j) &&
                           Some(cs[j].conversationId.value) != tempId ==>
                           r[i] == Conversation(cs[j].conversationId.value, cs[j].title, cs[j].updatedAt)
    decreases |cs|
  {
    if cs == [] then convs
    else
      var init := cs[..|cs| - 1];
      var prev := RewriteAll(convs, tempId, init);
      var c := cs[|cs| - 1];
      assert forall j :: FirstMetadata(cs, j) && j < |init| ==> FirstMetadata(init, j) by {
        forall j | FirstMetadata(cs, j) && j < |init| ensures FirstMetadata(init, j) {
          assert forall k :: 0 <= k <= j ==> init[k] == cs[k];
        }
      }
      assert forall j :: FirstMetadata(cs, j) && j == |init| ==>
                         forall k :: 0 <= k < |init| ==> !HasConversationId(init[k]) by {
        forall j, k | FirstMetadata(cs, j) && j == |init| && 0 <= k < |init|
          ensures !HasConversationId(init[k])
        {
          assert init[k] == cs[k];
        }
      }
      if HasConversationId(c) then RewriteConversation(prev, tempId, c.conversationId.value, c.title, c.updatedAt)
      else prev
  }

  /** `realConversationIdRef.current` after the chunk handler has seen `cs`:
      `start` if no chunk carried a conversation id, and otherwise the id of
      the LAST chunk that did. This is the id the deferred navigation uses. */
  function LastConversationId(start: Option<string>, cs: seq<Chunk>): (r: Option<string>)
    ensures (forall j :: 0 <= j < |cs| ==> !HasConversationId(cs[j])) ==> r == start
    ensures forall j :: LastMetadata(cs, j) ==> r == cs[j].conversationId
    ensures Truthy(r) <==> Truthy(start) || exists j :: 0 <= j < |cs| && HasConversationId(cs[j])
    decreases |cs|
  {
    if cs == [] then start
    else if HasConversationId(cs[|cs| - 1]) then cs[|cs| - 1].conversationId
    else
      var init := cs[..|cs| - 1];
      var r := LastConversationId(start, init);
      assert forall j :: LastMetadata(cs, j) ==> LastMetadata(init, j) by {
        forall j | LastMetadata(cs, j) ensures LastMetadata(init, j) {
          assert forall k :: j <= k < |init| ==> init[k] == cs[k];
        }
      }
      assert (exists j :: 0 <= j < |cs| && HasConversationId(cs[j])) ==>
             (exists j :: 0 <= j < |init| && HasConversationId(init[j])) by {
        if exists j :: 0 <= j < |cs| && HasConversationId(cs[j]) {
          var j :| 0 <= j < |cs| && HasConversationId(cs[j]);
          assert init[j] == cs[j];
        }
      }
      r
  }

  /** `assistantMessageIdRef.current` after the chunk handler has seen `cs`:
      `start` if no `message_start` chunk arrived, and otherwise the server id
      of the LAST one, which is never empty. */
  function LastMessageStartId(start: Option<string>, cs: seq<Chunk>): (r: Option<string>)
    ensures (forall j :: 0 <= j < |cs| ==> !IsMessageStart(cs[j])) ==> r == start
    ensures forall j :: LastMessageStart(cs, j) ==> r == cs[j].messageId && Truthy(r)
    decreases |cs|
  {
    if cs == [] then start
    else if IsMessageStart(cs[|cs| - 1]) then cs[|cs| - 1].messageId
    else
      var init := cs[..|cs| - 1];
      assert forall j :: LastMessageStart(cs, j) ==> LastMessageStart(init, j) by {
        forall j | LastMessageStart(cs, j) ensures LastMessageStart(init, j) {
          assert forall k :: j <= k < |init| ==> init[k] == cs[k];
        }
      }
      LastMessageStartId(start, init)
  }

  /** Two metadata chunks `X` then `Y`: the sidebar entry is renamed after
      `X`, the first, while the ref, and so the navigation after finalize,
      holds `Y`, the last. */
  lemma {:induction false} MetadataSplit(convs: seq<Conversation>, i: nat, tempId: string, start: Option<string>,
                                         x: Chunk, y: Chunk)
    requires i < |convs| && convs[i].id == tempId
    requires HasConversationId(x) && HasConversationId(y) && x.conversationId.value != tempId
    ensures RewriteAll(convs, Some(tempId), [x, y])[i] == Conversation(x.conversationId.value, x.title, x.updatedAt)
    ensures LastConversationId(start, [x, y]) == y.conversationId
  {
    assert FirstMetadata([x, y], 0);
    assert LastMetadata([x, y], 1);
  }

  /** The hook's state: the transcript, the conversation list and the loading
      flag it updates, the two refs its callbacks write, and the navigations it
      schedules. */
  class StreamingChat {
    var messages: seq<Message>
    var conversations: seq<Conversation>
    var isLoading: bool
    /** `assistantMessageIdRef.current` */
    var assistantMessageIdRef: Option<string>
    /** `realConversationIdRef.current` */
    var realConversationIdRef: Option<string>
    /** Paths passed to the deferred `navigate`, oldest first. */
    var navigations: seq<string>

    constructor (messages: seq<Message>, conversations: seq<Conversation>)
      ensures this.messages == messages && this.conversations == conversations && !isLoading
      ensures assistantMessageIdRef == None && realConversationIdRef == None && navigations == []
    {
      this.messages := messages;
      this.conversations := conversations;
      isLoading := false;
      assistantMessageIdRef := None;
      realConversationIdRef := None;
      navigations := [];
    }

    /** The synchronous part of `sendMessage(query)`: a blank query or a
        missing token does nothing; otherwise loading starts and a user message
        and an empty streaming assistant placeholder are appended. `userId` and
        `assistantId` are the two `uuidv4()` values. */
    method Send(query: string, accessToken: Option<string>, userId: string, assistantId: string) returns (started: bool)
      modifies this
      ensures started <==> !IsBlank(query) && Truthy(accessToken)
      ensures !started ==>
        messages == old(messages) && isLoading == old(isLoading) &&
        assistantMessageIdRef == old(assistantMessageIdRef)
      ensures started ==>
        && messages == old(messages) + [Message(Some(userId), User, query, "", false),
                                        Message(Some(assistantId), Assistant, "", "", true)]
        && isLoading
        && assistantMessageIdRef == Some(assistantId)
      ensures conversations == old(conversations) && realConversationIdRef == old(realConversationIdRef)
      ensures navigations == old(navigations)
    {
      if Trim(query) == "" || !Truthy(accessToken) {
        return false;
      }
      started := true;
      isLoading := true;
      var userMessage := Message(Some(userId), User, query, "", false);
      var assistantMessage := Message(Some(assistantId), Assistant, "", "", true);
      assistantMessageIdRef := Some(assistantId);
      messages := messages + [userMessage, assistantMessage];
    }

    /** The chunk handler, with `assistantId` and `tempConversationId` as its
        closure captured them. Conversation metadata rewrites the temp entry
        and records the real id; a `message_start` only records the server's
        message id and stops; otherwise a non-empty delta is added to the
        placeholder, and `finish_reason: "stop"` schedules a finalize. */
    method OnChunk(chunk: Chunk, assistantId: string, tempConversationId: Option<string>) returns (finalizeScheduled: bool)
      modifies this
      ensures conversations == if HasConversationId(chunk)
        then RewriteConversation(old(conversations), tempConversationId, chunk.conversationId.value, chunk.title, chunk.updatedAt)
        else old(conversations)
      ensures realConversationIdRef == if HasConversationId(chunk) then chunk.conversationId else old(realConversationIdRef)
      ensures assistantMessageIdRef == if IsMessageStart(chunk) then chunk.messageId else old(assistantMessageIdRef)
      ensures messages == AppendPartial(old(messages), assistantId, ChunkDelta(chunk))
      ensures finalizeScheduled == RequestsFinalize(chunk)
      ensures isLoading == old(isLoading) && navigations == old(navigations)
    {
      if Truthy(chunk.conversationId) {
        realConversationIdRef := chunk.conversationId;
        conversations := RewriteConversation(conversations, tempConversationId,
                                             chunk.conversationId.value, chunk.title, chunk.updatedAt);
      }

      if chunk.event == Some("message_start") && Truthy(chunk.messageId) {
        assistantMessageIdRef := chunk.messageId;
        return false;
      }

      var delta := DeltaOf(chunk);
      var finishReason := if chunk.firstChoice.Some? then chunk.firstChoice.value.finishReason else None;
      if delta != "" {
        messages := AppendPartial(messages, assistantId, delta);
      }
      finalizeScheduled := finishReason == Some("stop");
    }

    /** `finalizeAssistantMessage`: merges every in-flight text, ends loading,
        and schedules navigation to the real conversation only when one has
        been recorded. */
    method Finalize()
      modifies this
      ensures messages == FinalizeStreamed(old(messages))
      ensures !isLoading
      ensures navigations == old(navigations) +
        (if Truthy(realConversationIdRef) then [ChatRoute + realConversationIdRef.value] else [])
      ensures conversations == old(conversations)
      ensures assistantMessageIdRef == old(assistantMessageIdRef) && realConversationIdRef == old(realConversationIdRef)
    {
      messages := FinalizeStreamed(messages);
      isLoading := false;
      if Truthy(realConversationIdRef) {
        navigations := navigations + [ChatRoute + realConversationIdRef.value];
      }
    }

    /** The `.catch` of the stream: the placeholder shows the apology, its
        in-flight text is discarded, and loading ends. */
    method OnError(assistantId: string)
      modifies this
      ensures messages == MarkFailed(old(messages), assistantId, StreamFailureText)
      ensures !isLoading
      ensures conversations == old(conversations) && navigations == old(navigations)
      ensures assistantMessageIdRef == old(assistantMessageIdRef) && realConversationIdRef == old(realConversationIdRef)
    {
      messages := MarkFailed(messages, assistantId, StreamFailureText);
      isLoading := false;
    }
  }

  /** A whole successful reply driven through the hook, as the stream reader
      does it: send (with `uuidv4` ids that are fresh), the chunk handler for every chunk in arrival order, then
      the finalize that the stream's close schedules. The prior messages and
      the user message are kept and the placeholder ends with the trimmed
      streamed text. */
  method StreamReply(chat: StreamingChat, query: string, accessToken: string,
                     userId: string, assistantId: string, tempConversationId: Option<string>, cs: seq<Chunk>)
    requires !IsBlank(query) && accessToken != ""
    requires userId != assistantId
    requires forall i :: 0 <= i < |chat.messages| ==> chat.messages[i].id != Some(assistantId)
    modifies chat
    ensures |chat.messages| == |old(chat.messages)| + 2
    ensures chat.messages[..|old(chat.messages)|] == FinalizeStreamed(old(chat.messages))
    ensures chat.messages[|old(chat.messages)|] == Message(Some(userId), User, query, "", false)
    ensures chat.messages[|old(chat.messages)| + 1]
            == Message(Some(assistantId), Assistant, Trim(StreamedText(cs)), "", StreamedText(cs) == "")
    ensures chat.conversations == RewriteAll(old(chat.conversations), tempConversationId, cs)
    ensures chat.realConversationIdRef == LastConversationId(old(chat.realConversationIdRef), cs)
    ensures chat.assistantMessageIdRef == LastMessageStartId(Some(assistantId), cs)
    ensures chat.navigations == old(chat.navigations) +
      (if Truthy(chat.realConversationIdRef) then [ChatRoute + chat.realConversationIdRef.value] else [])
    ensures !chat.isLoading
  {
    ghost var before := chat.messages;
    var started := chat.Send(query, Some(accessToken), userId, assistantId);
    ghost var sent := chat.messages;
    assert sent == Sent(before, query, userId, assistantId);
    StreamChunks(chat, assistantId, tempConversationId, cs);
    chat.Finalize();
    ReplyTranscript(before, query, userId, assistantId, StreamedText(cs));
  }

  /** The stream reader's loop: the chunk handler for every chunk of `cs` in
      arrival order, with the closure's `assistantId` and temp id. The
      placeholder receives the streamed text, and the list and both refs are
      the chunk-run results; loading and navigations are untouched. */
  method StreamChunks(chat: StreamingChat, assistantId: string, tempConversationId: Option<string>, cs: seq<Chunk>)
    modifies chat
    ensures chat.messages == AppendPartial(old(chat.messages), assistantId, StreamedText(cs))
    ensures chat.conversations == RewriteAll(old(chat.conversations), tempConversationId, cs)
    ensures chat.realConversationIdRef == LastConversationId(old(chat.realConversationIdRef), cs)
    ensures chat.assistantMessageIdRef == LastMessageStartId(old(chat.assistantMessageIdRef), cs)
    ensures chat.navigations == old(chat.navigations) && chat.isLoading == old(chat.isLoading)
  {
    ghost var sent, convs, realId, messageId := chat.messages, chat.conversations,
                                                chat.realConversationIdRef, chat.assistantMessageIdRef;
    var n := 0;
    assert cs[..n] == [];
    while n < |cs|
      invariant n <= |cs|
      invariant RanChunks(chat, assistantId, tempConversationId, sent, convs, realId, messageId, cs[..n])
      invariant chat.navigations == old(chat.navigations) && chat.isLoading == old(chat.isLoading)
    {
      StreamOne(chat, assistantId, tempConversationId, sent, convs, realId, messageId, cs[..n], cs[n]);
      PrefixSnoc(cs, n);
      n := n + 1;
    }
    assert cs[..n] == cs;
    assert RanChunks(chat, assistantId, tempConversationId, sent, convs, realId, messageId, cs);
  }

  /** The hook's state is what handling `done` in order makes of the state
      `sent`, `convs`, `realId`, `messageId`. */
  ghost predicate RanChunks(chat: StreamingChat, assistantId: string, tempConversationId: Option<string>,
                            sent: seq<Message>, convs: seq<Conversation>,
                            realId: Option<string>, messageId: Option<string>, done: seq<Chunk>)
    reads chat
  {
    && chat.messages == AppendPartial(sent, assistantId, StreamedText(done))
    && chat.conversations == RewriteAll(convs, tempConversationId, done)
    && chat.realConversationIdRef == LastConversationId(realId, done)
    && chat.assistantMessageIdRef == LastMessageStartId(messageId, done)
  }

  /** One turn of the stream reader's loop: if the hook's state is the
      chunk-run result of `done`, handling `c` makes it the result of
      `done + [c]`. */
  method StreamOne(chat: StreamingChat, assistantId: string, tempConversationId: Option<string>,
                   ghost sent: seq<Message>, ghost convs: seq<Conversation>,
                   ghost realId: Option<string>, ghost messageId: Option<string>,
                   done: seq<Chunk>, c: Chunk)
    requires RanChunks(chat, assistantId, tempConversationId, sent, convs, realId, messageId, done)
    modifies chat
    ensures RanChunks(chat, assistantId, tempConversationId, sent, convs, realId, messageId, done + [c])
    ensures chat.navigations == old(chat.navigations) && chat.isLoading == old(chat.isLoading)
  {
    var _ := chat.OnChunk(c, assistantId, tempConversationId);
    ChunkRunSnoc(convs, tempConversationId, realId, messageId, done, c);
    StreamedTextSnoc(done, c);
    AppendPartialTwice(sent, assistantId, StreamedText(done), ChunkDelta(c));
  }

  /** The transcript right after `sendMessage` started: the user message and
      the streaming placeholder appended. */
  function Sent(before: seq<Message>, query: string, userId: string, assistantId: string): seq<Message> {
    before + [Message(Some(userId), User, query, "", false), Message(Some(assistantId), Assistant, "", "", true)]
  }

  /** The transcript after one reply, stated on values: prior messages (none
      of which carries the fresh placeholder id) are only finalized, the user
      message keeps the query, and the placeholder holds the trimmed text. */
  lemma ReplyTranscript(before: seq<Message>, query: string, userId: string, assistantId: string, text: string)
    requires userId != assistantId
    requires forall i :: 0 <= i < |before| ==> before[i].id != Some(assistantId)
    ensures |FinalizeStreamed(AppendPartial(Sent(before, query, userId, assistantId), assistantId, text))| == |before| + 2
    ensures FinalizeStreamed(AppendPartial(Sent(before, query, userId, assistantId), assistantId, text))[..|before|]
            == FinalizeStreamed(before)
    ensures FinalizeStreamed(AppendPartial(Sent(before, query, userId, assistantId), assistantId, text))[|before|]
            == Message(Some(userId), User, query, "", false)
    ensures FinalizeStreamed(AppendPartial(Sent(before, query, userId, assistantId), assistantId, text))[|before| + 1]
            == Message(Some(assistantId), Assistant, Trim(text), "", text == "")
  {
    StreamIntoSent(before, query, userId, assistantId, text);
    var streamed := before + [Message(Some(userId), User, query, "", false),
                              Message(Some(assistantId), Assistant, "", text, true)];
    var after := FinalizeStreamed(streamed);
    var prior := FinalizeStreamed(before);
    forall i | 0 <= i < |before| ensures after[i] == prior[i] {
      assert streamed[i] == before[i];
    }
    assert after[..|before|] == prior;
    assert text == "" ==> Trim(text) == "";
  }

  /** Streaming `text` to the fresh placeholder of a just-sent transcript
      touches only the placeholder. */
  lemma StreamIntoSent(before: seq<Message>, query: string, userId: string, assistantId: string, text: string)
    requires userId != assistantId
    requires forall i :: 0 <= i < |before| ==> before[i].id != Some(assistantId)
    ensures AppendPartial(Sent(before, query, userId, assistantId), assistantId, text)
            == before + [Message(Some(userId), User, query, "", false),
                         Message(Some(assistantId), Assistant, "", text, true)]
  {
    var sent := Sent(before, query, userId, assistantId);
    var streamed := AppendPartial(sent, assistantId, text);
    var expected := before + [Message(Some(userId), User, query, "", false),
                              Message(Some(assistantId), Assistant, "", text, true)];
    forall i | 0 <= i < |sent| ensures streamed[i] == expected[i] {
      if i < |before| {
        assert sent[i] == before[i];
      }
    }
  }

  /** One more chunk extends each chunk-run result by one handler step. */
  lemma ChunkRunSnoc(convs: seq<Conversation>, tempId: Option<string>, realStart: Option<string>,
                     messageStart: Option<string>, cs: seq<Chunk>, c: Chunk)
    ensures RewriteAll(convs, tempId, cs + [c]) ==
      if HasConversationId(c)
      then RewriteConversation(RewriteAll(convs, tempId, cs), tempId, c.conversationId.value, c.title, c.updatedAt)
      else RewriteAll(convs, tempId, cs)
    ensures LastConversationId(realStart, cs + [c]) ==
      if HasConversationId(c) then c.conversationId else LastConversationId(realStart, cs)
    ensures LastMessageStartId(messageStart, cs + [c]) ==
      if IsMessageStart(c) then c.messageId else LastMessageStartId(messageStart, cs)
  {
    assert (cs + [c])[..|cs|] == cs;
  }

  /** The first `n + 1` chunks are the first `n` and then chunk `n`. */
  lemma PrefixSnoc(cs: seq<Chunk>, n: nat)
    requires n < |cs|
    ensures cs[..n + 1] == cs[..n] + [cs[n]]
  {
  }

  lemma StreamedTextSnoc(cs: seq<Chunk>, c: Chunk)
    ensures StreamedText(cs + [c]) == StreamedText(cs) + ChunkDelta(c)
  {
    assert Deltas(cs + [c]) == Deltas(cs) + [ChunkDelta(c)];
    ConcatSnoc(Deltas(cs), ChunkDelta(c));
  }
}

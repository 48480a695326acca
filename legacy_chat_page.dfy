/** The older chat page's `handleSendMessage`: it adds the user message and a
    placeholder whose id is derived from the clock, appends each raw text
    chunk to the placeholder's in-flight text, merges that text into the
    content (untrimmed) when the stream closes, and overwrites the
    placeholder with an apology when the request fails. */
module LegacyChatPage {
  import opened ChatTypes
  import opened JsText
  import opened ChatMessageView
  import opened Transcript

  const LegacyFailureText: string := "Sorry, I encountered an error. Please try again."
  const AssistantIdPrefix: string := "assistant-"

  /** `assistant-${Date.now()}` */
  function PlaceholderId(now: nat): (r: string)
    ensures StartsWith(r, AssistantIdPrefix)
    ensures |r| > |AssistantIdPrefix|
    ensures forall k :: |AssistantIdPrefix| <= k < |r| ==> IsDigit(r[k])
  {
    AssistantIdPrefix + Decimal(now)
  }

  /** Sends at different times get different placeholder ids. */
  lemma PlaceholderIdInjective(a: nat, b: nat)
    ensures PlaceholderId(a) == PlaceholderId(b) ==> a == b
  {
    if PlaceholderId(a) == PlaceholderId(b) {
      assert PlaceholderId(a)[|AssistantIdPrefix|..] == Decimal(a);
      assert PlaceholderId(b)[|AssistantIdPrefix|..] == Decimal(b);
      DecimalInjective(a, b);
    }
  }

  /** The completion updater: every message carrying `targetId` has its
      in-flight text moved, verbatim, onto the end of its content and stops
      streaming; every other message is unchanged. */
  function CompletePlaceholder(ms: seq<Message>, targetId: string): (r: seq<Message>)
    ensures |r| == |ms|
    ensures forall i :: 0 <= i < |ms| && ms[i].id == Some(targetId) ==>
      r[i] == Message(ms[i].id, ms[i].sender, ms[i].content + ms[i].partial, "", false)
    ensures forall i :: 0 <= i < |ms| && ms[i].id != Some(targetId) ==> r[i] == ms[i]
  {
    seq(|ms|, i requires 0 <= i < |ms| =>
      if ms[i].id == Some(targetId)
      then ms[i].(content := ms[i].content + ms[i].partial, partial := "", isStreaming := false)
      else ms[i])
  }

  /** Completion changes nothing an assistant message shows (there is no
      trimming here), and leaves no cursor on the completed message. */
  lemma CompletePreservesDisplay(ms: seq<Message>, targetId: string, i: nat)
    requires i < |ms|
    ensures ms[i].sender == Assistant ==> DisplayText(CompletePlaceholder(ms, targetId)[i]) == DisplayText(ms[i])
    ensures ms[i].id == Some(targetId) ==> !ShowsCursor(CompletePlaceholder(ms, targetId)[i])
  {
  }

  /** A second completion finds nothing left in flight and changes nothing. */
  lemma CompleteIdempotent(ms: seq<Message>, targetId: string)
    ensures CompletePlaceholder(CompletePlaceholder(ms, targetId), targetId) == CompletePlaceholder(ms, targetId)
  {
    var once := CompletePlaceholder(ms, targetId);
    var twice := CompletePlaceholder(once, targetId);
    forall i | 0 <= i < |ms| ensures twice[i] == once[i] {
      if ms[i].id == Some(targetId) {
        assert once[i].content + once[i].partial == once[i].content;
      }
    }
  }

  /** The page's transcript and loading flag. */
  class LegacyChat {
    var messages: seq<Message>
    var isLoading: bool

    constructor ()
      ensures messages == [] && !isLoading
    {
      messages := [];
      isLoading := false;
    }

    /** `handleSendMessage` up to the request: a blank query does nothing;
        otherwise the user message (which has no id) and the placeholder are
        appended, loading starts, and the placeholder id is returned for the
        stream callbacks. */
    method Send(query: string, now: nat) returns (placeholderId: Option<string>)
      modifies this
      ensures placeholderId.Some? <==> !IsBlank(query)
      ensures placeholderId.None? ==> messages == old(messages) && isLoading == old(isLoading)
      ensures placeholderId.Some? ==>
        && placeholderId.value == PlaceholderId(now)
        && messages == old(messages) + [Message(None, User, query, "", false),
                                        Message(Some(PlaceholderId(now)), Assistant, "", "", true)]
        && isLoading
    {
      if Trim(query) == "" {
        return None;
      }
      messages := messages + [Message(None, User, query, "", false)];
      isLoading := true;
      var id := PlaceholderId(now);
      messages := messages + [Message(Some(id), Assistant, "", "", true)];
      return Some(id);
    }

    /** `onChunk`: the raw chunk goes onto the placeholder's in-flight text. */
    method OnChunk(placeholderId: string, chunk: string)
      modifies this
      ensures messages == AppendPartial(old(messages), placeholderId, chunk)
      ensures isLoading == old(isLoading)
    {
      messages := AppendPartial(messages, placeholderId, chunk);
    }

    /** `onClose`: the placeholder's text is merged and loading ends. */
    method OnComplete(placeholderId: string)
      modifies this
      ensures messages == CompletePlaceholder(old(messages), placeholderId)
      ensures !isLoading
    {
      messages := CompletePlaceholder(messages, placeholderId);
      isLoading := false;
    }

    /** The `.catch` handler: the placeholder shows the apology and loading
        ends. */
    method OnError(placeholderId: string)
      modifies this
      ensures messages == MarkFailed(old(messages), placeholderId, LegacyFailureText)
      ensures !isLoading
    {
      messages := MarkFailed(messages, placeholderId, LegacyFailureText);
      isLoading := false;
    }
  }

  /** One whole exchange: a query is sent at time `now`, the chunks arrive,
      and the stream closes. Earlier messages are untouched, the user message
      holds the query, and the placeholder holds exactly the chunks joined in
      arrival order, no longer streaming. */
  method LegacyStreamReply(chat: LegacyChat, query: string, now: nat, chunks: seq<string>)
    requires !IsBlank(query)
    requires forall i :: 0 <= i < |chat.messages| ==> chat.messages[i].id != Some(PlaceholderId(now))
    modifies chat
    ensures chat.messages == old(chat.messages) + [Message(None, User, query, "", false),
                                                   Message(Some(PlaceholderId(now)), Assistant, Concat(chunks), "", false)]
    ensures !chat.isLoading
  {
    var before := chat.messages;
    var started := chat.Send(query, now);
    var id := started.value;
    var sent := chat.messages;
    var n := 0;
    while n < |chunks|
      invariant 0 <= n <= |chunks|
      invariant chat.messages == AppendPartial(sent, id, Concat(chunks[..n]))
    {
      chat.OnChunk(id, chunks[n]);
      ConcatSnoc(chunks[..n], chunks[n]);
      AppendPartialTwice(sent, id, Concat(chunks[..n]), chunks[n]);
      assert chunks[..n + 1] == chunks[..n] + [chunks[n]];
      n := n + 1;
    }
    assert chunks[..n] == chunks;
    chat.OnComplete(id);
    LegacyReply(before, query, id, Concat(chunks));
  }

  /** The transcript effect of one exchange, on values: streaming `text` into
      a fresh placeholder and completing it leaves the earlier messages and
      the user message as they were and puts `text` in the placeholder. */
  lemma LegacyReply(before: seq<Message>, query: string, id: string, text: string)
    requires forall i :: 0 <= i < |before| ==> before[i].id != Some(id)
    ensures CompletePlaceholder(AppendPartial(before + [Message(None, User, query, "", false),
                                                        Message(Some(id), Assistant, "", "", true)], id, text), id)
            == before + [Message(None, User, query, "", false), Message(Some(id), Assistant, text, "", false)]
  {
    var sent := before + [Message(None, User, query, "", false), Message(Some(id), Assistant, "", "", true)];
    var after := CompletePlaceholder(AppendPartial(sent, id, text), id);
    var expected := before + [Message(None, User, query, "", false), Message(Some(id), Assistant, text, "", false)];
    forall i | 0 <= i < |sent| ensures after[i] == expected[i] {
      if i < |before| {
        assert sent[i] == before[i];
      } else if i == |before| + 1 {
        assert "" + text == text;
      }
    }
  }
}

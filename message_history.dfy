/** `useMessages`: loads a conversation's history and turns the server's
    newest-first records into settled display messages, oldest first. */
module MessageHistory {
  import opened ChatTypes
  import opened JsText
  import opened JsArray

  /** A message as the history endpoint returns it: `id` may be missing and
      `content` may be missing. */
  datatype ServerMessage = ServerMessage(id: Option<string>, sender: Sender, content: Option<string>)

  /** Prefix that marks a conversation id made up on the client. */
  const TempPrefix: string := "temp-"

  /** What the effect does for a conversation id and token. */
  datatype HistoryLoad =
    | Clear                          // `setMessages([])`, nothing is fetched
    | Fetch(conversationId: string)  // `getConversationMessages(conversationId, token)`

  /** The two early returns of the effect: no token or no conversation id
      clears; a client-made `temp-` id clears without asking the server. */
  function HistoryRequest(conversationId: Option<string>, accessToken: Option<string>): (r: HistoryLoad)
    ensures r.Fetch? <==> Truthy(accessToken) && Truthy(conversationId) && !StartsWith(conversationId.value, TempPrefix)
    ensures r.Fetch? ==> r.conversationId == conversationId.value
  {
    if !Truthy(accessToken) || !Truthy(conversationId) then Clear
    else if StartsWith(conversationId.value, TempPrefix) then Clear
    else Fetch(conversationId.value)
  }

  /** One server record as a display message; `freshId` is the `uuidv4()`
      used when the record has no id. */
  function Normalize(m: ServerMessage, freshId: string): Message {
    Message(Some(m.id.GetOr(freshId)), m.sender, m.content.GetOr(""), "", false)
  }

  /** `data.map(normalize).reverse()`; `freshIds[k]` is the id drawn for
      record `k` if it needs one. Element `i` of the result comes from record
      `n - 1 - i`: it keeps that record's id (or gets the fresh one), sender and
      content (missing content becomes ""), and is settled. */
  function NormalizeHistory(data: seq<ServerMessage>, freshIds: seq<string>): (r: seq<Message>)
    requires |freshIds| == |data|
    ensures |r| == |data|
    ensures forall i :: 0 <= i < |r| ==>
      var m := data[|data| - 1 - i];
      && r[i].id == (if m.id.Some? then m.id else Some(freshIds[|data| - 1 - i]))
      && r[i].sender == m.sender
      && r[i].content == (if m.content.Some? then m.content.value else "")
      && r[i].partial == ""
      && !r[i].isStreaming
  {
    Reverse(seq(|data|, k requires 0 <= k < |data| => Normalize(data[k], freshIds[k])))
  }

  /** The transcript after the effect settles: cleared, the normalized
      history when the fetch succeeded, or unchanged when it failed (the
      failure is only logged). */
  function LoadedMessages(conversationId: Option<string>, accessToken: Option<string>,
                          response: Option<seq<ServerMessage>>, freshIds: seq<string>,
                          current: seq<Message>): (r: seq<Message>)
    requires response.Some? ==> |freshIds| == |response.value|
    ensures HistoryRequest(conversationId, accessToken) == Clear ==> r == []
    ensures HistoryRequest(conversationId, accessToken).Fetch? && response.None? ==> r == current
    ensures HistoryRequest(conversationId, accessToken).Fetch? && response.Some? ==>
              r == NormalizeHistory(response.value, freshIds)
  {
    match HistoryRequest(conversationId, accessToken)
    case Clear => []
    case Fetch(_) =>
      match response
      case Some(data) => NormalizeHistory(data, freshIds)
      case None => current
  }

  /** The oldest-first order is the exact reverse of the server's order:
      reversing the result gives the records back in server order. */
  lemma HistoryOrder(data: seq<ServerMessage>, freshIds: seq<string>)
    requires |freshIds| == |data|
    ensures Reverse(NormalizeHistory(data, freshIds)) ==
            seq(|data|, k requires 0 <= k < |data| => Normalize(data[k], freshIds[k]))
  {
  }
}

/** The per-index `isLastAssistant` flag that `ChatMessagesContainer` passes to
    each rendered message, and the reference "greatest assistant index". */
module MessagesContainer {
  import opened ChatTypes

  /** `list.every(m => m.sender !== "assistant")` */
  predicate NoAssistant(ms: seq<Message>) {
    forall k :: 0 <= k < |ms| ==> ms[k].sender != Assistant
  }

  /** The flag computed for index `i`: message `i` is an assistant message and
      `messages.slice(i + 1)` holds no assistant message. */
  predicate IsLastAssistant(ms: seq<Message>, i: nat)
    requires i < |ms|
  {
    ms[i].sender == Assistant && NoAssistant(ms[i + 1..])
  }

  /** The greatest index holding an assistant message, if any. */
  function LastAssistantIndex(ms: seq<Message>): (r: Option<nat>)
    ensures r.Some? ==> r.value < |ms| && ms[r.value].sender == Assistant
    ensures r.Some? ==> forall j :: r.value < j < |ms| ==> ms[j].sender != Assistant
    ensures r.None? <==> NoAssistant(ms)
  {
    if ms == [] then None
    else if ms[|ms| - 1].sender == Assistant then Some(|ms| - 1)
    else
      var r := LastAssistantIndex(ms[..|ms| - 1]);
      assert r.None? ==> NoAssistant(ms) by {
        if r.None? {
          forall k | 0 <= k < |ms| ensures ms[k].sender != Assistant {
            if k < |ms| - 1 { assert ms[..|ms| - 1][k] == ms[k]; }
          }
        }
      }
      r
  }

  /** Index `i` is flagged exactly when it is the greatest assistant index:
      hence at most one index is flagged, it is flagged whenever an assistant
      message exists, and user messages and empty lists flag nothing. */
  lemma FlaggedIffLastAssistantIndex(ms: seq<Message>, i: nat)
    requires i < |ms|
    ensures IsLastAssistant(ms, i) <==> LastAssistantIndex(ms) == Some(i)
  {
  }

  /** At most one index carries the flag. */
  lemma AtMostOneFlagged(ms: seq<Message>, i: nat, j: nat)
    requires i < |ms| && j < |ms|
    requires IsLastAssistant(ms, i) && IsLastAssistant(ms, j)
    ensures i == j
  {
  }

  /** When some assistant message exists, some index carries the flag. */
  lemma SomeIndexFlagged(ms: seq<Message>)
    requires !NoAssistant(ms)
    ensures exists i :: 0 <= i < |ms| && IsLastAssistant(ms, i)
  {
    var i := LastAssistantIndex(ms).value;
    FlaggedIffLastAssistantIndex(ms, i);
  }
}

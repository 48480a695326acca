/** The conversation-level thumbs buttons (`ConversationFeedback`): they rate
    the most recent assistant message, found by searching a reversed copy of
    the transcript. */
module ConversationFeedback {
  import opened ChatTypes
  import opened JsArray
  import opened MessageFeedback
  import MessagesContainer

  /** `list.find(m => m.sender === "assistant")`: the first assistant message. */
  function FindAssistant(s: seq<Message>): Option<Message> {
    if s == [] then None
    else if s[0].sender == Assistant then Some(s[0])
    else FindAssistant(s[1..])
  }

  /** `find` returns the element at the first assistant index, and nothing
      when there is no assistant message. */
  lemma {:induction false} FindAssistantAt(s: seq<Message>, k: nat)
    requires k < |s| && s[k].sender == Assistant
    requires forall j :: 0 <= j < k ==> s[j].sender != Assistant
    ensures FindAssistant(s) == Some(s[k])
  {
    if k > 0 {
      FindAssistantAt(s[1..], k - 1);
    }
  }

  lemma {:induction false} FindAssistantNone(s: seq<Message>)
    requires MessagesContainer.NoAssistant(s)
    ensures FindAssistant(s) == None
  {
    if s != [] {
      assert MessagesContainer.NoAssistant(s[1..]) by {
        forall k | 0 <= k < |s| - 1 ensures s[1..][k].sender != Assistant {
          assert s[1..][k] == s[k + 1];
        }
      }
      FindAssistantNone(s[1..]);
    }
  }

  /** `[...messages].reverse().find(m => m.sender === "assistant")?.id ?? null` */
  function LastAssistantId(messages: seq<Message>): Option<string> {
    match FindAssistant(Reverse(messages))
    case Some(m) => m.id
    case None => None
  }

  /** The id looked up is the id of the message at the greatest assistant index,
      the same message the container flags as last assistant; with no assistant
      message it is `null`. */
  lemma LastAssistantIdIsFlaggedMessage(messages: seq<Message>)
    ensures match MessagesContainer.LastAssistantIndex(messages)
            case Some(i) => LastAssistantId(messages) == messages[i].id
            case None => LastAssistantId(messages) == None
  {
  }

  class ConversationFeedbackButtons {
    /** The highlighted button, if any. */
    var selected: Option<Thumb>
    /** The message that feedback is about. */
    var lastAssistantId: Option<string>
    /** Feedback requests issued so far, oldest first. */
    var posts: seq<FeedbackPost>

    /** Mounting runs the tracking effect once on the initial transcript. */
    constructor (messages: seq<Message>)
      ensures selected == None && lastAssistantId == LastAssistantId(messages) && posts == []
    {
      selected := None;
      lastAssistantId := LastAssistantId(messages);
      posts := [];
    }

    /** The effect that re-runs whenever the transcript changes. */
    method TrackMessages(messages: seq<Message>)
      modifies this
      ensures lastAssistantId == LastAssistantId(messages)
      ensures selected == old(selected) && posts == old(posts)
    {
      lastAssistantId := LastAssistantId(messages);
    }

    /** `submitFeedback`: posts `value` for the tracked message, and does
        nothing when no message is tracked. */
    method SubmitFeedback(value: Option<Thumb>)
      modifies this
      ensures posts == if Truthy(lastAssistantId)
                       then old(posts) + [FeedbackPost(lastAssistantId.value, value)]
                       else old(posts)
      ensures selected == old(selected) && lastAssistantId == old(lastAssistantId)
    {
      if !Truthy(lastAssistantId) {
        return;
      }
      posts := posts + [FeedbackPost(lastAssistantId.value, value)];
    }

    /** `handleClick`: ignored while no message is tracked; otherwise toggles
        the selection and posts the new selection for the tracked message. */
    method HandleClick(value: Thumb)
      modifies this
      ensures lastAssistantId == old(lastAssistantId)
      ensures !Truthy(lastAssistantId) ==> selected == old(selected) && posts == old(posts)
      ensures Truthy(lastAssistantId) ==>
                selected == Toggle(old(selected), value) &&
                posts == old(posts) + [FeedbackPost(lastAssistantId.value, selected)]
    {
      if !Truthy(lastAssistantId) {
        return;
      }
      if selected == Some(value) {
        selected := None;
        SubmitFeedback(None);
      } else {
        selected := Some(value);
        SubmitFeedback(Some(value));
      }
    }
  }
}

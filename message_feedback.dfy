/** The thumbs-up/thumbs-down buttons under one assistant message
    (`MessageFeedback`), and the toggle rule shared with the
    conversation-level buttons. */
module MessageFeedback {
  import opened ChatTypes

  datatype Thumb = Up | Down

  /** One `POST /messages/<messageId>/feedback` with body `{ feedback }`. */
  datatype FeedbackPost = FeedbackPost(messageId: string, feedback: Option<Thumb>)

  /** The selection after clicking `value`: clicking the selected button clears
      the selection, clicking any other button selects it. */
  function Toggle(selected: Option<Thumb>, value: Thumb): (r: Option<Thumb>)
    ensures r == None || r == Some(value)
    ensures r == None <==> selected == Some(value)
  {
    if selected == Some(value) then None else Some(value)
  }

  /** Two clicks on the same button end at nothing selected, unless that button
      was selected to begin with, in which case they restore it. */
  lemma ToggleTwice(selected: Option<Thumb>, value: Thumb)
    ensures Toggle(Toggle(selected, value), value) == (if selected == Some(value) then selected else None)
  {
  }

  class MessageFeedbackButtons {
    const messageId: string
    /** The highlighted button, if any. */
    var selected: Option<Thumb>
    /** Feedback requests issued so far, oldest first. */
    var posts: seq<FeedbackPost>

    /** `initialFeedback` defaults to `null`, i.e. `None`. */
    constructor (messageId: string, initialFeedback: Option<Thumb>)
      ensures this.messageId == messageId && selected == initialFeedback && posts == []
    {
      this.messageId := messageId;
      selected := initialFeedback;
      posts := [];
    }

    /** `handleClick`: toggles the selection and submits the new selection. */
    method HandleClick(value: Thumb)
      modifies this
      ensures selected == Toggle(old(selected), value)
      ensures posts == old(posts) + [FeedbackPost(messageId, selected)]
    {
      var newValue := if selected == Some(value) then None else Some(value);
      selected := newValue;
      posts := posts + [FeedbackPost(messageId, newValue)];
    }
  }
}

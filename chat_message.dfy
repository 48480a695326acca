/** What `ChatMessage` renders for one transcript entry: the text handed to the
    markdown renderer and whether the streaming cursor is drawn. */
module ChatMessageView {
  import opened ChatTypes

  /** A user bubble shows `content` alone; an assistant message shows
      `content + (partial ?? "")`. */
  function DisplayText(m: Message): string {
    if m.sender == User then m.content else m.content + m.partial
  }

  /** The cursor is drawn for an assistant message that is streaming and has
      in-flight text (`isStreaming && partial`); never for a user bubble. */
  predicate ShowsCursor(m: Message) {
    m.sender == Assistant && m.isStreaming && m.partial != ""
  }

  /** A user message ignores its in-flight buffer; an assistant message shows
      its finalized text followed by its in-flight text, so the finalized text
      is always a prefix of what is shown, and the cursor only appears when
      something beyond it is shown. */
  lemma DisplayTextShape(m: Message)
    ensures m.sender == User ==> DisplayText(m) == m.content
    ensures m.sender == Assistant ==> m.content <= DisplayText(m) && DisplayText(m)[|m.content|..] == m.partial
    ensures ShowsCursor(m) ==> |DisplayText(m)| > |m.content|
  {
  }

  /** Appending a delta to the in-flight buffer makes an assistant message's
      shown text grow by exactly that delta (so it only grows while streaming),
      and leaves a user bubble as it was. */
  lemma AppendDeltaGrowsDisplay(m: Message, delta: string)
    ensures m.sender == Assistant ==> DisplayText(m.(partial := m.partial + delta)) == DisplayText(m) + delta
    ensures m.sender == Assistant ==> DisplayText(m) <= DisplayText(m.(partial := m.partial + delta))
    ensures m.sender == User ==> DisplayText(m.(partial := m.partial + delta)) == DisplayText(m)
  {
  }
}

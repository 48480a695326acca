/** Transcript updaters shared by both streaming reconcilers: each is the pure
    `prev.map(...)` passed to `setMessages`, so it maps a whole transcript
    snapshot to the next one. */
module Transcript {
  import opened ChatTypes
  import opened ChatMessageView

  /** The text of a list of fragments, joined in order. */
  function Concat(parts: seq<string>): string {
    if parts == [] then "" else parts[0] + Concat(parts[1..])
  }

  lemma {:induction false} ConcatSnoc(parts: seq<string>, last: string)
    ensures Concat(parts + [last]) == Concat(parts) + last
  {
    if parts != [] {
      assert (parts + [last])[1..] == parts[1..] + [last];
      ConcatSnoc(parts[1..], last);
    }
  }

  /** `msg.id === targetId ? { ...msg, partial: (msg.partial ?? "") + delta } : msg`
      over the transcript: every message carrying `targetId` gets `delta` added
      to its in-flight text; nothing else about any message changes, and an
      empty delta changes nothing at all. */
  function AppendPartial(ms: seq<Message>, targetId: string, delta: string): (r: seq<Message>)
    ensures |r| == |ms|
    ensures forall i :: 0 <= i < |ms| ==>
      && r[i].id == ms[i].id && r[i].sender == ms[i].sender
      && r[i].content == ms[i].content && r[i].isStreaming == ms[i].isStreaming
    ensures forall i :: 0 <= i < |ms| ==>
      r[i].partial == ms[i].partial + (if ms[i].id == Some(targetId) then delta else "")
    ensures delta == "" ==> r == ms
  {
    var r := seq(|ms|, i requires 0 <= i < |ms| =>
      if ms[i].id == Some(targetId) then ms[i].(partial := ms[i].partial + delta) else ms[i]);
    assert delta == "" ==> r == ms by {
      if delta == "" {
        forall i | 0 <= i < |ms| ensures r[i] == ms[i] {
          assert ms[i].partial + delta == ms[i].partial;
        }
      }
    }
    r
  }

  /** Two deltas in a row add their concatenation. */
  lemma AppendPartialTwice(ms: seq<Message>, targetId: string, a: string, b: string)
    ensures AppendPartial(AppendPartial(ms, targetId, a), targetId, b) == AppendPartial(ms, targetId, a + b)
  {
    var lhs := AppendPartial(AppendPartial(ms, targetId, a), targetId, b);
    var rhs := AppendPartial(ms, targetId, a + b);
    forall i | 0 <= i < |ms| ensures lhs[i] == rhs[i] {
      if ms[i].id == Some(targetId) {
        assert ms[i].partial + a + b == ms[i].partial + (a + b);
      }
    }
  }

  /** While streaming, what the user sees of the targeted assistant message
      grows by exactly the delta; every other message looks the same. */
  lemma AppendPartialDisplay(ms: seq<Message>, targetId: string, delta: string, i: nat)
    requires i < |ms|
    ensures DisplayText(AppendPartial(ms, targetId, delta)[i]) ==
            DisplayText(ms[i]) + (if ms[i].id == Some(targetId) && ms[i].sender == Assistant then delta else "")
  {
  }

  /** Feeding deltas one by one, each addressed to `targetId`. */
  function AppendAll(ms: seq<Message>, targetId: string, deltas: seq<string>): (r: seq<Message>)
    ensures |r| == |ms|
    decreases |deltas|
  {
    if deltas == [] then ms
    else AppendAll(AppendPartial(ms, targetId, deltas[0]), targetId, deltas[1..])
  }

  /** However the text arrives in pieces, the result is the same as receiving
      all of it at once, in arrival order. */
  lemma {:induction false} AppendAllIsConcat(ms: seq<Message>, targetId: string, deltas: seq<string>)
    ensures AppendAll(ms, targetId, deltas) == AppendPartial(ms, targetId, Concat(deltas))
    decreases |deltas|
  {
    if deltas != [] {
      AppendAllIsConcat(AppendPartial(ms, targetId, deltas[0]), targetId, deltas[1..]);
      AppendPartialTwice(ms, targetId, deltas[0], Concat(deltas[1..]));
    }
  }

  /** The error updater: every message carrying `targetId` ends with `text`
      as its whole content, its in-flight text discarded and streaming over;
      every other message is unchanged. */
  function MarkFailed(ms: seq<Message>, targetId: string, text: string): (r: seq<Message>)
    ensures |r| == |ms|
    ensures forall i :: 0 <= i < |ms| && ms[i].id == Some(targetId) ==>
      r[i].id == ms[i].id && r[i].sender == ms[i].sender &&
      r[i].content == text && r[i].partial == "" && !r[i].isStreaming
    ensures forall i :: 0 <= i < |ms| && ms[i].id != Some(targetId) ==> r[i] == ms[i]
  {
    seq(|ms|, i requires 0 <= i < |ms| =>
      if ms[i].id == Some(targetId) then ms[i].(content := text, partial := "", isStreaming := false) else ms[i])
  }

  /** A failed message shows exactly the apology, whatever had streamed in. */
  lemma MarkFailedDisplay(ms: seq<Message>, targetId: string, text: string, i: nat)
    requires i < |ms| && ms[i].id == Some(targetId)
    ensures DisplayText(MarkFailed(ms, targetId, text)[i]) == text
    ensures !ShowsCursor(MarkFailed(ms, targetId, text)[i])
  {
  }
}

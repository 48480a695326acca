/** The records of the chat client (`Message`, `Conversation`) and the
    JavaScript notions of "missing" and "truthy" that its code branches on. */
module ChatTypes {

  /** A JavaScript value that may be `null`/`undefined`. */
  datatype Option<+T> = None | Some(value: T) {
    /** `x ?? d` */
    function GetOr(default: T): T {
      match this
      case Some(v) => v
      case None => default
    }
  }

  /** `if (s)` on a string-or-missing value: present and not the empty string. */
  predicate Truthy(s: Option<string>) {
    s.Some? && s.value != ""
  }

  datatype Sender = User | Assistant

  /** One transcript entry. `id` is missing for a user message created by the
      legacy chat page; a missing `partial` is the empty string and a missing
      `isStreaming` is false, which is how every reader of these fields treats
      them (`partial ?? ""`, `if (msg.partial)`, `isStreaming && ...`). */
  datatype Message = Message(
    id: Option<string>,
    sender: Sender,
    content: string,
    partial: string,
    isStreaming: bool)

  /** One sidebar entry. `title` and `updatedAt` can become `undefined` when a
      metadata chunk that lacks them is copied in. */
  datatype Conversation = Conversation(
    id: string,
    title: Option<string>,
    updatedAt: Option<string>)
}

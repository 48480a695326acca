/** The message box (`ChatInput`): the text being typed, the submit guard and
    the Enter/Shift+Enter rule. */
module ChatInput {
  import opened JsText

  /** `input.trim() && !isLoading`: a submit goes through exactly when the box
      holds something other than whitespace and no reply is loading. */
  function CanSubmit(input: string, isLoading: bool): (r: bool)
    ensures r <==> !IsBlank(input) && !isLoading
  {
    Trim(input) != "" && !isLoading
  }

  /** Enter submits; Shift+Enter inserts a line break instead. */
  predicate IsSubmitKey(key: string, shiftKey: bool) {
    key == "Enter" && !shiftKey
  }

  class ChatInputBox {
    /** The text in the box. */
    var input: string
    /** The texts handed to `onSendMessage`, oldest first. */
    var sent: seq<string>

    constructor ()
      ensures input == "" && sent == []
    {
      input := "";
      sent := [];
    }

    /** `handleInputChange`: the box holds exactly the new text. */
    method HandleInputChange(value: string)
      modifies this
      ensures input == value && sent == old(sent)
    {
      input := value;
    }

    /** `handleSubmit`: when allowed, sends the text as typed (untrimmed) and
        empties the box; otherwise nothing happens. */
    method HandleSubmit(isLoading: bool) returns (submitted: bool)
      modifies this
      ensures submitted == CanSubmit(old(input), isLoading)
      ensures submitted ==> sent == old(sent) + [old(input)] && input == ""
      ensures !submitted ==> sent == old(sent) && input == old(input)
    {
      submitted := Trim(input) != "" && !isLoading;
      if submitted {
        sent := sent + [input];
        input := "";
      }
    }

    /** `handleKeyDown`: Enter without Shift submits; any other key leaves the
        box and the sent list alone. */
    method HandleKeyDown(key: string, shiftKey: bool, isLoading: bool) returns (submitted: bool)
      modifies this
      ensures !IsSubmitKey(key, shiftKey) ==> !submitted && sent == old(sent) && input == old(input)
      ensures IsSubmitKey(key, shiftKey) ==> submitted == CanSubmit(old(input), isLoading)
      ensures submitted ==> sent == old(sent) + [old(input)] && input == ""
      ensures !submitted ==> sent == old(sent) && input == old(input)
    {
      submitted := false;
      if key == "Enter" && !shiftKey {
        submitted := HandleSubmit(isLoading);
      }
    }
  }
}

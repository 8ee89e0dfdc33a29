/** `ChatInput` (src/components/chat/ChatInput.tsx): one text field and a
    submit handler that sends the trimmed text and clears the field. */
module ChatInput {
  import opened Text

  /** The component with its one state hook, `message`. The `disabled` prop
      is passed to each handler; an absent prop is `false`. */
  class ChatInputBox {
    var message: string

    constructor ()
      ensures message == ""
    {
      message := "";
    }

    /** The send button is enabled when the field holds more than white
        space and the input is not disabled. */
    predicate SendEnabled(disabled: bool)
      reads this
    {
      !(Trim(message) == "" || disabled)
    }

    /** The text field's `onChange`. */
    method OnChange(value: string)
      modifies this
      ensures message == value
    {
      message := value;
    }

    /** `handleSubmit`: the text given to `onSend`, if it is called. It is
        called, once, exactly when the send button is enabled; it receives
        the trimmed text and the field is cleared. Otherwise the field is
        left as it was. */
    method HandleSubmit(disabled: bool) returns (sent: Option<string>)
      modifies this
      ensures sent.Some? <==> old(SendEnabled(disabled))
      ensures sent.Some? ==> sent.value == Trim(old(message)) && message == ""
      ensures sent.None? ==> message == old(message)
      ensures sent.Some? ==> sent.value != "" && Trim(sent.value) == sent.value
    {
      sent := None;
      var trimmed := Trim(message);
      if trimmed != "" && !disabled {
        sent := Some(trimmed);
        message := "";
        TrimIdempotent(old(message));
      }
    }
  }
}

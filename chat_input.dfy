/**
 * The chat input box: a text field whose value is sent, trimmed, on the send
 * button or on Enter without Shift, and then cleared.
 */
module ChatInput {
  import opened JsText

  class ChatInputBox {
    /** The text-area's `inputValue` state. */
    var inputValue: string
    /** Every message handed to `onSendMessage`, in order. */
    var sent: seq<string>

    /** Only trimmed, non-empty text is ever sent. */
    ghost predicate Valid()
      reads this
    {
      forall k :: 0 <= k < |sent| ==> sent[k] != "" && Trim(sent[k]) == sent[k]
    }

    constructor ()
      ensures Valid() && inputValue == "" && sent == []
    {
      inputValue := "";
      sent := [];
    }

    /** `onChange`: the field holds whatever was typed. */
    method OnChange(value: string)
      requires Valid()
      modifies this
      ensures Valid() && inputValue == value && sent == old(sent)
    {
      inputValue := value;
    }

    /** The send button is disabled exactly while the field is blank. */
    function SendDisabled(): (r: bool)
      reads this
      ensures r <==> IsBlank(inputValue)
    {
      TrimEmptyIffBlank(inputValue);
      Trim(inputValue) == ""
    }

    /** `handleSend`: a non-blank field sends its trimmed text and is cleared; a blank one is left alone. */
    method HandleSend()
      requires Valid()
      modifies this
      ensures Valid()
      ensures IsBlank(old(inputValue)) ==> inputValue == old(inputValue) && sent == old(sent)
      ensures !IsBlank(old(inputValue)) ==> inputValue == "" && sent == old(sent) + [Trim(old(inputValue))]
    {
      TrimEmptyIffBlank(inputValue);
      var trimmedMessage := Trim(inputValue);
      if trimmedMessage != "" {
        TrimIdempotent(inputValue);
        sent := sent + [trimmedMessage];
        inputValue := "";
      }
    }

    /** `handleKeyDown`: Enter without Shift sends (and suppresses the newline); anything else does nothing here. */
    method HandleKeyDown(key: string, shiftKey: bool) returns (preventDefault: bool)
      requires Valid()
      modifies this
      ensures Valid()
      ensures preventDefault <==> key == "Enter" && !shiftKey
      ensures !preventDefault ==> inputValue == old(inputValue) && sent == old(sent)
      ensures preventDefault && !IsBlank(old(inputValue)) ==>
                inputValue == "" && sent == old(sent) + [Trim(old(inputValue))]
      ensures preventDefault && IsBlank(old(inputValue)) ==> inputValue == old(inputValue) && sent == old(sent)
    {
      preventDefault := key == "Enter" && !shiftKey;
      if preventDefault {
        HandleSend();
      }
    }
  }
}

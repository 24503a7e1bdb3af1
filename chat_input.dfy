/** src/components/chat/ChatInput.tsx: the text box under the conversation.
    Sending hands the trimmed text to the `onSend` callback once and empties
    the box; Enter without Shift sends. The callback's effect belongs to the
    caller, so a send here returns the text it was called with. */
module ChatInput {
  import opened Wrappers
  import opened Text

  /** The send guard `!input.trim() || disabled`. */
  predicate SendRejected(input: string, disabled: bool) {
    Trim(input) == [] || disabled
  }

  /** The Send button's `disabled` attribute, written out separately in the
      component with the same expression. */
  predicate ButtonDisabled(input: string, disabled: bool) {
    !(|Trim(input)| > 0) || disabled
  }

  /** `e.key === 'Enter' && !e.shiftKey`. */
  predicate SendsOnKey(key: string, shiftKey: bool) {
    key == "Enter" && !shiftKey
  }

  class InputBox {
    /** The controlled textarea's value. */
    var input: string

    constructor ()
      ensures input == ""
    {
      input := "";
    }

    /** `onChange`: the box holds what was typed. */
    method Change(value: string)
      modifies this
      ensures input == value
    {
      input := value;
    }

    /** `handleSendMessage`: `sent` is the argument `onSend` was called with,
        or `None` when it was not called. */
    method SendMessage(disabled: bool) returns (sent: Option<string>)
      modifies this
      ensures SendRejected(old(input), disabled) ==> sent == None && input == old(input)
      ensures !SendRejected(old(input), disabled) ==> sent == Some(Trim(old(input))) && input == ""
      ensures sent == None <==> ButtonDisabled(old(input), disabled)
    {
      if Trim(input) == [] || disabled {
        return None;
      }
      sent := Some(Trim(input));
      input := "";
    }

    /** `handleKeyPress`: a plain Enter is swallowed and sends; any other key
        does nothing. */
    method KeyPress(key: string, shiftKey: bool, disabled: bool) returns (preventDefault: bool, sent: Option<string>)
      modifies this
      ensures preventDefault == SendsOnKey(key, shiftKey)
      ensures !SendsOnKey(key, shiftKey) || SendRejected(old(input), disabled) ==> sent == None && input == old(input)
      ensures SendsOnKey(key, shiftKey) && !SendRejected(old(input), disabled) ==>
        sent == Some(Trim(old(input))) && input == ""
    {
      preventDefault, sent := false, None;
      if key == "Enter" && !shiftKey {
        preventDefault := true;
        sent := SendMessage(disabled);
      }
    }
  }
}

/** The input box's guarantees, and how its output meets the side panel. */
module ChatInputProofs {
  import opened Text
  import opened ChatInput
  import ChatWindow

  /** The button is disabled exactly when a send would be refused, which is
      when the box is disabled or holds nothing but whitespace. */
  lemma ButtonMatchesGuard(input: string, disabled: bool)
    ensures ButtonDisabled(input, disabled) <==> SendRejected(input, disabled)
    ensures SendRejected(input, disabled) <==> disabled || AllSpace(input)
  {
    TrimDrops(input);
  }

  /** Trimming an already trimmed text changes nothing. */
  lemma TrimTrimmed(s: string)
    ensures Trim(Trim(s)) == Trim(s)
  {
    var t := Trim(s);
    TrimDrops(s);
    if t != [] {
      assert TrimStart(t) == t;
      assert TrimEnd(t) == t;
    }
  }

  /** What the box sends is non-empty and has no whitespace at either end. */
  lemma SentTextIsTrimmed(input: string, disabled: bool)
    requires !SendRejected(input, disabled)
    ensures var t := Trim(input);
      t != [] && !IsSpace(t[0]) && !IsSpace(t[|t| - 1]) && Trim(t) == t
  {
    TrimDrops(input);
    TrimTrimmed(input);
  }

  /** Text the box accepts is accepted by the side panel when no reply is
      being generated, and becomes the user message unchanged. */
  lemma SentTextReachesWindow(input: string, disabled: bool, at: int)
    requires !SendRejected(input, disabled)
    ensures !ChatWindow.SendRejected(Trim(input), false)
    ensures ChatWindow.UserMessage(Trim(Trim(input)), at).text == Trim(input)
  {
    TrimTrimmed(input);
  }
}

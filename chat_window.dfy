/** The conversation pane's composer (components/ChatWindow.tsx): when the
    draft is sent, what is sent, and when the send button is enabled. */
module ChatWindow {
  import opened Types
  import opened Strings

  /** `inputText.trim()` is non-empty. */
  predicate CanSend(inputText: string) {
    !IsBlank(inputText)
  }

  /** `handleSend`: the draft after the press and the text handed to
      `onSendMessage`, if any. The text goes out as typed, surrounding
      whitespace included. */
  function SendDraft(inputText: string): (r: (string, Option<string>))
    ensures r.1.Some? <==> CanSend(inputText)
    ensures r.1.Some? ==> r.1.value == inputText && r.0 == ""
    ensures r.1.None? ==> r.0 == inputText
  {
    if CanSend(inputText) then ("", Some(inputText)) else (inputText, None)
  }

  /** `handleKeyPress`: only Enter without Shift sends. */
  predicate SendsOnKey(key: string, shiftKey: bool) {
    key == "Enter" && !shiftKey
  }

  /** The send button is disabled exactly when pressing it would send nothing. */
  predicate SendDisabled(inputText: string) {
    !CanSend(inputText)
  }

  /** What goes out is never blank, and sending clears the draft so an
      immediate second press sends nothing. */
  lemma SendOnce(inputText: string)
    ensures SendDraft(inputText).1.Some? ==> !IsBlank(SendDraft(inputText).1.value)
    ensures SendDraft(SendDraft(inputText).0).1.Some? ==> SendDraft(inputText).1.None?
    ensures SendDisabled(inputText) <==> SendDraft(inputText).1.None?
  {
    assert IsBlank("") by {
      BlankIffAllWhitespace("");
    }
  }

  /** A draft with surrounding spaces is sent with them. */
  lemma SentUntrimmed()
    ensures SendDraft(" hi ") == ("", Some(" hi "))
  {
    NotBlankAt(" hi ", 1);
  }

  /** Whitespace alone is not sent and stays in the box. */
  lemma WhitespaceNotSent(inputText: string)
    requires AllWhitespace(inputText)
    ensures SendDraft(inputText) == (inputText, None)
  {
    BlankIffAllWhitespace(inputText);
  }

  /** The composer's draft. */
  class Composer {
    var inputText: string

    constructor ()
      ensures inputText == ""
    {
      inputText := "";
    }

    /** The input's `onChange`. */
    method Type(text: string)
      modifies this
      ensures inputText == text
    {
      inputText := text;
    }

    /** `handleSend`: returns the text handed to `onSendMessage`, if any. */
    method Send() returns (sent: Option<string>)
      modifies this
      ensures (inputText, sent) == SendDraft(old(inputText))
    {
      sent := None;
      if CanSend(inputText) {
        sent := Some(inputText);
        inputText := "";
      }
    }

    /** `handleKeyPress`: Enter without Shift behaves as the send button (and
        suppresses the newline); any other key leaves the draft alone here. */
    method KeyDown(key: string, shiftKey: bool) returns (sent: Option<string>, prevented: bool)
      modifies this
      ensures prevented <==> SendsOnKey(key, shiftKey)
      ensures prevented ==> (inputText, sent) == SendDraft(old(inputText))
      ensures !prevented ==> sent.None? && inputText == old(inputText)
    {
      prevented := SendsOnKey(key, shiftKey);
      sent := None;
      if prevented {
        sent := Send();
      }
    }
  }
}

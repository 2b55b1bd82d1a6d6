/**
 * The chat input bar: where it is placed, and the form submit that hands
 * the trimmed text to its handler and always clears the box.
 */
module ChatInputBar {
  import opened Wrappers
  import opened Text

  datatype Position = Fixed | Sticky | Absolute | Inline

  /** `position ?? (isMobile ? 'sticky' : 'fixed')` */
  function ResolvedPosition(position: Option<Position>, isMobile: bool): (p: Position)
    ensures position.Some? ==> p == position.value
    ensures position.None? ==> (p == Sticky <==> isMobile) && (p == Fixed <==> !isMobile)
  {
    match position
    case Some(q) => q
    case None => if isMobile then Sticky else Fixed
  }

  /** The text box of the form; its value is the DOM input's. */
  class InputBox {
    var value: string

    constructor()
      ensures value == ""
    {
      value := "";
    }

    /** Typing replaces the box's text. */
    method Type(text: string)
      modifies this
      ensures value == text
    {
      value := text;
    }

    /** The form's `onSubmit`: the trimmed text goes to the handler when it is non-blank and a handler is given; the box is cleared either way. */
    method Submit(hasHandler: bool) returns (sent: Option<string>)
      modifies this
      ensures sent.Some? <==> hasHandler && !IsBlank(old(value))
      ensures sent.Some? ==> sent.value == Trim(old(value)) && sent.value != ""
      ensures sent.Some? ==> !IsSpace(sent.value[0]) && !IsSpace(sent.value[|sent.value| - 1])
      ensures value == ""
    {
      var trimmed := Trim(value);
      sent := if trimmed != "" && hasHandler then Some(trimmed) else None;
      value := "";
    }
  }

  /** Whatever is sent is already trimmed, so a receiver that trims again sees it unchanged. */
  method SentIsTrimmed(text: string) returns (sent: Option<string>)
    ensures sent.Some? ==> Trim(sent.value) == sent.value
    ensures sent.Some? <==> !IsBlank(text)
  {
    var box := new InputBox();
    box.Type(text);
    sent := box.Submit(true);
    if sent.Some? {
      TrimTwice(text);
    }
  }

  /** A blank submit sends nothing yet still clears the box. */
  method BlankSubmitClears() returns (sent: Option<string>, after: string)
    ensures sent == None && after == ""
  {
    var box := new InputBox();
    box.Type("   ");
    sent := box.Submit(true);
    after := box.value;
  }
}

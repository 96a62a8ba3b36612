/** `component.TextComponent` (`cui/component/text.go`) as the `Text` sink: the state bar
    and the description box keep the last message they were given and how it is shown. */
module Texts {
  import opened Base

  /** The text on display and its style: plain, informative, or a warning carrying the
      error whose text it shows. */
  datatype Message = NoText | PlainText(text: string) | InfoText(text: string) | Warning(err: Error)

  class Text {
    var message: Message

    /** `NewTextComponent`: nothing shown yet. */
    constructor ()
      ensures message == NoText
    {
      message := NoText;
    }

    /** `Plain`. */
    method Plain(s: string)
      modifies this
      ensures message == PlainText(s)
    {
      message := PlainText(s);
    }

    /** `Info`. */
    method Info(s: string)
      modifies this
      ensures message == InfoText(s)
    {
      message := InfoText(s);
    }

    /** `Warn`. */
    method Warn(e: Error)
      modifies this
      ensures message == Warning(e)
    {
      message := Warning(e);
    }
  }
}

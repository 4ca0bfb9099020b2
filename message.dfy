/** Formatter::Message: the text the formatter rendered, together with the icon the chat
    message is posted with. */
module FormatterMessage {
  import opened Wrappers
  import opened Text

  /** value.presence.try(&:strip): nil for nil or a blank value, the stripped value otherwise. */
  function NormalizeIcon(value: Option<string>): (r: Option<string>)
    ensures r.None? <==> value.None? || Blank(value.value)
    ensures r.Some? ==> Trimmed(r.value) && r.value == Strip(value.value)
  {
    match Presence(ToS(value))
    case None => None
    case Some(v) => Some(Strip(v))
  }

  /** Normalising an icon a second time changes nothing. */
  lemma NormalizeIconIdempotent(value: Option<string>)
    ensures NormalizeIcon(NormalizeIcon(value)) == NormalizeIcon(value)
  {
    var once := NormalizeIcon(value);
    if once.Some? {
      assert !Blank(once.value) by { assert !IsSpace(once.value[0]); }
    }
  }

  class Message {
    /** A Message is a String: it is the text it was built from. */
    const text: string
    var iconEmoji: Option<string>

    constructor (text: string, iconEmoji: Option<string>)
      ensures this.text == text
      ensures this.iconEmoji == NormalizeIcon(iconEmoji)
    {
      this.text := text;
      new;
      SetIconEmoji(iconEmoji);
    }

    method SetIconEmoji(value: Option<string>)
      modifies this
      ensures iconEmoji == NormalizeIcon(value)
    {
      iconEmoji := NormalizeIcon(value);
    }
  }
}

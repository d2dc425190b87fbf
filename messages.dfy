/**
 * The panel message (`IMessage`), the canonical empty message, and how the
 * coordinator builds a message from the selected text (the value built in
 * `_sendMessageToWebView`).
 */
module Messages {
  import opened Wrappers
  import opened EditorHost
  import opened Jmbg
  import opened ErrorMessages
  import opened SelectedText

  /** The decoded fields in their display order; `None` is JSON `null`. */
  datatype Fields = Fields(
    day: Option<int>, month: Option<int>, year: Option<int>,
    place: Option<string>, region: Option<string>, gender: Option<string>)

  /** `IMessage`: what the panel shows. */
  datatype Message = Message(text: Option<string>, valid: bool, reason: Option<string>, decoded: Fields)

  /** `emptyDecoded`: every field null. */
  function EmptyDecoded(): Fields {
    Fields(None, None, None, None, None, None)
  }

  /** `emptyMessage`: no text, not valid, no reason, every decoded field null. */
  function EmptyMessage(): Message {
    Message(None, false, None, EmptyDecoded())
  }

  predicate AllNull(f: Fields) {
    f.day.None? && f.month.None? && f.year.None? && f.place.None? && f.region.None? && f.gender.None?
  }

  /** Every field the decoder always sets is present; only `place` may be null. */
  predicate Complete(f: Fields) {
    f.day.Some? && f.month.Some? && f.year.Some? && f.region.Some? && f.gender.Some?
  }

  /** The shape every message the coordinator builds has. */
  ghost predicate WellFormed(m: Message) {
    && (m.text.None? ==> m == EmptyMessage())
    && (m.text.Some? ==> m.text.value != "")
    && (m.text.Some? ==> (m.valid <==> m.reason.None?))
    && (!m.valid ==> AllNull(m.decoded))
    && (m.valid ==> Complete(m.decoded))
  }

  /**
   * The empty message is well formed, and a message is the empty one exactly
   * when its text and reason are null, it is not valid and every decoded
   * field is null.
   */
  lemma EmptyMessageIsCanonical(m: Message)
    ensures WellFormed(EmptyMessage())
    ensures m == EmptyMessage() <==> m.text.None? && !m.valid && m.reason.None? && AllNull(m.decoded)
  {
  }

  /**
   * `{...emptyDecoded, ...decoded, place: decoded.place || emptyDecoded.place}`:
   * the decoder's fields in the empty message's order, with a missing or empty
   * `place` (both falsy) replaced by null.
   */
  function MergeDecoded(p: PersonData): (f: Fields)
    ensures Complete(f)
    ensures f.day == Some(p.day) && f.month == Some(p.month) && f.year == Some(p.year)
    ensures f.region == Some(p.region) && f.gender == Some(p.gender)
    ensures f.place.Some? <==> p.place.Some? && p.place.value != ""
    ensures f.place.Some? ==> f.place == p.place
  {
    var place := if p.place.Some? && p.place.value != "" then p.place else None;
    Fields(Some(p.day), Some(p.month), Some(p.year), place, Some(p.region), Some(p.gender))
  }

  /**
   * The message for a selected text: the empty message for empty text;
   * otherwise the text with the oracle's verdict, the reason text when it is
   * invalid (decoding is not consulted then) and the merged decoding when it
   * is valid.
   */
  function ComposeMessage(oracle: Oracle, text: string): (m: Message)
    ensures WellFormed(m)
    ensures m.text.None? <==> text == ""
    ensures m.text.Some? ==> m.text.value == text
    ensures m.valid <==> text != "" && oracle.validate(text).Passed?
    ensures text != "" && oracle.validate(text).Failed? ==>
      m.reason == Some(ParseErrorMessage(oracle.validate(text).reason)) && m.decoded == EmptyDecoded()
    ensures m.valid ==> m.decoded == MergeDecoded(oracle.decode(text))
  {
    if text == "" then
      EmptyMessage()
    else
      match oracle.validate(text)
      case Failed(reason) => Message(Some(text), false, Some(ParseErrorMessage(reason)), EmptyDecoded())
      case Passed => Message(Some(text), true, None, MergeDecoded(oracle.decode(text)))
  }

  /** On invalid text the decoder is never reached: any two decoders give the same message. */
  lemma InvalidIgnoresDecoder(validate: string -> ValidationResult, d1: string -> PersonData, d2: string -> PersonData, text: string)
    requires validate(text).Failed?
    ensures ComposeMessage(Oracle(validate, d1), text) == ComposeMessage(Oracle(validate, d2), text)
    ensures ComposeMessage(Oracle(validate, d1), text).decoded == EmptyDecoded()
  {
  }

  /**
   * The message for the host's active editor. It is the empty message exactly
   * when there is no editor or its cursor is a bare cursor off any word.
   */
  function MessageFor(oracle: Oracle, editor: Option<Editor>): (m: Message)
    requires editor.Some? ==> EditorWellFormed(editor.value)
    ensures WellFormed(m)
    ensures m == EmptyMessage() <==>
      editor.None?
      || (editor.value.selection.anchor == editor.value.selection.active
          && editor.value.document.wordRangeAt(editor.value.selection.active).None?)
    ensures editor.Some? ==>
      m == ComposeMessage(oracle, GetSelectedText(editor.value.selection, editor.value.document).text)
  {
    if editor.None? then
      EmptyMessage()
    else
      var e := editor.value;
      ComposeMessage(oracle, GetSelectedText(e.selection, e.document).text)
  }
}

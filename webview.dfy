/**
 * The panel script (`media/js/main.js`), reduced to its rules: the summary of
 * the selected text, what a message renders as (including when the copy
 * and paste buttons are enabled), and the saved state it restores on load.
 */
module Webview {
  import opened Wrappers
  import opened Jmbg
  import opened SelectedText
  import opened Messages

  predicate IsLineBreak(c: char) {
    c == '\n' || c == '\r'
  }

  /**
   * `text.replace(/\r?\n|\r/g, ' ')`: every "\r\n", "\n" or "\r" becomes one
   * space, a "\r\n" pair counting as one break. No line break survives.
   */
  function NormalizeLineBreaks(s: string): (r: string)
    ensures forall i :: 0 <= i < |r| ==> !IsLineBreak(r[i])
    ensures |r| <= |s|
    decreases |s|
  {
    if s == [] then []
    else if |s| >= 2 && s[0] == '\r' && s[1] == '\n' then " " + NormalizeLineBreaks(s[2..])
    else if IsLineBreak(s[0]) then " " + NormalizeLineBreaks(s[1..])
    else [s[0]] + NormalizeLineBreaks(s[1..])
  }

  /** Text without line breaks is left as it is (so normalising twice changes nothing). */
  lemma {:induction false} NormalizeWithoutBreaks(s: string)
    requires forall i :: 0 <= i < |s| ==> !IsLineBreak(s[i])
    ensures NormalizeLineBreaks(s) == s
    decreases |s|
  {
    if s != [] {
      NormalizeWithoutBreaks(s[1..]);
    }
  }

  /**
   * Normalisation works piece by piece, as long as the cut does not split
   * a "\r\n" pair.
   */
  lemma {:induction false} NormalizeAppend(a: string, b: string)
    requires a == [] || a[|a| - 1] != '\r'
    ensures NormalizeLineBreaks(a + b) == NormalizeLineBreaks(a) + NormalizeLineBreaks(b)
    decreases |a|
  {
    if a == [] {
      assert a + b == b;
    } else if |a| >= 2 && a[0] == '\r' && a[1] == '\n' {
      assert (a + b)[2..] == a[2..] + b;
      NormalizeAppend(a[2..], b);
    } else if |a| == 1 {
      assert (a + b)[1..] == b;
      assert a[1..] == [];
    } else {
      assert (a + b)[1..] == a[1..] + b;
      NormalizeAppend(a[1..], b);
    }
  }

  /** A break at the head of the text becomes one space. */
  lemma NormalizeLeadingBreak(brk: string, b: string)
    requires brk == "\r\n" || brk == "\n" || brk == "\r"
    requires brk == "\r" ==> b == [] || b[0] != '\n'
    ensures NormalizeLineBreaks(brk + b) == " " + NormalizeLineBreaks(b)
  {
    var s := brk + b;
    if brk == "\r\n" {
      assert s[0] == '\r' && s[1] == '\n' && s[2..] == b;
    } else {
      assert IsLineBreak(s[0]) && s[1..] == b;
      assert !(|s| >= 2 && s[0] == '\r' && s[1] == '\n');
    }
  }

  /** Each kind of break, between text that does not extend it, gives exactly one space. */
  lemma {:induction false} NormalizeOneBreak(a: string, brk: string, b: string)
    requires brk == "\r\n" || brk == "\n" || brk == "\r"
    requires a == [] || a[|a| - 1] != '\r'
    requires brk == "\r" ==> b == [] || b[0] != '\n'
    ensures NormalizeLineBreaks(a + brk + b) == NormalizeLineBreaks(a) + " " + NormalizeLineBreaks(b)
  {
    assert a + brk + b == a + (brk + b);
    NormalizeAppend(a, brk + b);
    NormalizeLeadingBreak(brk, b);
  }

  /**
   * `getTextSummary`: "" for null or empty text; otherwise the normalised
   * text when it has at most 13 characters, else its first 13 followed by
   * "...". A summary has no line break and at most 16 characters.
   */
  function GetTextSummary(text: Option<string>): (summary: string)
    ensures text.None? || text.value == "" ==> summary == ""
    ensures forall i :: 0 <= i < |summary| ==> !IsLineBreak(summary[i])
    ensures |summary| <= 16
    ensures text.Some? && |NormalizeLineBreaks(text.value)| <= 13 ==>
      summary == NormalizeLineBreaks(text.value)
    ensures text.Some? && |NormalizeLineBreaks(text.value)| > 13 ==>
      summary == NormalizeLineBreaks(text.value)[..13] + "..."
  {
    if text.None? || text.value == "" then ""
    else
      var processed := NormalizeLineBreaks(text.value);
      if |processed| > 13 then processed[..13] + "..." else processed
  }

  /** What `setAndHighlightElement` shows for a message. */
  datatype View = View(
    selectedText: string,
    validationText: Option<string>,
    shownAsValid: bool,
    code: Fields,
    copyDisabled: bool,
    pasteDisabled: bool)

  /** `setAndHighlightElement`: both buttons are disabled exactly when the message is not valid. */
  function Render(m: Message): (v: View)
    ensures v.copyDisabled <==> !m.valid
    ensures v.pasteDisabled <==> !m.valid
    ensures v.shownAsValid == m.valid && v.validationText == m.reason && v.code == m.decoded
    ensures v.selectedText == GetTextSummary(m.text)
  {
    View(GetTextSummary(m.text), m.reason, m.valid, m.decoded, !m.valid, !m.valid)
  }

  /**
   * For a message the coordinator built from some text, pasting is offered
   * exactly when that text is non-empty and the oracle accepts it, and the
   * reason shown is that of the oracle's verdict otherwise.
   */
  lemma PasteOfferedOnlyForValidText(oracle: Oracle, text: string)
    ensures !Render(ComposeMessage(oracle, text)).pasteDisabled <==>
      text != "" && oracle.validate(text).Passed?
    ensures text == "" ==> Render(ComposeMessage(oracle, text)) == Render(EmptyMessage())
    ensures Render(EmptyMessage()).selectedText == "" && Render(EmptyMessage()).pasteDisabled
  {
  }

  /**
   * The panel page: the state saved through `vscode.setState` and what is
   * currently shown.
   */
  class Panel {
    var savedState: Option<Message>
    var view: View

    /** Loading the page renders the saved state, or the empty message when there is none. */
    constructor (oldState: Option<Message>)
      ensures savedState == oldState
      ensures view == Render(oldState.GetOr(EmptyMessage()))
      ensures oldState.None? ==> view.pasteDisabled && view.copyDisabled && view.selectedText == ""
    {
      savedState := oldState;
      view := Render(oldState.GetOr(EmptyMessage()));
    }

    /** The `message` listener: save the message as state, then render it. */
    method Receive(m: Message)
      modifies this
      ensures savedState == Some(m)
      ensures view == Render(m)
    {
      savedState := Some(m);
      view := Render(m);
    }
  }
}

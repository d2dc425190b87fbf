/**
 * The two editor commands: `validateCommand`, an early-return chain ending
 * in exactly one notification, and `generateRandomCommand`, which replaces
 * every selection with a freshly generated identifier.
 */
module Commands {
  import opened Wrappers
  import opened EditorHost
  import opened Jmbg
  import opened ErrorMessages
  import opened SelectedText
  import opened Messages

  /** The one notification a command shows: a warning, an information or an error message. */
  datatype Notification = Warning(text: string) | Information(text: string) | ErrorMessage(text: string)

  /**
   * `validateCommand`: a warning and no validation without an editor or
   * with several selections; otherwise "<text> Valid!" or
   * "<text> Invalid! <reason>" according to the oracle.
   */
  function ValidateCommand(oracle: Oracle, editor: Option<Editor>): (n: Notification)
    requires editor.Some? ==> EditorWellFormed(editor.value)
    ensures editor.None? ==> n == Warning("Please select text in editor")
    ensures editor.Some? && |editor.value.Selections()| > 1 ==> n == Warning("Please use single selection")
    ensures n.Warning? <==> editor.None? || |editor.value.Selections()| > 1
    ensures !n.Warning? ==>
      var text := GetSelectedText(editor.value.selection, editor.value.document).text;
      && (n.Information? <==> oracle.validate(text).Passed?)
      && (n.Information? ==> n.text == text + " Valid!")
      && (n.ErrorMessage? ==> n.text == text + " Invalid! " + ParseErrorMessage(oracle.validate(text).reason))
  {
    if editor.None? then
      Warning("Please select text in editor")
    else if |editor.value.otherSelections| > 0 then
      Warning("Please use single selection")
    else
      var text := GetSelectedText(editor.value.selection, editor.value.document).text;
      match oracle.validate(text)
      case Passed => Information(text + " Valid!")
      case Failed(reason) => ErrorMessage(text + " Invalid! " + ParseErrorMessage(reason))
  }

  /**
   * The command and the panel agree: for a single selection whose text is
   * non-empty, the command reports valid exactly when the panel's message is
   * valid, and an invalid report carries the panel's reason.
   */
  lemma ValidateCommandAgreesWithPanel(oracle: Oracle, e: Editor)
    requires EditorWellFormed(e) && e.otherSelections == []
    requires GetSelectedText(e.selection, e.document).text != ""
    ensures var n := ValidateCommand(oracle, Some(e));
      var m := MessageFor(oracle, Some(e));
      && (n.Information? <==> m.valid)
      && (n.ErrorMessage? ==> m.reason.Some? && n.text == m.text.value + " Invalid! " + m.reason.value)
      && (n.Information? ==> n.text == m.text.value + " Valid!")
  {
  }

  /** `editBuilder.replace(range, text)`. */
  datatype Replacement = Replacement(range: Range, text: string)

  /**
   * `generateRandomCommand`: without an editor only a warning; otherwise one
   * replacement per selection, in order, the i-th with the i-th generated
   * identifier (`generate` stands for the successive results of
   * `generateRandomJMBG`).
   */
  method GenerateRandomCommand(editor: Option<Editor>, generate: nat -> string)
    returns (warning: Option<Notification>, edits: seq<Replacement>)
    ensures editor.None? ==> warning == Some(Warning("Please open editor")) && edits == []
    ensures editor.Some? ==>
      && warning.None?
      && |edits| == |editor.value.Selections()|
      && forall i :: 0 <= i < |edits| ==>
           edits[i] == Replacement(AsRange(editor.value.Selections()[i]), generate(i))
  {
    if editor.None? {
      return Some(Warning("Please open editor")), [];
    }
    var selections := editor.value.Selections();
    warning := None;
    edits := [];
    for i := 0 to |selections|
      invariant |edits| == i
      invariant forall k :: 0 <= k < i ==> edits[k] == Replacement(AsRange(selections[k]), generate(k))
    {
      edits := edits + [Replacement(AsRange(selections[i]), generate(i))];
    }
  }
}

/**
 * `isRangeSimplyCursorPosition` and `getSelectedText`: which text of the
 * active editor the extension looks at, and which span it marks.
 */
module SelectedText {
  import opened Wrappers
  import opened EditorHost

  /** True when a range is a bare cursor: both ends on the same line and character. */
  function IsRangeSimplyCursorPosition(range: Range): (cursor: bool)
    ensures cursor <==> range.start == range.end
    ensures range.start.line != range.end.line ==> !cursor
    ensures range.start.line == range.end.line && range.start.character != range.end.character ==> !cursor
  {
    range.start.line == range.end.line && range.start.character == range.end.character
  }

  /** The answer depends only on the two ends: a selection is a cursor exactly when anchor and active coincide. */
  lemma CursorIffAnchorIsActive(s: Selection)
    ensures IsRangeSimplyCursorPosition(AsRange(s)) <==> s.anchor == s.active
  {
    assert {AsRange(s).start, AsRange(s).end} == {s.anchor, s.active};
  }

  datatype Extracted = Extracted(text: string, range: Range)

  /** The range `getSelectedText` settles on: the selection, or the word under a bare cursor. */
  function ChosenRange(selection: Selection, document: Document): Range {
    var range := AsRange(selection);
    if IsRangeSimplyCursorPosition(range) && document.wordRangeAt(selection.active).Some? then
      document.wordRangeAt(selection.active).value
    else
      range
  }

  /**
   * A selection is used as it is; a bare cursor is widened to the word the
   * host finds at it, and stays an empty range where there is none. The
   * text is that of the chosen range, and it is empty exactly when the
   * selection is a cursor off any word.
   */
  function GetSelectedText(selection: Selection, document: Document): (x: Extracted)
    requires WordRangesWellFormed(document)
    requires ValidPosition(document, selection.anchor) && ValidPosition(document, selection.active)
    ensures ValidRange(document, x.range)
    ensures Contains(x.range, selection.anchor) && Contains(x.range, selection.active)
    ensures !IsRangeSimplyCursorPosition(AsRange(selection)) ==>
      x.range == Range(Start(selection), End(selection))
    ensures IsRangeSimplyCursorPosition(AsRange(selection)) ==>
      x.range == document.wordRangeAt(selection.active).GetOr(Range(selection.active, selection.active))
    ensures x.text == GetText(document, x.range)
    ensures x.text == [] <==>
      selection.anchor == selection.active && document.wordRangeAt(selection.active).None?
  {
    var range := ChosenRange(selection, document);
    CursorIffAnchorIsActive(selection);
    Extracted(GetText(document, range), range)
  }

  /**
   * Whichever branch is taken, the chosen range covers the whole selection,
   * and it is wider than the selection only for a bare cursor on a word.
   */
  lemma ChosenRangeCoversSelection(selection: Selection, document: Document)
    requires WordRangesWellFormed(document)
    requires ValidPosition(document, selection.anchor) && ValidPosition(document, selection.active)
    ensures var r := GetSelectedText(selection, document).range;
      && Contains(r, Start(selection)) && Contains(r, End(selection))
      && (r != AsRange(selection) ==>
            selection.anchor == selection.active && document.wordRangeAt(selection.active) == Some(r))
  {
    CursorIffAnchorIsActive(selection);
  }
}

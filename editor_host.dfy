/**
 * The part of the editor host that the extension reads: positions, ranges,
 * selections, documents and the editors that show them. Host calls the
 * extension cannot see (word boundaries) are fields of function type,
 * constrained by well-formedness predicates.
 */
module EditorHost {
  import opened Wrappers

  /** A zero-based line and character offset in a document. */
  datatype Position = Position(line: nat, character: nat)

  /** A span from `start` to `end`. */
  datatype Range = Range(start: Position, end: Position)

  /** A selection: `anchor` is where it began, `active` is where the cursor is. */
  datatype Selection = Selection(anchor: Position, active: Position)

  /** Document order on positions. */
  predicate Le(p: Position, q: Position) {
    p.line < q.line || (p.line == q.line && p.character <= q.character)
  }

  /** The earlier of a selection's two ends. */
  function Start(s: Selection): Position {
    if Le(s.anchor, s.active) then s.anchor else s.active
  }

  /** The later of a selection's two ends. */
  function End(s: Selection): Position {
    if Le(s.anchor, s.active) then s.active else s.anchor
  }

  /** A selection seen as a range, as the host's `Selection` (a subclass of `Range`) is. */
  function AsRange(s: Selection): (r: Range)
    ensures Le(r.start, r.end)
    ensures {r.start, r.end} == {s.anchor, s.active}
  {
    Range(Start(s), End(s))
  }

  predicate Contains(r: Range, p: Position) {
    Le(r.start, p) && Le(p, r.end)
  }

  /**
   * A text document: its lines (without line terminators) and the host's
   * word lookup, `getWordRangeAtPosition`, which the extension cannot see.
   */
  datatype Document = Document(lines: seq<string>, wordRangeAt: Position -> Option<Range>)

  predicate ValidPosition(d: Document, p: Position) {
    p.line < |d.lines| && p.character <= |d.lines[p.line]|
  }

  predicate ValidRange(d: Document, r: Range) {
    ValidPosition(d, r.start) && ValidPosition(d, r.end) && Le(r.start, r.end)
  }

  /** What the host promises of a word range found at `p`: a non-empty span of one line around `p`. */
  predicate IsWordRangeAt(d: Document, p: Position, r: Range) {
    && ValidRange(d, r)
    && r.start.line == r.end.line
    && r.start.character < r.end.character
    && Contains(r, p)
  }

  ghost predicate WordRangesWellFormed(d: Document) {
    forall p :: d.wordRangeAt(p).Some? ==> IsWordRangeAt(d, p, d.wordRangeAt(p).value)
  }

  /**
   * The host's `getText(range)`: the characters between the two ends, lines
   * joined by "\n". The text is empty exactly when the range is.
   */
  function GetText(d: Document, r: Range): (t: string)
    requires ValidRange(d, r)
    ensures t == [] <==> r.start == r.end
    decreases r.end.line - r.start.line
  {
    if r.start.line == r.end.line then
      d.lines[r.start.line][r.start.character..r.end.character]
    else
      d.lines[r.start.line][r.start.character..] + "\n"
        + GetText(d, Range(Position(r.start.line + 1, 0), r.end))
  }

  /** Editors are compared by identity (`===` in the source); the id stands for it. */
  type EditorId = nat

  /**
   * A text editor: its document, its primary selection and any further
   * selections (the host's `selections` is `[selection] + otherSelections`).
   */
  datatype Editor = Editor(id: EditorId, document: Document, selection: Selection, otherSelections: seq<Selection>) {
    function Selections(): (s: seq<Selection>)
      ensures |s| >= 1 && s[0] == selection
    {
      [selection] + otherSelections
    }
  }

  ghost predicate EditorWellFormed(e: Editor) {
    && WordRangesWellFormed(e.document)
    && ValidPosition(e.document, e.selection.anchor)
    && ValidPosition(e.document, e.selection.active)
  }

  /** The host window: the active editor, if any, and the editors on screen. */
  datatype Host = Host(activeEditor: Option<Editor>, visibleEditors: seq<EditorId>)

  ghost predicate HostWellFormed(h: Host) {
    h.activeEditor.Some? ==> EditorWellFormed(h.activeEditor.value)
  }
}

/**
 * Event sequences run against the coordinator, proved from the handlers'
 * contracts alone: a paste that ignores the document change it raises, a
 * second paste request before the first settles, and the active-editor
 * handler after all editors were closed, as written and with a null check.
 */
module Scenarios {
  import opened Wrappers
  import opened EditorHost
  import opened Jmbg
  import opened SelectedText
  import opened Messages
  import opened Coordinator

  /**
   * Show the panel on editor `e`, paste, let the host report the document
   * change the insert raises (delivered through the still-live text-document
   * subscription; the selection subscription is gone) while the paste is in
   * progress, ask for a second paste, then settle. The message stays the one computed for `e`
   * throughout, the second request throws without touching the pending
   * paste, and settling restores the selection subscription and the cursor.
   */
  method PasteIgnoresItsOwnDocumentChange(oracle: Oracle, stringify: Fields -> string, e: Editor)
    returns (shown: Message, duringPaste: Message, secondPasteOk: bool, listening: bool, returnedTo: Effect)
    requires EditorWellFormed(e)
    ensures shown == MessageFor(oracle, Some(e))
    ensures duringPaste == shown
    ensures !secondPasteOk
    ensures listening
    ensures returnedTo == Selected(e.id, Selection(e.selection.active, e.selection.active))
  {
    var p := new ValidationSidebarProvider(oracle, stringify);
    var host := Host(Some(e), [e.id]);
    p.ResolveWebviewView(host);
    shown := p.message;

    assert p.selectionSubscription.Some? && p.decorationType.Some? && !p.pasteInProgress;
    var ok := p.SendToEditor(host);
    assert p.pasteInProgress && p.pendingSettle == Some(PendingPaste(e.id, e.selection.active));

    var at := LineEnd(e);
    var moved := e.(selection := Selection(at, at));
    p.EditorTextChanged(Host(Some(moved), [e.id]));
    duringPaste := p.message;
    assert duringPaste == shown && p.selectionSubscription.None?;

    secondPasteOk := p.SendToEditor(host);
    assert p.pendingSettle == Some(PendingPaste(e.id, e.selection.active));

    p.SettlePaste();
    listening := p.selectionSubscription.Some? && p.selectionSubscription.value in p.liveListeners
                 && !p.pasteInProgress;
    returnedTo := p.effects[|p.effects| - 1];
  }

  /**
   * Show the panel with no editor, let the user close everything (the
   * active editor becomes none), then open editor `e` whose cursor is on a
   * word or which has a selection. The handler as written throws at its
   * first line, because the decoration type is already null, and the panel
   * keeps the empty message instead of the message for `e`.
   */
  method ActiveEditorAfterNoEditor(oracle: Oracle, stringify: Fields -> string, e: Editor)
    returns (ok: bool, shown: Message, expected: Message)
    requires EditorWellFormed(e)
    requires e.selection.anchor != e.selection.active || e.document.wordRangeAt(e.selection.active).Some?
    ensures !ok
    ensures shown == EmptyMessage()
    ensures expected == MessageFor(oracle, Some(e)) && expected != shown
  {
    var p := new ValidationSidebarProvider(oracle, stringify);
    var none := Host(None, []);
    p.ResolveWebviewView(none);
    var closed := p.OnDidChangeActiveTextEditor(none);
    assert closed && p.decorationType.None?;
    ok := p.OnDidChangeActiveTextEditor(Host(Some(e), [e.id]));
    shown := p.message;
    expected := MessageFor(oracle, Some(e));
  }

  /** The same sequence with the null-checked handler: the panel follows `e`. */
  method ActiveEditorAfterNoEditorChecked(oracle: Oracle, stringify: Fields -> string, e: Editor)
    returns (shown: Message, decorated: bool)
    requires EditorWellFormed(e)
    ensures shown == MessageFor(oracle, Some(e))
    ensures decorated
  {
    var p := new ValidationSidebarProvider(oracle, stringify);
    var none := Host(None, []);
    p.ResolveWebviewView(none);
    p.OnDidChangeActiveTextEditorChecked(none);
    p.OnDidChangeActiveTextEditorChecked(Host(Some(e), [e.id]));
    shown := p.message;
    decorated := p.decorationType.Some? && p.lastEditor == Some(e.id);
  }

  /**
   * Hiding and showing the panel twice: the first hide disposes every
   * listener the show made; a second hide in a row throws, as no
   * subscription is held any more.
   */
  method HideShowHide(oracle: Oracle, stringify: Fields -> string, host: Host)
    returns (firstHide: bool, secondHide: bool, leftOver: set<Handle>, reshown: bool)
    requires HostWellFormed(host)
    ensures firstHide && !secondHide
    ensures leftOver == {}
    ensures reshown
  {
    var p := new ValidationSidebarProvider(oracle, stringify);
    p.ResolveWebviewView(host);
    firstHide := p.OnDidChangeVisibility(false, host);
    secondHide := p.OnDidChangeVisibility(false, host);
    leftOver := p.liveListeners + p.liveStyles;
    var shownOk := p.OnDidChangeVisibility(true, host);
    reshown := shownOk && p.liveListeners == p.Held() && p.message == MessageFor(oracle, host.activeEditor);
  }
}

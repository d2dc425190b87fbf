/**
 * `ValidationSidebarProvider`: the coordinator that keeps the panel message
 * and the editor decoration in step with the active editor's selection,
 * subscribes to host events while the panel is visible, and pastes the
 * decoded fields into the document.
 *
 * The host is a parameter of each handler (a snapshot of the window when the
 * handler runs). What the coordinator asks of the host (post a message, set
 * decorations, move the selection, insert text) is appended to `effects`.
 * Host resources it creates and disposes (decoration types, event
 * subscriptions) are named by handles; `liveStyles` and `liveListeners` are
 * the ones not yet disposed. A `dispose()` call on a null field throws in the
 * source; here the handler returns `ok == false` with the state it had
 * reached at that point.
 */
module Coordinator {
  import opened Wrappers
  import opened EditorHost
  import opened Jmbg
  import opened ErrorMessages
  import opened SelectedText
  import opened Messages

  /** A decoration type or an event subscription held from the host. */
  type Handle = nat

  /** A request the coordinator makes of the host, in the order it makes them. */
  datatype Effect =
    | Posted(message: Message)                                // webview.postMessage
    | Decorated(editor: EditorId, style: Handle, range: Range) // editor.setDecorations
    | Selected(editor: EditorId, selection: Selection)         // editor.selections = [...]
    | Inserted(editor: EditorId, at: Position, text: string)    // editBuilder.insert

  /** The rest of a paste, waiting for its timer: the editor and where its cursor was. */
  datatype PendingPaste = PendingPaste(editor: EditorId, returnPosition: Position)

  /**
   * The handles `dispose()` reaches when the fields are disposed in this
   * order and the first null one throws.
   */
  function DisposedBeforeThrow(handles: seq<Option<Handle>>): set<Handle>
  {
    if handles == [] || handles[0].None? then {}
    else {handles[0].value} + DisposedBeforeThrow(handles[1..])
  }

  /** One step of `DisposedBeforeThrow` from position `k` of the list. */
  lemma DisposedStep(hs: seq<Option<Handle>>, k: nat)
    requires k < |hs|
    ensures DisposedBeforeThrow(hs[k..]) ==
      if hs[k].None? then {} else {hs[k].value} + DisposedBeforeThrow(hs[k + 1..])
  {
    assert hs[k..][1..] == hs[k + 1..];
  }

  /** A handle, if any, that was given out before `n`. */
  predicate Below(o: Option<Handle>, n: nat) {
    o.None? || o.value < n
  }

  /** The position at the end of the active cursor's line, where a paste inserts. */
  function LineEnd(e: Editor): (p: Position)
    requires EditorWellFormed(e)
    ensures ValidPosition(e.document, p) && p.line == e.selection.active.line
    ensures Le(e.selection.active, p)
  {
    Position(e.selection.active.line, |e.document.lines[e.selection.active.line]|)
  }

  class ValidationSidebarProvider {
    /** `validateJMBG` and `decodeJMBG`. */
    const oracle: Oracle
    /** `JSON.stringify(_, null, 2)`. */
    const stringify: Fields -> string

    var message: Message
    var pasteInProgress: bool
    var decorationType: Option<Handle>
    var lastEditor: Option<EditorId>
    var lastDecorationRange: Option<Range>
    var selectionSubscription: Option<Handle>
    var activeEditorSubscription: Option<Handle>
    var configurationSubscription: Option<Handle>
    var textDocumentSubscription: Option<Handle>
    var messageReceivedSubscription: Option<Handle>

    /** The paste continuation scheduled after `wait(100)`, if any. */
    var pendingSettle: Option<PendingPaste>
    /** Decoration types created and not yet disposed. */
    var liveStyles: set<Handle>
    /** Subscriptions made and not yet disposed; the host calls each of them. */
    var liveListeners: set<Handle>
    /** Handles at or above this one have never been given out. */
    var nextHandle: Handle
    /** Every request made of the host so far. */
    var effects: seq<Effect>

    /** The subscription fields in the order `_disposeSubscribersAndDecoration` disposes them. */
    function Subscriptions(): seq<Option<Handle>>
      reads this
    {
      [selectionSubscription, activeEditorSubscription, configurationSubscription,
       messageReceivedSubscription, textDocumentSubscription]
    }

    function Held(): set<Handle>
      reads this
    {
      Elements(selectionSubscription) + Elements(activeEditorSubscription)
      + Elements(configurationSubscription) + Elements(messageReceivedSubscription)
      + Elements(textDocumentSubscription)
    }

    /** All five subscriptions are held. */
    ghost predicate Subscribed()
      reads this
    {
      && selectionSubscription.Some? && activeEditorSubscription.Some?
      && configurationSubscription.Some? && messageReceivedSubscription.Some?
      && textDocumentSubscription.Some?
    }

    /** No subscription and no decoration type is held. */
    ghost predicate Detached()
      reads this
    {
      && selectionSubscription.None? && activeEditorSubscription.None?
      && configurationSubscription.None? && messageReceivedSubscription.None?
      && textDocumentSubscription.None? && decorationType.None?
    }

    /**
     * The invariant every handler keeps, on its normal and on its throwing
     * path: a paste is in progress exactly while its continuation is
     * pending, and no decoration type exists meanwhile; the only live
     * decoration type is the one held (none is ever leaked); handles are
     * never reused; the last editor and the last range are recorded together;
     * the stored message has the shape of a message built from a selection.
     */
    ghost predicate Valid()
      reads this
    {
      && (pasteInProgress <==> pendingSettle.Some?)
      && (pasteInProgress ==> decorationType.None?)
      && liveStyles == Elements(decorationType)
      && Below(selectionSubscription, nextHandle) && Below(activeEditorSubscription, nextHandle)
      && Below(configurationSubscription, nextHandle) && Below(messageReceivedSubscription, nextHandle)
      && Below(textDocumentSubscription, nextHandle)
      && (forall h :: h in liveListeners ==> h < nextHandle)
      && (forall h :: h in liveStyles ==> h < nextHandle)
      && (lastEditor.Some? <==> lastDecorationRange.Some?)
      && WellFormed(message)
    }

    /** The provider as constructed: empty message, one decoration type from configuration, no subscriptions. */
    constructor (oracle: Oracle, stringify: Fields -> string)
      ensures Valid()
      ensures this.oracle == oracle && this.stringify == stringify
      ensures message == EmptyMessage() && !pasteInProgress && pendingSettle.None?
      ensures decorationType == Some(0) && liveStyles == {0} && nextHandle == 1
      ensures Held() == {} && liveListeners == {}
      ensures lastEditor.None? && lastDecorationRange.None? && effects == []
    {
      this.oracle := oracle;
      this.stringify := stringify;
      message := EmptyMessage();
      pasteInProgress := false;
      decorationType := Some(0);
      lastEditor := None;
      lastDecorationRange := None;
      selectionSubscription := None;
      activeEditorSubscription := None;
      configurationSubscription := None;
      textDocumentSubscription := None;
      messageReceivedSubscription := None;
      pendingSettle := None;
      liveStyles := {0};
      liveListeners := {};
      nextHandle := 1;
      effects := [];
    }

    /** A handle never given out before. */
    method NewHandle() returns (h: Handle)
      modifies this`nextHandle
      ensures h == old(nextHandle) && nextHandle == h + 1
    {
      h := nextHandle;
      nextHandle := nextHandle + 1;
    }

    /** `_setAndSendMessage`: store the message and post that same value. */
    method SetAndSendMessage(m: Message)
      requires Valid() && WellFormed(m)
      modifies this`message, this`effects
      ensures Valid()
      ensures message == m && effects == old(effects) + [Posted(m)]
    {
      message := m;
      effects := effects + [Posted(message)];
    }

    /** `_sendMessageToWebView`: recompute the message from the active editor and post it. */
    method SendMessageToWebView(host: Host)
      requires Valid() && HostWellFormed(host)
      modifies this`message, this`effects
      ensures Valid()
      ensures message == MessageFor(oracle, host.activeEditor)
      ensures effects == old(effects) + [Posted(message)]
    {
      if host.activeEditor.None? {
        SetAndSendMessage(EmptyMessage());
        return;
      }
      var editor := host.activeEditor.value;
      var text := GetSelectedText(editor.selection, editor.document).text;
      if text == "" {
        SetAndSendMessage(EmptyMessage());
        return;
      }
      var validation := oracle.validate(text);
      if validation.Failed? {
        SetAndSendMessage(Message(Some(text), false, Some(ParseErrorMessage(validation.reason)), EmptyDecoded()));
        return;
      }
      var decoded := oracle.decode(text);
      SetAndSendMessage(Message(Some(text), true, None, MergeDecoded(decoded)));
    }

    /**
     * `_setDecoration`: without an active editor nothing happens; otherwise a
     * decoration type is created if none is held, the chosen range is
     * decorated, and that editor and range are recorded as the last ones.
     */
    method SetDecoration(host: Host)
      requires Valid() && HostWellFormed(host) && !pasteInProgress
      modifies this`decorationType, this`liveStyles, this`nextHandle, this`effects,
               this`lastEditor, this`lastDecorationRange
      ensures Valid()
      ensures host.activeEditor.None? ==> unchanged(this)
      ensures host.activeEditor.Some? ==>
        var e := host.activeEditor.value;
        var range := GetSelectedText(e.selection, e.document).range;
        && decorationType.Some?
        && (old(decorationType).Some? ==> decorationType == old(decorationType) && nextHandle == old(nextHandle))
        && (old(decorationType).None? ==> decorationType == Some(old(nextHandle)) && nextHandle == old(nextHandle) + 1)
        && effects == old(effects) + [Decorated(e.id, decorationType.value, range)]
        && lastEditor == Some(e.id) && lastDecorationRange == Some(range)
    {
      if host.activeEditor.None? {
        return;
      }
      var editor := host.activeEditor.value;
      var range := GetSelectedText(editor.selection, editor.document).range;
      if decorationType.None? {
        var style := NewHandle();
        decorationType := Some(style);
        liveStyles := liveStyles + {style};
      }
      effects := effects + [Decorated(editor.id, decorationType.value, range)];
      lastEditor := Some(editor.id);
      lastDecorationRange := Some(range);
    }

    /**
     * `_editorTextChanged`: while a paste is in progress nothing changes at
     * all; otherwise the message is recomputed and posted, then the
     * decoration is set.
     */
    method EditorTextChanged(host: Host)
      requires Valid() && HostWellFormed(host)
      modifies this`message, this`decorationType, this`liveStyles, this`nextHandle, this`effects,
               this`lastEditor, this`lastDecorationRange
      ensures Valid()
      ensures old(pasteInProgress) ==> unchanged(this)
      ensures !old(pasteInProgress) ==> message == MessageFor(oracle, host.activeEditor)
      ensures !old(pasteInProgress) && host.activeEditor.None? ==>
        && effects == old(effects) + [Posted(message)]
        && decorationType == old(decorationType) && nextHandle == old(nextHandle)
        && lastEditor == old(lastEditor) && lastDecorationRange == old(lastDecorationRange)
      ensures !old(pasteInProgress) && host.activeEditor.Some? ==>
        var e := host.activeEditor.value;
        var range := GetSelectedText(e.selection, e.document).range;
        && decorationType.Some?
        && (old(decorationType).Some? ==> decorationType == old(decorationType) && nextHandle == old(nextHandle))
        && (old(decorationType).None? ==> decorationType == Some(old(nextHandle)) && nextHandle == old(nextHandle) + 1)
        && effects == old(effects) + [Posted(message), Decorated(e.id, decorationType.value, range)]
        && lastEditor == Some(e.id) && lastDecorationRange == Some(range)
    {
      if pasteInProgress {
        return;
      }
      SendMessageToWebView(host);
      SetDecoration(host);
    }

    /**
     * `_refreshDecoration`: re-apply the last range to the last editor with
     * the current decoration type, only when all of them exist and the last
     * editor is still visible.
     */
    method RefreshDecoration(host: Host)
      requires Valid()
      modifies this`effects
      ensures Valid()
      ensures
        if lastEditor.Some? && lastDecorationRange.Some? && lastEditor.value in host.visibleEditors
           && decorationType.Some?
        then effects == old(effects) + [Decorated(lastEditor.value, decorationType.value, lastDecorationRange.value)]
        else effects == old(effects)
    {
      if lastEditor.None? || lastDecorationRange.None? || lastEditor.value !in host.visibleEditors
         || decorationType.None? {
        return;
      }
      effects := effects + [Decorated(lastEditor.value, decorationType.value, lastDecorationRange.value)];
    }

    method SubscribeToChangeTextEditorSelection()
      requires Valid()
      modifies this`selectionSubscription, this`liveListeners, this`nextHandle
      ensures Valid()
      ensures selectionSubscription == Some(old(nextHandle)) && nextHandle == old(nextHandle) + 1
      ensures liveListeners == old(liveListeners) + {old(nextHandle)}
    {
      var h := NewHandle();
      liveListeners := liveListeners + {h};
      selectionSubscription := Some(h);
    }

    method SubscribeToChangeActiveTextEditor()
      requires Valid()
      modifies this`activeEditorSubscription, this`liveListeners, this`nextHandle
      ensures Valid()
      ensures activeEditorSubscription == Some(old(nextHandle)) && nextHandle == old(nextHandle) + 1
      ensures liveListeners == old(liveListeners) + {old(nextHandle)}
    {
      var h := NewHandle();
      liveListeners := liveListeners + {h};
      activeEditorSubscription := Some(h);
    }

    method SubscribeToChangeConfiguration()
      requires Valid()
      modifies this`configurationSubscription, this`liveListeners, this`nextHandle
      ensures Valid()
      ensures configurationSubscription == Some(old(nextHandle)) && nextHandle == old(nextHandle) + 1
      ensures liveListeners == old(liveListeners) + {old(nextHandle)}
    {
      var h := NewHandle();
      liveListeners := liveListeners + {h};
      configurationSubscription := Some(h);
    }

    method SubscribeToMessages()
      requires Valid()
      modifies this`messageReceivedSubscription, this`liveListeners, this`nextHandle
      ensures Valid()
      ensures messageReceivedSubscription == Some(old(nextHandle)) && nextHandle == old(nextHandle) + 1
      ensures liveListeners == old(liveListeners) + {old(nextHandle)}
    {
      var h := NewHandle();
      liveListeners := liveListeners + {h};
      messageReceivedSubscription := Some(h);
    }

    method SubscribeToChangeTextDocument()
      requires Valid()
      modifies this`textDocumentSubscription, this`liveListeners, this`nextHandle
      ensures Valid()
      ensures textDocumentSubscription == Some(old(nextHandle)) && nextHandle == old(nextHandle) + 1
      ensures liveListeners == old(liveListeners) + {old(nextHandle)}
    {
      var h := NewHandle();
      liveListeners := liveListeners + {h};
      textDocumentSubscription := Some(h);
    }

    /**
     * `_subscribeAllSubscribers`: five fresh subscriptions, in the source's
     * order. Fields that were already held are overwritten without being
     * disposed, so their listeners stay live.
     */
    method SubscribeAllSubscribers()
      requires Valid()
      modifies this`selectionSubscription, this`activeEditorSubscription, this`configurationSubscription,
               this`messageReceivedSubscription, this`textDocumentSubscription,
               this`liveListeners, this`nextHandle
      ensures Valid() && Subscribed()
      ensures var n := old(nextHandle);
        && activeEditorSubscription == Some(n) && configurationSubscription == Some(n + 1)
        && selectionSubscription == Some(n + 2) && messageReceivedSubscription == Some(n + 3)
        && textDocumentSubscription == Some(n + 4) && nextHandle == n + 5
        && Held() == {n, n + 1, n + 2, n + 3, n + 4}
      ensures liveListeners == old(liveListeners) + Held()
      ensures old(liveListeners) !! Held()
    {
      SubscribeToChangeActiveTextEditor();
      SubscribeToChangeConfiguration();
      SubscribeToChangeTextEditorSelection();
      SubscribeToMessages();
      SubscribeToChangeTextDocument();
    }

    /**
     * The five `dispose()` calls at the head of `_disposeSubscribersAndDecoration`,
     * in order; the first null field throws, after the ones before it.
     */
    method DisposeListeners() returns (ok: bool)
      requires Valid()
      modifies this`liveListeners
      ensures Valid()
      ensures ok <==> Subscribed()
      ensures ok ==> liveListeners == old(liveListeners) - Held()
      ensures !ok ==> liveListeners == old(liveListeners) - DisposedBeforeThrow(Subscriptions())
    {
      ghost var subs := Subscriptions();
      ok := false;
      if selectionSubscription.None? {
        return;
      }
      DisposedStep(subs, 0);
      liveListeners := liveListeners - {selectionSubscription.value};
      DisposedStep(subs, 1);
      if activeEditorSubscription.None? {
        return;
      }
      liveListeners := liveListeners - {activeEditorSubscription.value};
      DisposedStep(subs, 2);
      if configurationSubscription.None? {
        return;
      }
      liveListeners := liveListeners - {configurationSubscription.value};
      DisposedStep(subs, 3);
      if messageReceivedSubscription.None? {
        return;
      }
      liveListeners := liveListeners - {messageReceivedSubscription.value};
      DisposedStep(subs, 4);
      if textDocumentSubscription.None? {
        return;
      }
      liveListeners := liveListeners - {textDocumentSubscription.value};
      ok := true;
    }

    /**
     * `_disposeSubscribersAndDecoration`. When all five subscriptions are
     * held, all are disposed and nulled and the decoration type, if any, is
     * disposed and nulled. When one is null the call throws at it: the
     * listeners before it are disposed, but no field has been nulled yet.
     * Calling it twice therefore throws the second time.
     */
    method DisposeSubscribersAndDecoration() returns (ok: bool)
      requires Valid()
      modifies this`selectionSubscription, this`activeEditorSubscription, this`configurationSubscription,
               this`messageReceivedSubscription, this`textDocumentSubscription,
               this`liveListeners, this`decorationType, this`liveStyles
      ensures Valid()
      ensures ok <==> old(Subscribed())
      ensures ok ==> Detached() && liveStyles == {} && liveListeners == old(liveListeners) - old(Held())
      ensures !ok ==>
        && Subscriptions() == old(Subscriptions())
        && decorationType == old(decorationType) && liveStyles == old(liveStyles)
        && liveListeners == old(liveListeners) - DisposedBeforeThrow(old(Subscriptions()))
    {
      ok := DisposeListeners();
      if !ok {
        return;
      }
      selectionSubscription := None;
      activeEditorSubscription := None;
      configurationSubscription := None;
      messageReceivedSubscription := None;
      textDocumentSubscription := None;
      if decorationType.Some? {
        liveStyles := liveStyles - {decorationType.value};
        decorationType := None;
      }
    }

    /**
     * `resolveWebviewView`: subscribe to everything, then bring the message
     * and decoration up to date with the active editor. The host may resolve
     * the view again while a paste started from an earlier view is still
     * pending; the recompute is then skipped.
     */
    method ResolveWebviewView(host: Host)
      requires Valid() && HostWellFormed(host)
      modifies this`selectionSubscription, this`activeEditorSubscription, this`configurationSubscription,
               this`messageReceivedSubscription, this`textDocumentSubscription,
               this`liveListeners, this`nextHandle, this`message, this`decorationType, this`liveStyles,
               this`effects, this`lastEditor, this`lastDecorationRange
      ensures Valid() && Subscribed()
      ensures liveListeners == old(liveListeners) + Held() && old(liveListeners) !! Held()
      ensures pasteInProgress == old(pasteInProgress) && pendingSettle == old(pendingSettle)
      ensures old(pasteInProgress) ==>
        && message == old(message) && effects == old(effects)
        && decorationType == old(decorationType) && nextHandle == old(nextHandle) + 5
        && lastEditor == old(lastEditor) && lastDecorationRange == old(lastDecorationRange)
      ensures !old(pasteInProgress) ==> message == MessageFor(oracle, host.activeEditor)
      ensures !old(pasteInProgress) && host.activeEditor.None? ==>
        && effects == old(effects) + [Posted(message)]
        && decorationType == old(decorationType) && nextHandle == old(nextHandle) + 5
        && lastEditor == old(lastEditor) && lastDecorationRange == old(lastDecorationRange)
      ensures !old(pasteInProgress) && host.activeEditor.Some? ==>
        var e := host.activeEditor.value;
        var range := GetSelectedText(e.selection, e.document).range;
        && (old(decorationType).Some? ==> decorationType == old(decorationType) && nextHandle == old(nextHandle) + 5)
        && (old(decorationType).None? ==> decorationType == Some(old(nextHandle) + 5) && nextHandle == old(nextHandle) + 6)
        && decorationType.Some?
        && effects == old(effects) + [Posted(message), Decorated(e.id, decorationType.value, range)]
        && lastEditor == Some(e.id) && lastDecorationRange == Some(range)
    {
      SubscribeAllSubscribers();
      EditorTextChanged(host);
    }

    /**
     * The `onDidChangeVisibility` handler. Becoming visible subscribes to
     * everything afresh and recomputes (which a paste in progress
     * suppresses); becoming hidden disposes everything, and throws when a
     * subscription is already null.
     */
    method OnDidChangeVisibility(visible: bool, host: Host) returns (ok: bool)
      requires Valid() && HostWellFormed(host)
      modifies this`selectionSubscription, this`activeEditorSubscription, this`configurationSubscription,
               this`messageReceivedSubscription, this`textDocumentSubscription,
               this`liveListeners, this`nextHandle, this`message, this`decorationType, this`liveStyles,
               this`effects, this`lastEditor, this`lastDecorationRange
      ensures Valid()
      ensures pasteInProgress == old(pasteInProgress) && pendingSettle == old(pendingSettle)
      ensures visible ==>
        && ok && Subscribed()
        && liveListeners == old(liveListeners) + Held() && old(liveListeners) !! Held()
        && (old(pasteInProgress) ==>
              && message == old(message) && effects == old(effects)
              && decorationType == old(decorationType) && nextHandle == old(nextHandle) + 5
              && lastEditor == old(lastEditor) && lastDecorationRange == old(lastDecorationRange))
        && (!old(pasteInProgress) ==> message == MessageFor(oracle, host.activeEditor))
      ensures visible && !old(pasteInProgress) && host.activeEditor.None? ==>
        && effects == old(effects) + [Posted(message)]
        && decorationType == old(decorationType) && nextHandle == old(nextHandle) + 5
        && lastEditor == old(lastEditor) && lastDecorationRange == old(lastDecorationRange)
      ensures visible && !old(pasteInProgress) && host.activeEditor.Some? ==>
        var e := host.activeEditor.value;
        var range := GetSelectedText(e.selection, e.document).range;
        && (old(decorationType).Some? ==> decorationType == old(decorationType) && nextHandle == old(nextHandle) + 5)
        && (old(decorationType).None? ==> decorationType == Some(old(nextHandle) + 5) && nextHandle == old(nextHandle) + 6)
        && decorationType.Some?
        && effects == old(effects) + [Posted(message), Decorated(e.id, decorationType.value, range)]
        && lastEditor == Some(e.id) && lastDecorationRange == Some(range)
      ensures !visible ==>
        && (ok <==> old(Subscribed()))
        && (ok ==> Detached() && liveStyles == {} && liveListeners == old(liveListeners) - old(Held()))
        && (!ok ==> Subscriptions() == old(Subscriptions()) && decorationType == old(decorationType)
                    && liveListeners == old(liveListeners) - DisposedBeforeThrow(old(Subscriptions())))
        && message == old(message) && effects == old(effects) && nextHandle == old(nextHandle)
        && lastEditor == old(lastEditor) && lastDecorationRange == old(lastDecorationRange)
    {
      if visible {
        SubscribeAllSubscribers();
        EditorTextChanged(host);
        ok := true;
      } else {
        ok := DisposeSubscribersAndDecoration();
      }
    }

    /** The `onDidDispose` handler: the same disposal as hiding. */
    method OnDidDispose() returns (ok: bool)
      requires Valid()
      modifies this`selectionSubscription, this`activeEditorSubscription, this`configurationSubscription,
               this`messageReceivedSubscription, this`textDocumentSubscription,
               this`liveListeners, this`decorationType, this`liveStyles
      ensures Valid()
      ensures ok <==> old(Subscribed())
      ensures ok ==> Detached() && liveStyles == {} && liveListeners == old(liveListeners) - old(Held())
      ensures !ok ==> Subscriptions() == old(Subscriptions()) && decorationType == old(decorationType)
      ensures !ok ==> liveListeners == old(liveListeners) - DisposedBeforeThrow(old(Subscriptions()))
      ensures message == old(message) && effects == old(effects) && nextHandle == old(nextHandle)
      ensures pasteInProgress == old(pasteInProgress) && pendingSettle == old(pendingSettle)
      ensures lastEditor == old(lastEditor) && lastDecorationRange == old(lastDecorationRange)
    {
      ok := DisposeSubscribersAndDecoration();
    }

    /**
     * The `onDidChangeConfiguration` handler: dispose the decoration type
     * (throwing when there is none), create a new one from the configuration
     * and re-apply the last range with it. The message is not touched.
     */
    method OnDidChangeConfiguration(host: Host) returns (ok: bool)
      requires Valid()
      modifies this`decorationType, this`liveStyles, this`nextHandle, this`effects
      ensures Valid()
      ensures ok <==> old(decorationType).Some?
      ensures !ok ==> unchanged(this)
      ensures ok ==>
        && decorationType == Some(old(nextHandle)) && liveStyles == {old(nextHandle)}
        && nextHandle == old(nextHandle) + 1
        && old(decorationType).value !in liveStyles
        && effects == old(effects) +
             if lastEditor.Some? && lastDecorationRange.Some? && lastEditor.value in host.visibleEditors
             then [Decorated(lastEditor.value, old(nextHandle), lastDecorationRange.value)]
             else []
    {
      if decorationType.None? {
        return false;
      }
      liveStyles := liveStyles - {decorationType.value};
      var style := NewHandle();
      decorationType := Some(style);
      liveStyles := liveStyles + {style};
      RefreshDecoration(host);
      ok := true;
    }

    /**
     * The `onDidChangeActiveTextEditor` handler as written: dispose the
     * decoration type (throwing when there is none), null it, then recompute.
     * When it throws, the message is left as it was for the previous editor.
     */
    method OnDidChangeActiveTextEditor(host: Host) returns (ok: bool)
      requires Valid() && HostWellFormed(host)
      modifies this`message, this`decorationType, this`liveStyles, this`nextHandle, this`effects,
               this`lastEditor, this`lastDecorationRange
      ensures Valid()
      ensures ok <==> old(decorationType).Some?
      ensures !ok ==> unchanged(this)
      ensures ok ==>
        && message == MessageFor(oracle, host.activeEditor)
        && old(decorationType).value !in liveStyles
        && (host.activeEditor.None? ==>
              && decorationType.None? && effects == old(effects) + [Posted(message)]
              && nextHandle == old(nextHandle)
              && lastEditor == old(lastEditor) && lastDecorationRange == old(lastDecorationRange))
        && (host.activeEditor.Some? ==>
              var e := host.activeEditor.value;
              var range := GetSelectedText(e.selection, e.document).range;
              && decorationType == Some(old(nextHandle)) && nextHandle == old(nextHandle) + 1
              && effects == old(effects) + [Posted(message), Decorated(e.id, old(nextHandle), range)]
              && lastEditor == Some(e.id) && lastDecorationRange == Some(range))
    {
      if decorationType.None? {
        return false;
      }
      liveStyles := liveStyles - {decorationType.value};
      decorationType := None;
      EditorTextChanged(host);
      ok := true;
    }

    /**
     * The same handler with the null check `_disposeSubscribersAndDecoration`
     * uses: it never throws, and outside a paste the message always follows
     * the new active editor.
     */
    method OnDidChangeActiveTextEditorChecked(host: Host)
      requires Valid() && HostWellFormed(host)
      modifies this`message, this`decorationType, this`liveStyles, this`nextHandle, this`effects,
               this`lastEditor, this`lastDecorationRange
      ensures Valid()
      ensures !old(pasteInProgress) ==> message == MessageFor(oracle, host.activeEditor)
      ensures !old(pasteInProgress) ==> |effects| > |old(effects)| && effects[|old(effects)|] == Posted(message)
      ensures old(decorationType).Some? ==> old(decorationType).value !in liveStyles
      ensures old(pasteInProgress) ==>
        && message == old(message) && effects == old(effects) && decorationType.None?
        && nextHandle == old(nextHandle)
        && lastEditor == old(lastEditor) && lastDecorationRange == old(lastDecorationRange)
      ensures !old(pasteInProgress) && host.activeEditor.Some? ==>
        var e := host.activeEditor.value;
        var range := GetSelectedText(e.selection, e.document).range;
        && decorationType == Some(old(nextHandle)) && nextHandle == old(nextHandle) + 1
        && effects == old(effects) + [Posted(message), Decorated(e.id, old(nextHandle), range)]
        && lastEditor == Some(e.id) && lastDecorationRange == Some(range)
      ensures !old(pasteInProgress) && host.activeEditor.None? ==>
        && decorationType.None? && effects == old(effects) + [Posted(message)]
        && nextHandle == old(nextHandle)
        && lastEditor == old(lastEditor) && lastDecorationRange == old(lastDecorationRange)
    {
      if decorationType.Some? {
        liveStyles := liveStyles - {decorationType.value};
      }
      decorationType := None;
      EditorTextChanged(host);
    }

    /**
     * The first half of the `sendToEditor` message handler, up to
     * `wait(100)`. Without an active editor nothing happens. Otherwise the
     * selection subscription is disposed and nulled (throwing if it is
     * already null), then the decoration type (throwing if it is already
     * null, with the selection subscription already gone), the paste flag
     * is raised, the cursor is moved to the end of its line, two newlines
     * and the serialized decoded fields are inserted there, and the rest of
     * the paste is scheduled with the cursor's position to return to.
     */
    method SendToEditor(host: Host) returns (ok: bool)
      requires Valid() && HostWellFormed(host)
      modifies this`selectionSubscription, this`liveListeners, this`decorationType, this`liveStyles,
               this`pasteInProgress, this`effects, this`pendingSettle
      ensures Valid()
      ensures ok <==> host.activeEditor.None? || (old(selectionSubscription).Some? && old(decorationType).Some?)
      ensures old(pasteInProgress) ==> pasteInProgress && pendingSettle == old(pendingSettle)
      ensures host.activeEditor.None? || old(selectionSubscription).None? ==> unchanged(this)
      ensures host.activeEditor.Some? && old(selectionSubscription).Some? ==>
        && selectionSubscription.None?
        && liveListeners == old(liveListeners) - {old(selectionSubscription).value}
      ensures host.activeEditor.Some? && old(selectionSubscription).Some? && old(decorationType).None? ==>
        && decorationType.None? && pasteInProgress == old(pasteInProgress)
        && pendingSettle == old(pendingSettle) && effects == old(effects)
      ensures host.activeEditor.Some? && old(selectionSubscription).Some? && old(decorationType).Some? ==>
        var e := host.activeEditor.value;
        var at := LineEnd(e);
        && decorationType.None? && liveStyles == {}
        && pasteInProgress
        && effects == old(effects) + [Selected(e.id, Selection(at, at)),
                                      Inserted(e.id, at, "\n\n" + stringify(message.decoded))]
        && pendingSettle == Some(PendingPaste(e.id, e.selection.active))
    {
      if host.activeEditor.None? {
        return true;
      }
      var activeEditor := host.activeEditor.value;
      if selectionSubscription.None? {
        return false;
      }
      liveListeners := liveListeners - {selectionSubscription.value};
      selectionSubscription := None;
      if decorationType.None? {
        return false;
      }
      liveStyles := liveStyles - {decorationType.value};
      decorationType := None;
      pasteInProgress := true;

      var returnPosition := activeEditor.selection.active;
      var currentLineEnd := LineEnd(activeEditor);
      effects := effects + [Selected(activeEditor.id, Selection(currentLineEnd, currentLineEnd))];
      effects := effects + [Inserted(activeEditor.id, currentLineEnd, "\n\n" + stringify(message.decoded))];
      pendingSettle := Some(PendingPaste(activeEditor.id, returnPosition));
      ok := true;
    }

    /**
     * The second half of the paste, after `wait(100)`: subscribe to
     * selection changes again, lower the paste flag and put the cursor back
     * where it was.
     */
    method SettlePaste()
      requires Valid() && pendingSettle.Some?
      modifies this`selectionSubscription, this`liveListeners, this`nextHandle, this`pasteInProgress,
               this`effects, this`pendingSettle
      ensures Valid()
      ensures selectionSubscription == Some(old(nextHandle)) && nextHandle == old(nextHandle) + 1
      ensures liveListeners == old(liveListeners) + {old(nextHandle)}
      ensures !pasteInProgress && pendingSettle.None?
      ensures var p := old(pendingSettle).value;
        effects == old(effects) + [Selected(p.editor, Selection(p.returnPosition, p.returnPosition))]
    {
      var p := pendingSettle.value;
      SubscribeToChangeTextEditorSelection();
      pasteInProgress := false;
      pendingSettle := None;
      effects := effects + [Selected(p.editor, Selection(p.returnPosition, p.returnPosition))];
    }
  }
}

# vscode-jmbg: the validation panel's selection-sync coordinator

A Dafny model of the part of the vscode-jmbg extension that watches the
active editor and shows, in a side panel, whether the selected text is a
valid JMBG (the Yugoslav unique master citizen number):

- `ValidationSidebarProvider`, the coordinator. It subscribes to host events
  while the panel is visible. It keeps the panel message and the editor
  decoration in step with the active editor's selection. It also pastes the
  decoded fields of a valid number into the document (`coordinator.dfy`).
- How a message is built from the selected text: no editor, empty text,
  invalid text or valid text (`messages.dfy`).
- Which text is looked at: a selection as it is, a bare cursor widened to the
  word under it (`selected_text.dfy`, over the host model in `editor_host.dfy`).
- The reason texts (`error_messages.dfy`).
- The panel page: the selected-text summary, when the copy and paste buttons
  are enabled, and the saved state it restores on load (`webview.dfy`).
- The two editor commands, `validateCommand` and `generateRandomCommand`
  (`commands.dfy`).
- Event sequences proved from the coordinator's contracts (`scenarios.dfy`).

The identifier library (`validateJMBG`, `decodeJMBG`, `generateRandomJMBG`)
is not modelled. An `Oracle` is any pair of validate/decode functions
(`jmbg.dfy`), random identifiers are a `generate: nat -> string` parameter,
and `JSON.stringify(_, null, 2)` is a `stringify: Fields -> string` parameter
of the coordinator.

The host window is a value, `Host(activeEditor, visibleEditors)`, passed to
each handler as a snapshot of the window when the handler runs. A document
is its lines plus the host's word lookup `wordRangeAt`. Its well-formedness
says a word range lies on one line, is non-empty and contains the position.
Editors are compared by id. What the coordinator asks of the host (post a
message, set decorations, move the selection, insert text) is appended to an
`effects` log. Decoration types and event subscriptions are handles. The
sets `liveStyles` and `liveListeners` hold those created and not yet
disposed. A `dispose()` on a null field throws in the extension. Here the
handler returns `ok == false` with the state it had reached when it threw.
The `wait(100)` in the paste splits it in two steps: `SendToEditor` (up to
the wait) and `SettlePaste` (after it).

The invariant `ValidationSidebarProvider.Valid` holds after every handler,
on the normal path and on the throwing path. It says:

- a paste is in progress exactly while its continuation is pending;
- no decoration type exists during a paste;
- the only live decoration type is the one held, so none is leaked;
- handles are never reused;
- the last editor and the last range are recorded together;
- the stored message is well formed: the empty message, or a message for a
  non-empty text whose reason, validity and fields agree.

Behaviour of the code the model keeps:

- Hiding or disposing the panel a second time throws at the first null
  subscription.
- Settling a paste does not rebuild or re-apply the decoration. The next
  selection event does that.
- The coordinator holds five subscriptions; the webview message listener is
  one of them.
- The reason values are the library's `NOT_STRING`,
  `MUST_CONTAIN_EXACTLY_13_DIGITS`, `INVALID_DATE` and `INVALID_CONTROL_NUMBER`.
- In a valid message only `place` is replaced by null when it is falsy. The
  other fields are whatever the decoder returns; the decoder is modelled as
  always setting them.
- Settling runs whatever the result of the edit.

## Model

| member | source | states |
|---|---|---|
| ErrorMessages.ParseErrorMessage | src/utils/parseErrorMessage.ts:3-14 | each of the four reasons maps to its own fixed text |
| ErrorMessages.ParseErrorMessageInjective | src/utils.ts:31-42 | the reason texts are non-empty and pairwise distinct, so a text names its reason; the copy in utils.ts is the same map |
| SelectedText.IsRangeSimplyCursorPosition | src/utils/isRangeSimplyCursorPosition.ts:3-7 | true exactly when start and end coincide; false when the lines differ; false on one line when the characters differ |
| SelectedText.CursorIffAnchorIsActive | src/utils.ts:4-9 | a selection counts as a cursor exactly when its anchor equals its active position, whichever way round it was made |
| SelectedText.GetSelectedText | src/utils/getSelectedText.ts:7-25 | a non-cursor selection gives its start-to-end range; a bare cursor gives the word range at it, or the empty range at the cursor when there is none; the range is valid and contains both ends of the selection; the text is the document text of exactly that range; the text is empty exactly when the selection is a cursor off any word |
| SelectedText.ChosenRangeCoversSelection | src/utils.ts:11-29 | the chosen range covers the selection, and differs from it only for a bare cursor on a word, where it is that word's range |
| Messages.EmptyMessageIsCanonical | src/sidebar/message/emptyMessage.ts:4-9 | the empty message is well formed, and a message is the empty one exactly when its text and reason are null, it is not valid and every decoded field is null |
| Messages.MergeDecoded | src/sidebar/validation/ValidationSidebarProvider.ts:79-83 | the decoder's day, month, year, region and gender are copied; `place` is kept when present and non-empty and is null otherwise |
| Messages.ComposeMessage | src/sidebar/validation/ValidationSidebarProvider.ts:56-85 | empty text gives the empty message; otherwise the text with valid set exactly when the oracle accepts it; invalid text carries the reason's text and all-null fields; valid text carries no reason and the merged decoding |
| Messages.InvalidIgnoresDecoder | src/sidebar/validation/ValidationSidebarProvider.ts:61-72 | for invalid text the message does not depend on the decoder, and its fields are all null |
| Messages.MessageFor | src/sidebar/validation/ValidationSidebarProvider.ts:44-59 | the message is the empty one exactly when there is no active editor or its cursor is off any word; otherwise it is the message for the selected text |
| Coordinator.ValidationSidebarProvider.constructor | src/sidebar/validation/ValidationSidebarProvider.ts:15-28 | starts with the empty message, no paste, one decoration type, no subscriptions, nothing requested of the host |
| Coordinator.ValidationSidebarProvider.SetAndSendMessage | src/sidebar/validation/ValidationSidebarProvider.ts:30-33 | stores the given well-formed message and posts that same value, so the stored message stays well formed |
| Coordinator.ValidationSidebarProvider.SendMessageToWebView | src/sidebar/validation/ValidationSidebarProvider.ts:44-86 | stores and posts exactly `MessageFor` the active editor |
| Coordinator.ValidationSidebarProvider.SetDecoration | src/sidebar/validation/ValidationSidebarProvider.ts:88-108 | nothing changes without an active editor; otherwise a decoration type is created only when none is held, the chosen range is decorated with it, and that editor and range become the last ones |
| Coordinator.ValidationSidebarProvider.EditorTextChanged | src/sidebar/validation/ValidationSidebarProvider.ts:35-42 | during a paste nothing changes; otherwise the message for the active editor is posted, then its range is decorated |
| Coordinator.ValidationSidebarProvider.RefreshDecoration | src/sidebar/validation/ValidationSidebarProvider.ts:110-127 | re-applies the unchanged last range to the last editor exactly when the last editor, the last range and a decoration type all exist and the last editor is still visible; otherwise requests nothing |
| Coordinator.ValidationSidebarProvider.SubscribeToChangeTextDocument | src/sidebar/validation/ValidationSidebarProvider.ts:184-188 | holds one fresh live subscription |
| Coordinator.ValidationSidebarProvider.SubscribeToMessages | src/sidebar/validation/ValidationSidebarProvider.ts:190-191 | holds one fresh live subscription |
| Coordinator.ValidationSidebarProvider.SubscribeToChangeConfiguration | src/sidebar/validation/ValidationSidebarProvider.ts:283-284 | holds one fresh live subscription |
| Coordinator.ValidationSidebarProvider.SubscribeToChangeActiveTextEditor | src/sidebar/validation/ValidationSidebarProvider.ts:294-295 | holds one fresh live subscription |
| Coordinator.ValidationSidebarProvider.SubscribeToChangeTextEditorSelection | src/sidebar/validation/ValidationSidebarProvider.ts:304-310 | holds one fresh live subscription |
| Coordinator.ValidationSidebarProvider.SubscribeAllSubscribers | src/sidebar/validation/ValidationSidebarProvider.ts:157-163 | all five subscriptions are held, with fresh handles in the source's order; any old ones are overwritten and stay live |
| Coordinator.ValidationSidebarProvider.DisposeListeners | src/sidebar/validation/ValidationSidebarProvider.ts:166-170 | succeeds exactly when all five are held; on a null one, only those disposed before it are gone |
| Coordinator.ValidationSidebarProvider.DisposeSubscribersAndDecoration | src/sidebar/validation/ValidationSidebarProvider.ts:165-182 | when all five are held, every subscription and the decoration type are disposed and null; otherwise it throws with no field nulled and only the earlier listeners disposed |
| Coordinator.ValidationSidebarProvider.ResolveWebviewView | src/sidebar/validation/ValidationSidebarProvider.ts:129-155 | subscribes all five with fresh handles; when a paste from an earlier view is still pending, nothing else changes; otherwise posts the message for the active editor; with an editor, decorates its chosen range (creating a decoration type only when none is held) and records that editor and range as the last ones; without one, posts only and keeps the decoration type and last editor and range |
| Coordinator.ValidationSidebarProvider.OnDidChangeVisibility | src/sidebar/validation/ValidationSidebarProvider.ts:139-146 | showing resubscribes all five, then, outside a paste, posts the message for the active editor and decorates and records its range as `ResolveWebviewView` does (during a paste only the subscriptions change); hiding disposes every subscription and the decoration type, throwing with only the earlier listeners disposed when a subscription is already null, and never touches the message, the requests, the last editor or the last range |
| Coordinator.ValidationSidebarProvider.OnDidDispose | src/sidebar/validation/ValidationSidebarProvider.ts:148-150 | the same disposal as hiding; the message, the requests, the paste flag, the pending settle step, the last editor and the last range are kept |
| Coordinator.ValidationSidebarProvider.OnDidChangeConfiguration | src/sidebar/validation/ValidationSidebarProvider.ts:283-291 | throws when no decoration type is held; otherwise the old type is disposed, a fresh one (the next handle) is the only live one, and the last range is re-applied with it when the last editor is visible |
| Coordinator.ValidationSidebarProvider.OnDidChangeActiveTextEditor | src/sidebar/validation/ValidationSidebarProvider.ts:294-302 | throws, changing nothing, exactly when no decoration type is held; otherwise disposes it, posts the message for the new active editor, and with an editor decorates its range with a fresh type and records that editor and range as the last ones; without one, no type is held and the last editor and range are kept |
| Coordinator.ValidationSidebarProvider.OnDidChangeActiveTextEditorChecked | src/sidebar/validation/ValidationSidebarProvider.ts:297-299 | the handler with a null check: it never throws; outside a paste, the message follows the new active editor, which is decorated with a fresh type and recorded with its range as the last one; during a paste, or without an editor, the last editor and range are kept |
| Coordinator.ValidationSidebarProvider.SendToEditor | src/sidebar/validation/ValidationSidebarProvider.ts:200-258 | no active editor: nothing changes; otherwise the selection subscription is dropped, then the decoration type (each throwing when already null), the paste flag is raised, the cursor moves to the line end, two newlines and the serialized fields are inserted there, and the settle step is scheduled with the old cursor position |
| Coordinator.ValidationSidebarProvider.SettlePaste | src/sidebar/validation/ValidationSidebarProvider.ts:259-267 | resubscribes to selection changes with one fresh handle, clears the paste flag and moves the cursor back to where it was |
| Webview.NormalizeLineBreaks | media/js/main.js:60 | no line break is left and the text does not grow |
| Webview.NormalizeWithoutBreaks | media/js/main.js:60 | text without breaks is unchanged, so normalising twice changes nothing |
| Webview.NormalizeAppend | media/js/main.js:60 | normalisation works piece by piece when the cut does not split a `\r\n` pair |
| Webview.NormalizeLeadingBreak | media/js/main.js:60 | a leading `\r\n`, `\n` or lone `\r` becomes exactly one space |
| Webview.NormalizeOneBreak | media/js/main.js:60 | each kind of break between two texts becomes exactly one space, `\r\n` counting as one |
| Webview.GetTextSummary | media/js/main.js:55-65 | "" for null or empty text; normalised text of at most 13 characters unchanged; longer text cut to 13 characters plus "..."; never a line break, never over 16 characters |
| Webview.Render | media/js/main.js:79-98 | copy and paste are disabled exactly when the message is not valid; the summary, verdict, reason and fields come from the message |
| Webview.PasteOfferedOnlyForValidText | media/js/main.js:96-97 | for a message built from text, paste is offered exactly when the text is non-empty and the oracle accepts it; the empty message renders with an empty summary and paste disabled |
| Webview.Panel.constructor | media/js/main.js:4-22 | the first render shows the saved state, or the page's own empty message when there is none |
| Webview.Panel.Receive | media/js/main.js:25-29 | a received message is saved as state and rendered |
| Commands.ValidateCommand | src/commands.ts:6-32 | a warning, and no validation, exactly when there is no editor or several selections; otherwise "<text> Valid!" exactly when the oracle accepts the text, else "<text> Invalid! <reason text>" |
| Commands.ValidateCommandAgreesWithPanel | src/commands.ts:21-31 | for one selection with non-empty text, the command reports valid exactly when the panel's message is valid, with the panel's text and reason |
| Commands.GenerateRandomCommand | src/commands.ts:34-49 | without an editor only a warning; otherwise one replacement per selection, in order, the i-th with the i-th generated identifier |
| Scenarios.PasteIgnoresItsOwnDocumentChange | src/sidebar/validation/ValidationSidebarProvider.ts:200-267 | the document change the insert raises during a paste leaves the message alone; a second paste before settling throws; settling listens again and puts the cursor back |
| Scenarios.ActiveEditorAfterNoEditor | src/sidebar/validation/ValidationSidebarProvider.ts:294-302 | after the active editor became none, opening an editor on a word or selection throws and the panel keeps the empty message |
| Scenarios.ActiveEditorAfterNoEditorChecked | src/sidebar/validation/ValidationSidebarProvider.ts:297-299 | with the null check, the same sequence shows the message for the new editor and decorates it |
| Scenarios.HideShowHide | src/sidebar/validation/ValidationSidebarProvider.ts:139-146 | the first hide disposes every listener and decoration type; a second hide throws; showing again resubscribes and recomputes |

## Left out

- The identifier library (`validateJMBG`, `decodeJMBG`, `generateRandomJMBG`) is not part of this model. It is an abstract oracle and a generator parameter.
- `JSON.stringify(_, null, 2)` formatting is an abstract `stringify` function. The clipboard copy it feeds (the `copy` message) is host I/O and is not modelled.
- The `visitGithub` message and `openExternal` are host I/O and are not modelled.
- The timing of `wait(100)` is not modelled, only its split into `SendToEditor` and `SettlePaste`. Events that arrive before the timer fires are modelled by calling other handlers in between.
- The host does not apply edits, selections or decorations to the document here. They are logged as effects, and the next snapshot is the caller's choice.
- Event delivery to listeners that were overwritten and never disposed (left live by a second `SubscribeAllSubscribers`) is not modelled. The model only counts them in `liveListeners`.
- `getDecorationTypeFromConfig` and the decoration's look: a decoration type is an opaque handle.
- The HTML template, `createUriFactory`, `getNonce`, and the webview's DOM updates and highlighting are not modelled. Only the panel's rules are.
- The document's end-of-line sequence is fixed to "\n" in `GetText`.
- Webview.GetTextSummary: lengths and the 13-character cut count Unicode characters, not the UTF-16 code units the page's `length` and `substr` count. Text with characters outside the Basic Multilingual Plane is summarised differently: seven U+1F600 characters are 14 code units, so the page cuts them to six, a lone high surrogate and "...", while the model keeps all seven. A lone surrogate is not a Dafny `char`.
- `src/sidebar/SidebarProvider.ts` and `src/SidebarProvider.ts` are superseded drafts of the coordinator and are not part of this model. The random-generator panel and `media/main.js` are not part of it either.
- Coordinator.ValidationSidebarProvider.SetDecoration: requires that no paste is in progress. Its only caller returns early during a paste.
- Messages.MergeDecoded: the decoder is modelled as always returning day, month, year, region and gender. Only `place` may be missing or empty.

## Findings

| source | as written | input that shows it | evidently intended | confidence | as-written member | corrected member |
|---|---|---|---|---|---|---|
| src/sidebar/validation/ValidationSidebarProvider.ts:297 | the active-editor handler calls `dispose()` on the decoration type without a null check, and the type is null after a change to no active editor | show the panel, close every editor (the active editor becomes none, the handler nulls the type), then open an editor whose cursor is on a word: the handler throws at :297 before recomputing | a null check as in `_disposeSubscribersAndDecoration` (:178-181), so the panel shows the message for the new editor | medium, not executed | Scenarios.ActiveEditorAfterNoEditor | Scenarios.ActiveEditorAfterNoEditorChecked |

# p5.js widget coordinator, modelled in Dafny

The widget embeds a code editor and a sandboxed p5.js preview in a page. Its `App`
component (`lib/app.tsx`) coordinates them. It holds an edit buffer (the editor's text)
and a run buffer (`previewContent`, the text handed to the preview when a run starts).
It mirrors the editor's undo/redo state and tracks whether a sketch is playing. It keeps
the last error and the console lines the preview reported, and it calls out to an
autosaver and to the embedding page (`onNotify`).

This project models that component:

- `wrappers.dfy`, module `Wrappers`: an `Option` type for JavaScript's `undefined`/`null`.
- `app_model.dfy`, module `AppModel`: the component state as a value (`AppState`). It has
  one function per handler and the values `render` derives: the editor's error line,
  the status-bar error, `canRevert`, toolbar enablement and whether the preview is
  mounted. It also has `Step`/`Run`, which handle a sequence of stimuli in arrival order.
- `app_component.dfy`, module `AppComponent`: the component as a class `App`. Its fields
  are the `AppState` fields. Each handler is a method that states every field it changes.
  Its frame (`modifies`) lists the fields its `setState` names, plus the output log the
  handler appends to. Each
  method is also tied to its `AppModel` function, so the lemmas apply to the object.
  `Session` is a client that uses only the contracts.
- `app_properties.dfy`, module `AppProperties`: the lemmas.

Modelling choices:

- `setState` is a synchronous update of the named fields. Every other field keeps its value.
- The clock (`Date.now()`) is a `timestamp` parameter of play.
- The autosaver's `restore()` is a `restored: Option<string>` parameter of mount. It is
  ignored when no autosaver is configured. An empty string counts as nothing restored,
  because JavaScript treats `''` as false.
- `save` calls become the `saved` sequence and `onNotify` payloads become `notified`.
  The calls into the editor and preview (`undo`, `redo`, `stop`) become `refCalls`.
  Their effects are not modelled.
- `handleEditorChange` calls `this.props.autosaver.save` with no check that an autosaver
  exists (`lib/app.tsx:92`), unlike mount (`lib/app.tsx:76`). The model therefore requires
  an autosaver for an editor change. For a sequence of stimuli, `SavesPossible` states
  this requirement.
- The unset initial values of `isPlaying`, `startPlayTimestamp` and `lastError` become
  `false`, `None` and `None`. The `null` that play stores into `lastError` is also `None`.
- Error lines (`line?: number`) are integers.
- A run's identity is its `Date.now()` stamp (`lib/app.tsx:125`). Nothing makes two
  stamps differ, so no lemma claims it.
- The error line is gated on `editorContent === previewContent` (`lib/app.tsx:165-166`),
  not on the run's stamp. `StaleErrorReappears` shows an old error's line coming back
  when the text is edited back to exactly the running text.

## Model

| member | source | states |
|---|---|---|
| AppComponent.App.constructor | lib/app.tsx:64-73 | undo/redo off, not playing, no error, empty logs, edit buffer = initial content, run buffer = `''` if `previewInitialEmpty` else initial content, nothing sent yet |
| AppComponent.App.ComponentDidMount | lib/app.tsx:75-83 | a non-empty restored value that differs from the edit buffer replaces it, with no play; otherwise autoplay performs exactly one play transition; otherwise nothing changes |
| AppComponent.App.HandleEditorChange | lib/app.tsx:85-93 | edit buffer, canUndo and canRedo take the editor's values verbatim; `save` gets exactly the new text, once; no other field changes |
| AppComponent.App.HandlePreviewError | lib/app.tsx:95-102 | the stored error becomes `{message, line}`; nothing else changes |
| AppComponent.App.HandleConsoleLog | lib/app.tsx:104-111 | logs = old logs ++ the wrapped messages in order; the old logs stay as a prefix; the length grows by the number of messages |
| AppComponent.App.HandleRevertClick | lib/app.tsx:113-118 | is exactly `changeContent(initialContent)`; afterwards `canRevert` is false |
| AppComponent.App.HandlePlayClick | lib/app.tsx:120-129 | one `{play, edit buffer}` payload from the pre-play buffer; then playing, run buffer = edit buffer, stamp = timestamp, no error, empty logs; edit buffer and undo state unchanged |
| AppComponent.App.HandleStopClick | lib/app.tsx:131-134 | not playing and one preview stop recorded; buffers, error and logs unchanged |
| AppComponent.App.HandleUndoClick | lib/app.tsx:136-138 | one editor undo recorded; state unchanged |
| AppComponent.App.HandleRedoClick | lib/app.tsx:140-142 | one editor redo recorded; state unchanged |
| AppComponent.App.NotifyContent | lib/app.tsx:144-146 | exactly one payload `{name, edit buffer}` appended; nothing else changes |
| AppComponent.App.ChangeContent | lib/app.tsx:148-153 | edit buffer = content and not playing; run buffer, error and logs unchanged |
| AppModel.Wrap | lib/app.tsx:105 | one log record per message, same length, same order |
| AppModel.ErrorLine | lib/app.tsx:162-168 | the editor shows a line iff an error with a line is stored and the edit buffer equals the run buffer, and then it is the stored line |
| AppModel.StatusError | lib/app.tsx:199-201 | the stored error, whatever the buffers hold: EditHidesStaleError keeps it while an edit hides the error line, PlayClearsView shows it cleared by play, StopKeepsArtifacts keeps it on stop |
| AppModel.CanRevert | lib/app.tsx:163 | true iff the edit buffer differs from the initial content: ToolbarFollowsState ties it to the revert button, RevertIsChangeContent shows it false after revert, InitialState false at start |
| AppModel.Toolbar | lib/app.tsx:172-177 | absent iff hidden; play always enabled, stop iff playing, undo iff canUndo, redo iff canRedo, revert iff CanRevert (ToolbarFollowsState); stop enabled after play (PlayClearsView), disabled after stop (StopKeepsArtifacts) |
| AppModel.PreviewMounted | lib/app.tsx:184 | true iff playing or `showPreview`: mounted right after play (PlayClearsView), after stop only if `showPreview` (StopKeepsArtifacts) |
| AppProperties.InitialState | lib/app.tsx:66-72 | the constructor's state; nothing to revert and no error line at start |
| AppProperties.MountRestores | lib/app.tsx:76-79 | a non-empty, different restore replaces the edit buffer and sends no play payload |
| AppProperties.MountAutoplays | lib/app.tsx:78-82 | without a winning restore, autoplay is exactly the play transition with one payload |
| AppProperties.MountKeepsContent | lib/app.tsx:76-83 | a missing, empty or identical restore keeps the edit buffer; without autoplay mount changes nothing |
| AppProperties.MountScenarioRestoreBeatsAutoplay | lib/app.tsx:75-83 | initial "A", restore "B": buffer "B", not playing, nothing notified |
| AppProperties.EditThenPlayRunsSavedText | lib/app.tsx:85-129 | the text an editor change saves is the text the next play runs and announces; the undo state survives the play |
| AppProperties.LastEditWins | lib/app.tsx:85-93 | after any non-empty run of edits, the buffer and undo state are the last edit's; saves are all the texts in order; the run, error, logs and notifications are unchanged |
| AppProperties.SavesFollowEdits | lib/app.tsx:92 | over any stimuli, `save` receives exactly the editor changes' texts, once each, in order |
| AppProperties.PlaySnapshots | lib/app.tsx:120-129 | play's payload carries the pre-play buffer; the run is reset; the edit buffer, undo state and saves are unchanged |
| AppProperties.PlayClearsView | lib/app.tsx:120-129 | right after play, no error line, no status error, the preview is mounted, stop is enabled |
| AppProperties.PlayErrorScenario | lib/app.tsx:95-102 | play "x=1" then error ("ReferenceError", 3): payload carries "x=1"; error and line 3 shown |
| AppProperties.StopKeepsArtifacts | lib/app.tsx:131-134 | stop drops the playing mark and records one preview stop; it keeps the buffers, undo state, stamp, error, logs, saves, notifications and error line; it disables stop; the preview stays mounted only if `showPreview` |
| AppProperties.ConsoleLogAppends | lib/app.tsx:104-111 | old logs are a prefix, each new entry wraps its message at its position, the error is untouched |
| AppProperties.OnlyErrorsSetLastError | lib/app.tsx:95-129 | an error event sets the stored error; play clears it; every other stimulus keeps it |
| AppProperties.ChangeContentThenPlay | lib/app.tsx:120-153 | `changeContent` drops the playing mark and keeps the run buffer and stamp, so loaded text is not run until the next play, which runs and announces exactly it; meanwhile the error line shows iff the loaded text is the running text, and the status error is kept |
| AppProperties.RevertIsChangeContent | lib/app.tsx:113-118 | revert equals `changeContent(initialContent)`; revert is disabled afterwards |
| AppProperties.SetSourceScenario | lib/app.tsx:148-153 | "y=2" while playing: buffer "y=2", not playing, run buffer, error and logs untouched |
| AppProperties.GetSourceScenario | lib/app.tsx:144-146 | a "save" notification with buffer "z=3" sends exactly `{save, "z=3"}` |
| AppProperties.EditHidesStaleError | lib/app.tsx:165-168 | editing away from the run buffer hides the error line while the status bar still shows the error |
| AppProperties.StaleErrorReappears | lib/app.tsx:165-168 | editing back to exactly the run buffer shows the stored error's line again |
| AppProperties.ToolbarFollowsState | lib/app.tsx:172-177 | toolbar absent iff hidden; play always enabled; stop iff playing; undo iff canUndo; redo iff canRedo; revert iff edit buffer differs from the initial content |
| AppProperties.EditDrivesUndoRedo | lib/app.tsx:85-93 | after an editor change, undo/redo are enabled exactly as the editor reported; revert iff the text differs from the initial content |
| AppProperties.RunAppend | lib/app.tsx:85-153 | handling two sequences of stimuli one after the other equals handling their concatenation |
| AppProperties.StepWithoutPlay | lib/app.tsx:85-153 | every stimulus but play keeps the run buffer and stamp and appends only its own console lines |
| AppProperties.LogsAccumulate | lib/app.tsx:104-111 | with no play, logs = old logs ++ all console lines in arrival order; run buffer and stamp unchanged |
| AppProperties.LogsSinceLastPlay | lib/app.tsx:120-129 | after the last play, logs are exactly the lines received since; the run buffer is the buffer at that play; the stamp is its timestamp |
| AppProperties.LastPlayedSkips | lib/app.tsx:144-146 | a payload under another name does not change the last "play" payload |
| AppProperties.InitAnnounced | lib/app.tsx:66-72 | at construction the run-buffer invariant holds |
| AppProperties.MountKeepsAnnounced | lib/app.tsx:75-83 | mount keeps it |
| AppProperties.StepKeepsAnnounced | lib/app.tsx:120-153 | every stimulus except a "play" notification from outside keeps "the last play payload carries the run buffer" |
| AppProperties.RunKeepsAnnounced | lib/app.tsx:120-153 | so does any sequence of such stimuli |

## Left out

- JSX markup: `ErrorMessage`, `LogMessage` and the element tree are presentation. Only the values they are given are modelled (`ErrorLine`, `StatusError`, `Toolbar`, `PreviewMounted`).
- The editor and preview components: `undo`, `redo` and `stop` are recorded as calls only. Their effects are not modelled.
- React's batching and deferred `setState`: each handler is one atomic update. The updater form used by play reads the same state that `notifyContent` read just before it.
- `Date.now()`: play takes the timestamp as a parameter. Distinct timestamps are not claimed.
- Autosaver internals and session storage: `restore()` is a parameter; `save` is a recorded call.
- HandleEditorChange: when no autosaver is configured, the source's call `autosaver.save` would throw. The model makes this a precondition instead of modelling the failure.
- HandleStopClick: `refs.preview.stop()` would fail if the preview were not mounted. The model records the call without that condition. The toolbar offers stop only while playing, and the preview is mounted then.
- The `initialLog` property is declared but never read by the component.
- `lib/main.tsx` is bootstrap, so none of it is modelled: query-string parsing with its defaults, the `postMessage` target, the CRLF normalisation and trim of the initial content, rendering, and the one-off `{name: "load"}` notification.
- No inbound `setSource`/`getSource` listener appears in `lib/app.tsx`. Only the two targets it would call, `changeContent` and `notifyContent`, are modelled.

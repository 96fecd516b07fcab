/**
 * The coordination state of the widget's `App` component (lib/app.tsx), as values.
 *
 * Each handler of the component is a function from the old state to the new one.
 * React's `setState` is read as a synchronous update of the fields it names; the
 * other fields keep their values. Calls into collaborators (the autosaver's `save`,
 * the `onNotify` callback, `stop`/`undo`/`redo` on the preview and editor refs) are
 * recorded in the state as output logs, in call order.
 */
module AppModel {
  import opened Wrappers

  /** An error reported by the preview: a message and, when known, a line. */
  datatype ErrorMessage = ErrorMessage(message: string, line: Option<int>)

  /** One console line reported by the preview. */
  datatype LogMessage = LogMessage(message: string)

  /** A payload handed to the embedding page's `onNotify` callback. */
  datatype Notification = Notification(name: string, sourceCode: string)

  /** A call made into the editor or preview component, whose effect is not modelled. */
  datatype RefCall = EditorUndo | EditorRedo | PreviewStop

  /**
   * The component's configuration. Sizes, the p5 version, the run-time budget and the
   * base URL are only passed through to the preview and do not take part here.
   */
  datatype Props = Props(
    initialContent: string,
    hasAutosaver: bool,
    autoplay: bool,
    showPreview: bool,
    previewInitialEmpty: bool,
    hideToolbar: bool)

  /**
   * The component state (`AppState`) together with what was sent to collaborators:
   * `saved` holds the argument of every `autosaver.save` call, `notified` every
   * `onNotify` payload, and `refCalls` every call into the editor or preview.
   */
  datatype AppState = AppState(
    canUndo: bool,
    canRedo: bool,
    isPlaying: bool,
    startPlayTimestamp: Option<int>,
    previewContent: string,
    editorContent: string,
    lastError: Option<ErrorMessage>,
    logs: seq<LogMessage>,
    saved: seq<string>,
    notified: seq<Notification>,
    refCalls: seq<RefCall>)

  /** Wraps each console string as a log record, keeping their order (`message.map`). */
  function Wrap(messages: seq<string>): (r: seq<LogMessage>)
    ensures |r| == |messages|
    ensures forall i :: 0 <= i < |r| ==> r[i] == LogMessage(messages[i])
  {
    if messages == [] then [] else [LogMessage(messages[0])] + Wrap(messages[1..])
  }

  // ---------------------------------------------------------------- handlers

  /** The state set up by the constructor. */
  function Init(p: Props): AppState
  {
    AppState(
      canUndo := false,
      canRedo := false,
      isPlaying := false,
      startPlayTimestamp := None,
      previewContent := if p.previewInitialEmpty then "" else p.initialContent,
      editorContent := p.initialContent,
      lastError := None,
      logs := [],
      saved := [],
      notified := [],
      refCalls := [])
  }

  /**
   * What `autosaver && autosaver.restore()` yields: nothing when there is no autosaver,
   * otherwise what `restore()` returned.
   */
  function Restored(p: Props, restored: Option<string>): Option<string>
  {
    if p.hasAutosaver then restored else None
  }

  /** The mount test: a truthy restored value that differs from the edit buffer. */
  predicate RestoreWins(p: Props, s: AppState, restored: Option<string>)
  {
    var autosave := Restored(p, restored);
    autosave.Some? && autosave.value != "" && autosave.value != s.editorContent
  }

  /**
   * `componentDidMount`: a restored autosave replaces the edit buffer; otherwise
   * autoplay starts a run at `timestamp`.
   */
  function ComponentDidMount(p: Props, s: AppState, restored: Option<string>, timestamp: int): AppState
  {
    if RestoreWins(p, s, restored) then s.(editorContent := Restored(p, restored).value)
    else if p.autoplay then HandlePlayClick(s, timestamp)
    else s
  }

  /**
   * `handleEditorChange`: mirror the editor's text and undo state and save the text.
   * The source calls `autosaver.save` without checking that an autosaver exists.
   */
  function HandleEditorChange(p: Props, s: AppState, newValue: string, canUndo: bool, canRedo: bool): AppState
    requires p.hasAutosaver
  {
    s.(editorContent := newValue, canUndo := canUndo, canRedo := canRedo, saved := s.saved + [newValue])
  }

  /** `handlePreviewError`: remember the error the preview reported. */
  function HandlePreviewError(s: AppState, message: string, line: Option<int>): AppState
  {
    s.(lastError := Some(ErrorMessage(message, line)))
  }

  /** `handleConsoleLog`: append the reported lines to the log. */
  function HandleConsoleLog(s: AppState, messages: seq<string>): AppState
  {
    s.(logs := s.logs + Wrap(messages))
  }

  /** `handleRevertClick`: go back to the initial content and drop the playing mark. */
  function HandleRevertClick(p: Props, s: AppState): AppState
  {
    s.(isPlaying := false, editorContent := p.initialContent)
  }

  /**
   * `handlePlayClick`: announce the edit buffer as played, then start a run of it:
   * the run buffer takes the edit buffer, the run is stamped, error and logs reset.
   */
  function HandlePlayClick(s: AppState, timestamp: int): AppState
  {
    var prev := NotifyContent(s, "play");
    prev.(isPlaying := true,
          previewContent := prev.editorContent,
          startPlayTimestamp := Some(timestamp),
          lastError := None,
          logs := [])
  }

  /** `handleStopClick`: drop the playing mark and ask the preview to stop. */
  function HandleStopClick(s: AppState): AppState
  {
    s.(isPlaying := false, refCalls := s.refCalls + [PreviewStop])
  }

  /** `handleUndoClick`: forward to the editor. */
  function HandleUndoClick(s: AppState): AppState
  {
    s.(refCalls := s.refCalls + [EditorUndo])
  }

  /** `handleRedoClick`: forward to the editor. */
  function HandleRedoClick(s: AppState): AppState
  {
    s.(refCalls := s.refCalls + [EditorRedo])
  }

  /** `notifyContent`: send the edit buffer to the embedding page under `name`. */
  function NotifyContent(s: AppState, name: string): AppState
  {
    s.(notified := s.notified + [Notification(name, s.editorContent)])
  }

  /** `changeContent`: load new text into the edit buffer and drop the playing mark. */
  function ChangeContent(s: AppState, content: string): AppState
  {
    s.(isPlaying := false, editorContent := content)
  }

  // ------------------------------------------------------- derived by render

  /**
   * The line the editor highlights: the stored error's line, but only while the
   * edit buffer still holds exactly the text that is running.
   */
  function ErrorLine(s: AppState): (line: Option<int>)
    ensures line.Some? <==>
      s.lastError.Some? && s.lastError.value.line.Some? && s.editorContent == s.previewContent
    ensures line.Some? ==> line == s.lastError.value.line
  {
    if s.lastError.Some? && s.editorContent == s.previewContent then s.lastError.value.line else None
  }

  /** The error shown in the status bar: the stored one, whatever the buffers hold. */
  function StatusError(s: AppState): Option<ErrorMessage>
  {
    s.lastError
  }

  /** Whether the edit buffer differs from the initial content. */
  function CanRevert(p: Props, s: AppState): bool
  {
    s.editorContent != p.initialContent
  }

  /** Which toolbar buttons carry a click handler. */
  datatype Buttons = Buttons(play: bool, stop: bool, undo: bool, redo: bool, revert: bool)

  /** The toolbar, absent when hidden by configuration. */
  function Toolbar(p: Props, s: AppState): Option<Buttons>
  {
    if p.hideToolbar then None
    else Some(Buttons(play := true, stop := s.isPlaying, undo := s.canUndo,
                      redo := s.canRedo, revert := CanRevert(p, s)))
  }

  /** Whether the preview component is rendered (and so runs `previewContent`). */
  function PreviewMounted(p: Props, s: AppState): bool
  {
    s.isPlaying || p.showPreview
  }

  // ------------------------------------------------------ sequences of stimuli

  /** A stimulus the component reacts to, one per handler after mounting. */
  datatype Event =
    | Edited(newValue: string, canUndo: bool, canRedo: bool)
    | Errored(message: string, line: Option<int>)
    | Logged(messages: seq<string>)
    | Reverted
    | Played(timestamp: int)
    | Stopped
    | UndoRequested
    | RedoRequested
    | Notified(name: string)
    | ContentChanged(content: string)

  /** Every editor change in `es` can reach an autosaver. */
  predicate SavesPossible(p: Props, es: seq<Event>)
  {
    p.hasAutosaver || forall i :: 0 <= i < |es| ==> !es[i].Edited?
  }

  /** One stimulus, dispatched to its handler. */
  function Step(p: Props, s: AppState, e: Event): AppState
    requires e.Edited? ==> p.hasAutosaver
  {
    match e
    case Edited(v, u, r) => HandleEditorChange(p, s, v, u, r)
    case Errored(m, l) => HandlePreviewError(s, m, l)
    case Logged(ms) => HandleConsoleLog(s, ms)
    case Reverted => HandleRevertClick(p, s)
    case Played(t) => HandlePlayClick(s, t)
    case Stopped => HandleStopClick(s)
    case UndoRequested => HandleUndoClick(s)
    case RedoRequested => HandleRedoClick(s)
    case Notified(n) => NotifyContent(s, n)
    case ContentChanged(c) => ChangeContent(s, c)
  }

  /** Stimuli handled one after another, in arrival order. */
  function Run(p: Props, s: AppState, es: seq<Event>): AppState
    requires SavesPossible(p, es)
    decreases |es|
  {
    if es == [] then s
    else
      assert es[0].Edited? ==> p.hasAutosaver;
      Run(p, Step(p, s, es[0]), es[1..])
  }

  /** The texts handed to `autosaver.save` by the stimuli `es`, in order. */
  function EditedValues(es: seq<Event>): seq<string>
  {
    if es == [] then []
    else (if es[0].Edited? then [es[0].newValue] else []) + EditedValues(es[1..])
  }

  /** The log records produced by the console stimuli in `es`, in order. */
  function LoggedMessages(es: seq<Event>): seq<LogMessage>
  {
    if es == [] then []
    else (if es[0].Logged? then Wrap(es[0].messages) else []) + LoggedMessages(es[1..])
  }

  /** The source code of the last "play" notification sent, if any. */
  function LastPlayed(ns: seq<Notification>): Option<string>
  {
    if ns == [] then None
    else if ns[|ns| - 1].name == "play" then Some(ns[|ns| - 1].sourceCode)
    else LastPlayed(ns[..|ns| - 1])
  }
}

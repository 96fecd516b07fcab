/**
 * The `App` component as an object: its fields are the component state and the
 * recorded collaborator calls, its methods are the event handlers. Each method says
 * what its fields become and that this is the corresponding AppModel transition, so
 * the properties proved in AppProperties apply to the object.
 */
module AppComponent {
  import opened Wrappers
  import opened AppModel

  class App {
    const props: Props

    var canUndo: bool
    var canRedo: bool
    var isPlaying: bool
    var startPlayTimestamp: Option<int>
    /** The run buffer: the text handed to the preview. */
    var previewContent: string
    /** The edit buffer: the text in the editor. */
    var editorContent: string
    var lastError: Option<ErrorMessage>
    var logs: seq<LogMessage>

    /** Arguments of the autosaver's `save` calls, in call order. */
    var saved: seq<string>
    /** Payloads passed to `onNotify`, in call order. */
    var notified: seq<Notification>
    /** Calls into the editor and preview components, in call order. */
    var refCalls: seq<RefCall>

    /** The object's fields as a state value. */
    function State(): AppState
      reads this
    {
      AppState(canUndo, canRedo, isPlaying, startPlayTimestamp, previewContent,
               editorContent, lastError, logs, saved, notified, refCalls)
    }

    constructor (props: Props)
      ensures this.props == props
      ensures !canUndo && !canRedo && !isPlaying && startPlayTimestamp == None
      ensures previewContent == (if props.previewInitialEmpty then "" else props.initialContent)
      ensures editorContent == props.initialContent
      ensures lastError == None && logs == []
      ensures saved == [] && notified == [] && refCalls == []
      ensures State() == Init(props)
    {
      this.props := props;
      canUndo, canRedo, isPlaying, startPlayTimestamp := false, false, false, None;
      previewContent := if props.previewInitialEmpty then "" else props.initialContent;
      editorContent := props.initialContent;
      lastError, logs := None, [];
      saved, notified, refCalls := [], [], [];
    }

    /**
     * `componentDidMount`, where `restored` is what the autosaver's `restore()` returns
     * and `timestamp` the clock reading an autoplay would take.
     */
    method ComponentDidMount(restored: Option<string>, timestamp: int)
      modifies this`editorContent, this`isPlaying, this`previewContent,
               this`startPlayTimestamp, this`lastError, this`logs, this`notified
      ensures RestoreWins(props, old(State()), restored) ==>
                State() == old(State()).(editorContent := restored.value)
      ensures !RestoreWins(props, old(State()), restored) && props.autoplay ==>
                && notified == old(notified) + [Notification("play", old(editorContent))]
                && isPlaying && previewContent == old(editorContent)
                && startPlayTimestamp == Some(timestamp) && lastError == None && logs == []
                && editorContent == old(editorContent)
      ensures !RestoreWins(props, old(State()), restored) && !props.autoplay ==>
                State() == old(State())
      ensures State() == AppModel.ComponentDidMount(props, old(State()), restored, timestamp)
    {
      var autosave := if props.hasAutosaver then restored else None;
      if autosave.Some? && autosave.value != "" && autosave.value != editorContent {
        editorContent := autosave.value;
      } else if props.autoplay {
        HandlePlayClick(timestamp);
      }
    }

    /** `handleEditorChange`; the source calls `save` on the autosaver unguarded. */
    method HandleEditorChange(newValue: string, canUndo: bool, canRedo: bool)
      requires props.hasAutosaver
      modifies this`editorContent, this`canUndo, this`canRedo, this`saved
      ensures editorContent == newValue && this.canUndo == canUndo && this.canRedo == canRedo
      ensures saved == old(saved) + [newValue]
      ensures State() == AppModel.HandleEditorChange(props, old(State()), newValue, canUndo, canRedo)
    {
      editorContent, this.canUndo, this.canRedo := newValue, canUndo, canRedo;
      saved := saved + [newValue];
    }

    /** `handlePreviewError`. */
    method HandlePreviewError(message: string, line: Option<int>)
      modifies this`lastError
      ensures lastError == Some(ErrorMessage(message, line))
      ensures State() == AppModel.HandlePreviewError(old(State()), message, line)
    {
      lastError := Some(ErrorMessage(message, line));
    }

    /** `handleConsoleLog`. */
    method HandleConsoleLog(messages: seq<string>)
      modifies this`logs
      ensures logs == old(logs) + Wrap(messages)
      ensures |logs| == |old(logs)| + |messages| && logs[..|old(logs)|] == old(logs)
      ensures State() == AppModel.HandleConsoleLog(old(State()), messages)
    {
      logs := logs + Wrap(messages);
    }

    /** `handleRevertClick`. */
    method HandleRevertClick()
      modifies this`isPlaying, this`editorContent
      ensures !isPlaying && editorContent == props.initialContent
      ensures !CanRevert(props, State())
      ensures State() == AppModel.ChangeContent(old(State()), props.initialContent)
      ensures State() == AppModel.HandleRevertClick(props, old(State()))
    {
      isPlaying, editorContent := false, props.initialContent;
    }

    /** `handlePlayClick`, with `timestamp` standing for `Date.now()`. */
    method HandlePlayClick(timestamp: int)
      modifies this`isPlaying, this`previewContent, this`startPlayTimestamp,
               this`lastError, this`logs, this`notified
      ensures notified == old(notified) + [Notification("play", old(editorContent))]
      ensures isPlaying && previewContent == old(editorContent)
      ensures startPlayTimestamp == Some(timestamp)
      ensures lastError == None && logs == []
      ensures State() == AppModel.HandlePlayClick(old(State()), timestamp)
    {
      NotifyContent("play");
      isPlaying, previewContent, startPlayTimestamp := true, editorContent, Some(timestamp);
      lastError, logs := None, [];
    }

    /** `handleStopClick`. */
    method HandleStopClick()
      modifies this`isPlaying, this`refCalls
      ensures !isPlaying && refCalls == old(refCalls) + [PreviewStop]
      ensures State() == AppModel.HandleStopClick(old(State()))
    {
      isPlaying := false;
      refCalls := refCalls + [PreviewStop];
    }

    /** `handleUndoClick`. */
    method HandleUndoClick()
      modifies this`refCalls
      ensures refCalls == old(refCalls) + [EditorUndo]
      ensures State() == AppModel.HandleUndoClick(old(State()))
    {
      refCalls := refCalls + [EditorUndo];
    }

    /** `handleRedoClick`. */
    method HandleRedoClick()
      modifies this`refCalls
      ensures refCalls == old(refCalls) + [EditorRedo]
      ensures State() == AppModel.HandleRedoClick(old(State()))
    {
      refCalls := refCalls + [EditorRedo];
    }

    /** `notifyContent`. */
    method NotifyContent(name: string)
      modifies this`notified
      ensures notified == old(notified) + [Notification(name, editorContent)]
      ensures State() == AppModel.NotifyContent(old(State()), name)
    {
      notified := notified + [Notification(name, editorContent)];
    }

    /** `changeContent`. */
    method ChangeContent(content: string)
      modifies this`isPlaying, this`editorContent
      ensures !isPlaying && editorContent == content
      ensures State() == AppModel.ChangeContent(old(State()), content)
    {
      isPlaying, editorContent := false, content;
    }
  }

  /**
   * A session: construct, mount, edit, run, log and stop. What the embedding page,
   * the autosaver and the view see follows from the method contracts alone.
   */
  method Session(p: Props)
    requires p.hasAutosaver && !p.autoplay && !p.hideToolbar
  {
    var app := new App(p);
    app.ComponentDidMount(None, 0);
    assert app.State() == Init(p);
    app.HandleEditorChange("x=1", true, false);
    app.HandlePlayClick(5);
    app.HandleConsoleLog(["a", "b"]);
    app.HandlePreviewError("ReferenceError", Some(3));
    assert app.notified == [Notification("play", "x=1")];
    assert app.saved == ["x=1"];
    assert app.logs == [LogMessage("a"), LogMessage("b")];
    assert ErrorLine(app.State()) == Some(3);
    app.HandleEditorChange("x=2", true, false);
    assert ErrorLine(app.State()) == None && StatusError(app.State()).Some?;
    app.HandleStopClick();
    assert app.previewContent == "x=1" && |app.logs| == 2;
    assert !Toolbar(p, app.State()).value.stop;
  }
}

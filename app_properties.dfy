/**
 * Properties of the coordination state: what each handler promises, how the
 * derived view values follow the state, and what holds over any sequence of stimuli.
 */
module AppProperties {
  import opened Wrappers
  import opened AppModel

  // ------------------------------------------------------------ construction

  /** The constructor's state: both buffers from the configuration, nothing else set. */
  lemma InitialState(p: Props)
    ensures Init(p).editorContent == p.initialContent
    ensures Init(p).previewContent == (if p.previewInitialEmpty then "" else p.initialContent)
    ensures Init(p).logs == [] && !Init(p).canUndo && !Init(p).canRedo
    ensures !Init(p).isPlaying && Init(p).lastError == None && Init(p).startPlayTimestamp == None
    ensures !CanRevert(p, Init(p)) && ErrorLine(Init(p)) == None
  {
  }

  // ------------------------------------------------------------------- mount

  /** A restored autosave that differs from the edit buffer replaces it; no run starts. */
  lemma MountRestores(p: Props, s: AppState, restored: Option<string>, timestamp: int)
    requires p.hasAutosaver && restored.Some? && restored.value != "" && restored.value != s.editorContent
    ensures ComponentDidMount(p, s, restored, timestamp) == s.(editorContent := restored.value)
    ensures ComponentDidMount(p, s, restored, timestamp).notified == s.notified
  {
  }

  /** Without a winning restore, autoplay performs exactly one play transition. */
  lemma MountAutoplays(p: Props, s: AppState, restored: Option<string>, timestamp: int)
    requires !RestoreWins(p, s, restored) && p.autoplay
    ensures ComponentDidMount(p, s, restored, timestamp) == HandlePlayClick(s, timestamp)
    ensures ComponentDidMount(p, s, restored, timestamp).notified
            == s.notified + [Notification("play", s.editorContent)]
  {
  }

  /** A missing, empty or identical restore leaves the edit buffer as it was. */
  lemma MountKeepsContent(p: Props, s: AppState, restored: Option<string>, timestamp: int)
    requires !p.hasAutosaver || restored.None? || restored.value == "" || restored.value == s.editorContent
    ensures ComponentDidMount(p, s, restored, timestamp).editorContent == s.editorContent
    ensures !p.autoplay ==> ComponentDidMount(p, s, restored, timestamp) == s
  {
  }

  /** Initial content "A", restore "B": the buffer becomes "B" and autoplay is suppressed. */
  lemma MountScenarioRestoreBeatsAutoplay(p: Props, timestamp: int)
    requires p.initialContent == "A" && p.hasAutosaver && p.autoplay
    ensures ComponentDidMount(p, Init(p), Some("B"), timestamp).editorContent == "B"
    ensures !ComponentDidMount(p, Init(p), Some("B"), timestamp).isPlaying
    ensures ComponentDidMount(p, Init(p), Some("B"), timestamp).notified == []
  {
  }

  // ----------------------------------------------------------- editor change

  /** The text an editor change saves is the text the next play announces and runs. */
  lemma EditThenPlayRunsSavedText(p: Props, s: AppState, v: string, u: bool, r: bool, timestamp: int)
    requires p.hasAutosaver
    ensures HandlePlayClick(HandleEditorChange(p, s, v, u, r), timestamp).saved == s.saved + [v]
    ensures HandlePlayClick(HandleEditorChange(p, s, v, u, r), timestamp).previewContent == v
    ensures HandlePlayClick(HandleEditorChange(p, s, v, u, r), timestamp).notified
            == s.notified + [Notification("play", v)]
    ensures HandlePlayClick(HandleEditorChange(p, s, v, u, r), timestamp).canUndo == u
    ensures HandlePlayClick(HandleEditorChange(p, s, v, u, r), timestamp).canRedo == r
  {
  }

  /** After a non-empty run of editor changes, the buffer and undo state are the last one's. */
  lemma {:induction false} LastEditWins(p: Props, s: AppState, es: seq<Event>)
    requires p.hasAutosaver && es != []
    requires forall i :: 0 <= i < |es| ==> es[i].Edited?
    decreases |es|
    ensures Run(p, s, es).editorContent == es[|es| - 1].newValue
    ensures Run(p, s, es).canUndo == es[|es| - 1].canUndo
    ensures Run(p, s, es).canRedo == es[|es| - 1].canRedo
    ensures Run(p, s, es).saved == s.saved + EditedValues(es)
    ensures Run(p, s, es).previewContent == s.previewContent
    ensures Run(p, s, es).lastError == s.lastError && Run(p, s, es).logs == s.logs
    ensures Run(p, s, es).isPlaying == s.isPlaying && Run(p, s, es).notified == s.notified
  {
    var s' := Step(p, s, es[0]);
    if |es| > 1 {
      LastEditWins(p, s', es[1..]);
    }
  }

  /** Over any stimuli, `save` receives exactly the editor changes' texts, in order. */
  lemma {:induction false} SavesFollowEdits(p: Props, s: AppState, es: seq<Event>)
    requires SavesPossible(p, es)
    ensures Run(p, s, es).saved == s.saved + EditedValues(es)
    decreases |es|
  {
    if es != [] {
      assert es[0].Edited? ==> p.hasAutosaver;
      assert SavesPossible(p, es[1..]);
      SavesFollowEdits(p, Step(p, s, es[0]), es[1..]);
    }
  }

  // -------------------------------------------------------------------- play

  /** Play announces the pre-play buffer, then snapshots it and resets the run's artifacts. */
  lemma PlaySnapshots(s: AppState, timestamp: int)
    ensures HandlePlayClick(s, timestamp).notified == s.notified + [Notification("play", s.editorContent)]
    ensures HandlePlayClick(s, timestamp).isPlaying
    ensures HandlePlayClick(s, timestamp).previewContent == s.editorContent
    ensures HandlePlayClick(s, timestamp).startPlayTimestamp == Some(timestamp)
    ensures HandlePlayClick(s, timestamp).lastError == None && HandlePlayClick(s, timestamp).logs == []
    ensures HandlePlayClick(s, timestamp).editorContent == s.editorContent
    ensures HandlePlayClick(s, timestamp).canUndo == s.canUndo
    ensures HandlePlayClick(s, timestamp).canRedo == s.canRedo
    ensures HandlePlayClick(s, timestamp).saved == s.saved
  {
  }

  /** Right after play, no error is shown anywhere and the preview is mounted. */
  lemma PlayClearsView(p: Props, s: AppState, timestamp: int)
    ensures ErrorLine(HandlePlayClick(s, timestamp)) == None
    ensures StatusError(HandlePlayClick(s, timestamp)) == None
    ensures PreviewMounted(p, HandlePlayClick(s, timestamp))
    ensures !p.hideToolbar ==> Toolbar(p, HandlePlayClick(s, timestamp)).value.stop
  {
  }

  /** Play of "x=1", then error ("ReferenceError", 3): the error and its line are shown. */
  lemma PlayErrorScenario(s: AppState, timestamp: int)
    requires s.editorContent == "x=1"
    ensures HandlePlayClick(s, timestamp).previewContent == "x=1"
    ensures HandlePlayClick(s, timestamp).notified[|s.notified|] == Notification("play", "x=1")
    ensures StatusError(HandlePreviewError(HandlePlayClick(s, timestamp), "ReferenceError", Some(3)))
            == Some(ErrorMessage("ReferenceError", Some(3)))
    ensures ErrorLine(HandlePreviewError(HandlePlayClick(s, timestamp), "ReferenceError", Some(3))) == Some(3)
  {
  }

  // -------------------------------------------------------------------- stop

  /** Stop drops the playing mark, asks the preview to stop and keeps the run's artifacts. */
  lemma StopKeepsArtifacts(p: Props, s: AppState)
    ensures !HandleStopClick(s).isPlaying && HandleStopClick(s).refCalls == s.refCalls + [PreviewStop]
    ensures HandleStopClick(s).canUndo == s.canUndo && HandleStopClick(s).canRedo == s.canRedo
    ensures HandleStopClick(s).startPlayTimestamp == s.startPlayTimestamp
    ensures HandleStopClick(s).saved == s.saved && HandleStopClick(s).notified == s.notified
    ensures HandleStopClick(s).editorContent == s.editorContent
    ensures HandleStopClick(s).previewContent == s.previewContent
    ensures HandleStopClick(s).lastError == s.lastError && HandleStopClick(s).logs == s.logs
    ensures ErrorLine(HandleStopClick(s)) == ErrorLine(s)
    ensures !p.hideToolbar ==> !Toolbar(p, HandleStopClick(s)).value.stop
    ensures PreviewMounted(p, HandleStopClick(s)) == p.showPreview
  {
  }

  // ------------------------------------------------------------- console log

  /** A console event appends its lines in order; old entries stay as a prefix. */
  lemma ConsoleLogAppends(s: AppState, messages: seq<string>)
    ensures |HandleConsoleLog(s, messages).logs| == |s.logs| + |messages|
    ensures HandleConsoleLog(s, messages).logs[..|s.logs|] == s.logs
    ensures forall i :: 0 <= i < |messages| ==>
              HandleConsoleLog(s, messages).logs[|s.logs| + i] == LogMessage(messages[i])
    ensures HandleConsoleLog(s, messages).lastError == s.lastError
  {
  }

  /** Only the error handler sets the stored error, and only play clears it. */
  lemma {:induction false} OnlyErrorsSetLastError(p: Props, s: AppState, e: Event)
    requires e.Edited? ==> p.hasAutosaver
    ensures e.Errored? ==> Step(p, s, e).lastError == Some(ErrorMessage(e.message, e.line))
    ensures e.Played? ==> Step(p, s, e).lastError == None
    ensures !e.Errored? && !e.Played? ==> Step(p, s, e).lastError == s.lastError
  {
  }

  // --------------------------------------------------- change content, revert

  /**
   * Loaded text is not run until the next play, which announces and runs exactly it;
   * meanwhile the stored error's line shows only if the loaded text is the running one.
   */
  lemma ChangeContentThenPlay(s: AppState, content: string, timestamp: int)
    ensures ChangeContent(s, content).previewContent == s.previewContent
    ensures !ChangeContent(s, content).isPlaying
    ensures ChangeContent(s, content).startPlayTimestamp == s.startPlayTimestamp
    ensures ErrorLine(ChangeContent(s, content)).Some? <==>
              s.lastError.Some? && s.lastError.value.line.Some? && content == s.previewContent
    ensures StatusError(ChangeContent(s, content)) == StatusError(s)
    ensures HandlePlayClick(ChangeContent(s, content), timestamp).previewContent == content
    ensures HandlePlayClick(ChangeContent(s, content), timestamp).notified
            == s.notified + [Notification("play", content)]
    ensures HandlePlayClick(ChangeContent(s, content), timestamp).isPlaying
  {
  }

  /** Revert is `changeContent` of the initial content; afterwards there is nothing to revert. */
  lemma RevertIsChangeContent(p: Props, s: AppState)
    ensures HandleRevertClick(p, s) == ChangeContent(s, p.initialContent)
    ensures !CanRevert(p, HandleRevertClick(p, s))
    ensures !p.hideToolbar ==> !Toolbar(p, HandleRevertClick(p, s)).value.revert
  {
  }

  /** Inbound "y=2" while playing: buffer loaded, playing mark dropped, run untouched. */
  lemma SetSourceScenario(s: AppState)
    requires s.isPlaying
    ensures ChangeContent(s, "y=2").editorContent == "y=2" && !ChangeContent(s, "y=2").isPlaying
    ensures ChangeContent(s, "y=2").previewContent == s.previewContent
    ensures ChangeContent(s, "y=2").lastError == s.lastError && ChangeContent(s, "y=2").logs == s.logs
  {
  }

  /** A "save" request with buffer "z=3" sends exactly one payload carrying "z=3". */
  lemma GetSourceScenario(s: AppState)
    requires s.editorContent == "z=3"
    ensures NotifyContent(s, "save").notified == s.notified + [Notification("save", "z=3")]
  {
  }

  // ----------------------------------------------------------- derived view

  /**
   * Editing away from the running text hides the error line but keeps the stored
   * error in the status bar.
   */
  lemma EditHidesStaleError(p: Props, s: AppState, v: string, u: bool, r: bool)
    requires p.hasAutosaver && s.lastError.Some? && v != s.previewContent
    ensures ErrorLine(HandleEditorChange(p, s, v, u, r)) == None
    ensures StatusError(HandleEditorChange(p, s, v, u, r)) == s.lastError
  {
  }

  /**
   * Editing back to exactly the running text shows the stored error's line again,
   * although that error may come from the text before the edits.
   */
  lemma StaleErrorReappears(p: Props, s: AppState, message: string, line: int,
                            away: string, u: bool, r: bool, u': bool, r': bool)
    requires p.hasAutosaver && s.lastError == Some(ErrorMessage(message, Some(line)))
    requires away != s.previewContent
    ensures ErrorLine(HandleEditorChange(p, s, away, u, r)) == None
    ensures ErrorLine(HandleEditorChange(p, HandleEditorChange(p, s, away, u, r),
                                         s.previewContent, u', r')) == Some(line)
  {
  }

  /** Toolbar enablement follows the state: stop, undo, redo and revert each by one field. */
  lemma ToolbarFollowsState(p: Props, s: AppState)
    ensures Toolbar(p, s).None? <==> p.hideToolbar
    ensures !p.hideToolbar ==>
      && Toolbar(p, s).value.play
      && (Toolbar(p, s).value.stop <==> s.isPlaying)
      && (Toolbar(p, s).value.undo <==> s.canUndo)
      && (Toolbar(p, s).value.redo <==> s.canRedo)
      && (Toolbar(p, s).value.revert <==> s.editorContent != p.initialContent)
  {
  }

  /** The editor's latest undo/redo report decides the toolbar's undo and redo buttons. */
  lemma EditDrivesUndoRedo(p: Props, s: AppState, v: string, u: bool, r: bool)
    requires p.hasAutosaver && !p.hideToolbar
    ensures Toolbar(p, HandleEditorChange(p, s, v, u, r)).value.undo == u
    ensures Toolbar(p, HandleEditorChange(p, s, v, u, r)).value.redo == r
    ensures Toolbar(p, HandleEditorChange(p, s, v, u, r)).value.revert == (v != p.initialContent)
  {
  }

  // ------------------------------------------------------ sequences of stimuli

  /** The stimuli `es` contain no play. */
  predicate NoPlay(es: seq<Event>)
  {
    forall i :: 0 <= i < |es| ==> !es[i].Played?
  }

  /** Handling `a` then `b` is handling `a + b`. */
  lemma {:induction false} RunAppend(p: Props, s: AppState, a: seq<Event>, b: seq<Event>)
    requires SavesPossible(p, a) && SavesPossible(p, b)
    ensures SavesPossible(p, a + b)
    ensures Run(p, s, a + b) == Run(p, Run(p, s, a), b)
    decreases |a|
  {
    assert forall i :: 0 <= i < |a + b| ==> (a + b)[i] == if i < |a| then a[i] else b[i - |a|];
    if a != [] {
      assert (a + b)[0] == a[0];
      assert (a + b)[1..] == a[1..] + b;
      assert a[0].Edited? ==> p.hasAutosaver;
      assert SavesPossible(p, a[1..]);
      RunAppend(p, Step(p, s, a[0]), a[1..], b);
    } else {
      assert a + b == b;
    }
  }

  /** One stimulus other than play keeps the run and appends its own console lines. */
  lemma StepWithoutPlay(p: Props, s: AppState, e: Event)
    requires e.Edited? ==> p.hasAutosaver
    requires !e.Played?
    ensures Step(p, s, e).logs == s.logs + (if e.Logged? then Wrap(e.messages) else [])
    ensures Step(p, s, e).previewContent == s.previewContent
    ensures Step(p, s, e).startPlayTimestamp == s.startPlayTimestamp
  {
  }

  /**
   * Without a play, the run buffer and run stamp stay, and the log grows by exactly
   * the console lines, in arrival order.
   */
  lemma {:induction false} LogsAccumulate(p: Props, s: AppState, es: seq<Event>)
    requires SavesPossible(p, es) && NoPlay(es)
    ensures Run(p, s, es).logs == s.logs + LoggedMessages(es)
    ensures Run(p, s, es).previewContent == s.previewContent
    ensures Run(p, s, es).startPlayTimestamp == s.startPlayTimestamp
    decreases |es|
  {
    if es != [] {
      assert es[0].Edited? ==> p.hasAutosaver;
      assert SavesPossible(p, es[1..]) && NoPlay(es[1..]);
      var s' := Step(p, s, es[0]);
      var own := if es[0].Logged? then Wrap(es[0].messages) else [];
      StepWithoutPlay(p, s, es[0]);
      LogsAccumulate(p, s', es[1..]);
      assert LoggedMessages(es) == own + LoggedMessages(es[1..]);
      assert s.logs + own + LoggedMessages(es[1..]) == s.logs + (own + LoggedMessages(es[1..]));
    }
  }

  /**
   * After the last play of a sequence, the log holds exactly the console lines
   * received since, and the run buffer and stamp are those that play set.
   */
  lemma LogsSinceLastPlay(p: Props, s: AppState, before: seq<Event>, timestamp: int, after: seq<Event>)
    requires SavesPossible(p, before) && SavesPossible(p, after) && NoPlay(after)
    ensures SavesPossible(p, before + [Played(timestamp)] + after)
    ensures Run(p, s, before + [Played(timestamp)] + after).logs == LoggedMessages(after)
    ensures Run(p, s, before + [Played(timestamp)] + after).previewContent == Run(p, s, before).editorContent
    ensures Run(p, s, before + [Played(timestamp)] + after).startPlayTimestamp == Some(timestamp)
  {
    var play := [Played(timestamp)];
    assert SavesPossible(p, play);
    RunAppend(p, s, before, play);
    RunAppend(p, s, before + play, after);
    var mid := Run(p, s, before);
    assert Run(p, mid, play) == HandlePlayClick(mid, timestamp) by {
      assert play[1..] == [];
    }
    LogsAccumulate(p, HandlePlayClick(mid, timestamp), after);
  }

  // ----------------------------------------- the run buffer was announced

  /**
   * Once a run has started, the last "play" payload sent to the embedding page
   * carries exactly the text the preview is running.
   */
  predicate RunBufferAnnounced(s: AppState)
  {
    s.startPlayTimestamp.Some? ==> LastPlayed(s.notified) == Some(s.previewContent)
  }

  /** A payload under another name does not change the last "play" payload. */
  lemma LastPlayedSkips(ns: seq<Notification>, n: Notification)
    requires n.name != "play"
    ensures LastPlayed(ns + [n]) == LastPlayed(ns)
  {
    assert (ns + [n])[..|ns|] == ns;
  }

  /** The constructor's state satisfies the invariant. */
  lemma InitAnnounced(p: Props)
    ensures RunBufferAnnounced(Init(p))
  {
  }

  /** Mounting keeps the invariant, whether it restores, autoplays or does nothing. */
  lemma MountKeepsAnnounced(p: Props, s: AppState, restored: Option<string>, timestamp: int)
    requires RunBufferAnnounced(s)
    ensures RunBufferAnnounced(ComponentDidMount(p, s, restored, timestamp))
  {
  }

  /** Every stimulus keeps the invariant, except an outside "play" notification. */
  lemma {:induction false} StepKeepsAnnounced(p: Props, s: AppState, e: Event)
    requires e.Edited? ==> p.hasAutosaver
    requires RunBufferAnnounced(s) && !(e.Notified? && e.name == "play")
    ensures RunBufferAnnounced(Step(p, s, e))
  {
    if e.Notified? {
      LastPlayedSkips(s.notified, Notification(e.name, s.editorContent));
    }
  }

  /** Any sequence of stimuli keeps the invariant, except outside "play" notifications. */
  lemma {:induction false} RunKeepsAnnounced(p: Props, s: AppState, es: seq<Event>)
    requires SavesPossible(p, es) && RunBufferAnnounced(s)
    requires forall i :: 0 <= i < |es| ==> !(es[i].Notified? && es[i].name == "play")
    ensures RunBufferAnnounced(Run(p, s, es))
    decreases |es|
  {
    if es != [] {
      assert es[0].Edited? ==> p.hasAutosaver;
      assert SavesPossible(p, es[1..]);
      StepKeepsAnnounced(p, s, es[0]);
      RunKeepsAnnounced(p, Step(p, s, es[0]), es[1..]);
    }
  }
}

/** Properties of the MCQ view's state machine: what each event does and
    leaves alone, and what holds along any sequence of events. */
module McqProperties {
  import opened McqTypes
  import opened Screenshots
  import opened McqMachine
  import opened McqRender

  // ---------------------------------------------------------------------
  // Single events

  /** A start shows the spinner over a cleared result, with the start
      message, and requests a screenshot refresh; the list itself stays as
      it is until that request completes. */
  lemma StartClearsResult(s: ViewState)
    ensures var t := Step(s, Start);
      t.isProcessing && t.hasReceivedMCQStart && t.mcqData == None &&
      t.processingMessage == StartMessage &&
      t.extraScreenshots == s.extraScreenshots && t.cacheSlot == s.cacheSlot &&
      t.toasts == s.toasts && t.lastRequestedView == s.lastRequestedView &&
      t.calls == s.calls + [GetScreenshots] &&
      SpinnerVisible(t) && !ResultsVisible(t) && SpinnerText(t) == StartMessage
  {
  }

  /** A status update changes the progress message and nothing else,
      whether or not the view is processing. */
  lemma StatusOnlySetsMessage(s: ViewState, m: string)
    ensures Step(s, Status(m)) == s.(processingMessage := m)
  {
  }

  /** A success settles the result, clears the message, fills the cache
      slot with the same result and requests a screenshot refresh; the
      results block shows exactly when the result has questions. */
  lemma SuccessSettles(s: ViewState, d: MCQResponse)
    ensures var t := Step(s, Success(d));
      !t.isProcessing && t.processingMessage == "" &&
      t.mcqData == Some(d) && t.cacheSlot == Some(d) &&
      t.hasReceivedMCQStart == s.hasReceivedMCQStart &&
      t.extraScreenshots == s.extraScreenshots && t.toasts == s.toasts &&
      t.lastRequestedView == s.lastRequestedView &&
      t.calls == s.calls + [GetScreenshots] &&
      !SpinnerVisible(t) && (ResultsVisible(t) <==> |d.questions| > 0)
  {
  }

  /** An error stops processing, clears the message, raises exactly one
      toast carrying the error and asks for the queue view; the result, the
      cache slot and the screenshot list are left as they were. */
  lemma ErrorKeepsResult(s: ViewState, err: string)
    ensures var t := Step(s, Error(err));
      !t.isProcessing && t.processingMessage == "" &&
      t.toasts == s.toasts + [Toast("MCQ Processing Failed", err, "error")] &&
      |t.toasts| == |s.toasts| + 1 &&
      t.lastRequestedView == Some(Queue) &&
      t.mcqData == s.mcqData && t.cacheSlot == s.cacheSlot &&
      t.extraScreenshots == s.extraScreenshots &&
      t.hasReceivedMCQStart == s.hasReceivedMCQStart && t.calls == s.calls
  {
  }

  /** A reset, from any state, empties the result, the cache slot and the
      list, stops processing, forgets the start and asks for the queue view. */
  lemma ResetClears(s: ViewState)
    ensures var t := Step(s, Reset);
      t.cacheSlot == None && t.mcqData == None && t.extraScreenshots == [] &&
      !t.isProcessing && !t.hasReceivedMCQStart && t.lastRequestedView == Some(Queue) &&
      t.processingMessage == s.processingMessage && t.toasts == s.toasts && t.calls == s.calls &&
      !SpinnerVisible(t) && !ResultsVisible(t)
  {
  }

  /** The no-screenshots event changes nothing and raises no toast. */
  lemma NoScreenshotsIgnored(s: ViewState)
    ensures Step(s, NoScreenshots) == s
    ensures |Step(s, NoScreenshots).toasts| == |s.toasts|
  {
  }

  /** A completed screenshot query replaces the whole list by the
      normalised reply; a failed one empties it. Nothing else changes. */
  lemma FetchReplacesList(s: ViewState, reply: ScreenshotsReply, now: int)
    ensures Step(s, ScreenshotsFetched(reply, now)) == s.(extraScreenshots := Normalize(reply, now))
    ensures |Step(s, ScreenshotsFetched(reply, now)).extraScreenshots| == |Entries(reply)|
    ensures Step(s, ScreenshotsFetchFailed) == s.(extraScreenshots := [])
  {
  }

  /** A delete request for a position outside the list sends nothing and
      changes nothing; inside the list it sends one delete for that entry's
      path and changes nothing else yet. */
  lemma DeleteRequestIssuesOneCall(s: ViewState, i: int)
    ensures !(0 <= i < |s.extraScreenshots|) ==> Step(s, DeleteRequested(i)) == s
    ensures 0 <= i < |s.extraScreenshots| ==>
      Step(s, DeleteRequested(i)) ==
        s.(calls := s.calls + [DeleteScreenshot(s.extraScreenshots[i].path)])
  {
  }

  /** When the platform acknowledges a delete, exactly position `i` leaves
      the list and the rest keep their order; when it fails, the list is
      unchanged and one toast is raised. */
  lemma DeleteSettles(s: ViewState, i: int, ok: bool)
    requires 0 <= i < |s.extraScreenshots|
    ensures var t := Step(s, DeleteSettled(i, ok)); var n := |s.extraScreenshots|;
      if ok then
        |t.extraScreenshots| == n - 1 &&
        t.extraScreenshots == s.extraScreenshots[..i] + s.extraScreenshots[i + 1..] &&
        t.toasts == s.toasts
      else
        t.extraScreenshots == s.extraScreenshots &&
        t.toasts == s.toasts + [DeleteFailedToast]
    ensures Step(s, DeleteSettled(i, ok)) ==
      if ok then s.(extraScreenshots := Without(s.extraScreenshots, i))
      else s.(toasts := s.toasts + [DeleteFailedToast])
  {
  }

  // ---------------------------------------------------------------------
  // Activation and the cache slot

  /** With an empty cache slot, activation leaves the initial state as it is. */
  lemma MountOnCacheMiss()
    ensures Mount(None) == Initial(None)
    ensures SpinnerVisible(Mount(None)) && SpinnerText(Mount(None)) == DefaultSpinnerText
  {
  }

  /** A success followed by a remount: the new view reads the same result
      back from the slot and shows it settled. */
  lemma SuccessSurvivesRemount(s: ViewState, d: MCQResponse)
    ensures var m := Mount(Step(s, Success(d)).cacheSlot);
      !m.isProcessing && m.mcqData == Some(d) && m.hasReceivedMCQStart &&
      m.extraScreenshots == [] && (ResultsVisible(m) <==> |d.questions| > 0)
  {
  }

  // ---------------------------------------------------------------------
  // Sequences of events

  lemma {:induction false} RunAppend(s: ViewState, a: seq<Event>, b: seq<Event>)
    ensures Run(s, a + b) == Run(Run(s, a), b)
    decreases |a|
  {
    if a == [] {
      assert a + b == b;
    } else {
      assert (a + b)[0] == a[0];
      assert (a + b)[1..] == a[1..] + b;
      RunAppend(Step(s, a[0]), a[1..], b);
    }
  }

  /** Whatever happened before, a final reset leaves the idle state with no
      result, no cached result and no screenshots. */
  lemma ResetAfterAnyTrace(s: ViewState, evs: seq<Event>)
    ensures var t := Run(s, evs + [Reset]);
      t.cacheSlot == None && t.mcqData == None && t.extraScreenshots == [] &&
      !t.isProcessing && !t.hasReceivedMCQStart && t.lastRequestedView == Some(Queue) &&
      !SpinnerVisible(t) && !ResultsVisible(t)
  {
    RunAppend(s, evs, [Reset]);
    assert Run(Run(s, evs), [Reset]) == Step(Run(s, evs), Reset);
  }

  /** Once the start is recorded, only a reset can turn it off again. */
  lemma {:induction false} OnlyResetForgetsStart(s: ViewState, evs: seq<Event>)
    requires s.hasReceivedMCQStart
    requires !Run(s, evs).hasReceivedMCQStart
    ensures Reset in evs
    decreases |evs|
  {
    if evs != [] && evs[0] != Reset {
      OnlyResetForgetsStart(Step(s, evs[0]), evs[1..]);
      assert evs == [evs[0]] + evs[1..];
    }
  }

  /** Any result the view holds is the one in the cache slot. */
  predicate ShownIsCached(s: ViewState)
  {
    s.mcqData.Some? ==> s.mcqData == s.cacheSlot
  }

  lemma {:induction false} RunKeepsShownIsCached(s: ViewState, evs: seq<Event>)
    requires ShownIsCached(s)
    ensures ShownIsCached(Run(s, evs))
    decreases |evs|
  {
    if evs != [] {
      RunKeepsShownIsCached(Step(s, evs[0]), evs[1..]);
    }
  }

  /** Whatever events a mounted view has handled, a result it holds is
      recovered, settled, by a view mounted afterwards on the same slot. */
  lemma RemountRecoversResult(cache: Option<MCQResponse>, evs: seq<Event>)
    ensures var t := Run(Mount(cache), evs);
      t.mcqData.Some? ==>
        Mount(t.cacheSlot).mcqData == t.mcqData && !Mount(t.cacheSlot).isProcessing
  {
    RunKeepsShownIsCached(Mount(cache), evs);
  }

  /** The cache slot is written only by a success and emptied only by a
      reset: after any events it holds what it held before, nothing after a
      reset, or the payload of some success among those events. */
  lemma {:induction false} CacheWrittenOnlyBySuccess(s: ViewState, evs: seq<Event>)
    ensures var c := Run(s, evs).cacheSlot;
      c == s.cacheSlot || (c == None && Reset in evs) || (c.Some? && Success(c.value) in evs)
    decreases |evs|
  {
    if evs != [] {
      var t := Step(s, evs[0]);
      CacheWrittenOnlyBySuccess(t, evs[1..]);
      assert evs == [evs[0]] + evs[1..];
    }
  }

  /** No event breaks the rule that a screenshot's identifier is its path. */
  lemma StepKeepsIdsArePaths(s: ViewState, e: Event)
    requires IdsArePaths(s.extraScreenshots)
    ensures IdsArePaths(Step(s, e).extraScreenshots)
  {
    match e
    case ScreenshotsFetched(reply, now) => NormalizeIdsArePaths(reply, now);
    case DeleteSettled(i, ok) => WithoutIdsArePaths(s.extraScreenshots, i);
    case _ =>
  }

  lemma {:induction false} RunKeepsIdsArePaths(s: ViewState, evs: seq<Event>)
    requires IdsArePaths(s.extraScreenshots)
    ensures IdsArePaths(Run(s, evs).extraScreenshots)
    decreases |evs|
  {
    if evs != [] {
      StepKeepsIdsArePaths(s, evs[0]);
      RunKeepsIdsArePaths(Step(s, evs[0]), evs[1..]);
    }
  }

  /** The source has no staleness guard: a screenshot query that completes
      after a reset fills the list that the reset emptied. */
  lemma FetchAfterResetRepopulates(s: ViewState, e: PreviewEntry, now: int)
    ensures Run(s, [Reset, ScreenshotsFetched(Bare([e]), now)]).extraScreenshots ==
      [Screenshot(e.path, e.path, e.preview, now)]
  {
    var f := ScreenshotsFetched(Bare([e]), now);
    assert [Reset, f][1..] == [f];
    assert [f][1..] == [];
    assert Run(s, [Reset, f]) == Run(Step(s, Reset), [f]) == Step(Step(s, Reset), f);
    assert ToScreenshots([e], now) == [Stamp(e, now)];
  }

  /** A start clears the held result but not the cache slot: a view mounted
      while the new run is under way, or the first activation effect run
      again, shows the previous result as settled, with no spinner. */
  lemma StartKeepsStaleCache(s: ViewState, d: MCQResponse)
    ensures var t := Step(Step(s, Success(d)), Start);
      t.isProcessing && t.mcqData.None? && t.cacheSlot == Some(d) &&
      !Mount(t.cacheSlot).isProcessing && Mount(t.cacheSlot).mcqData == Some(d) &&
      !SpinnerVisible(Mount(t.cacheSlot)) &&
      !Step(t, Activate).isProcessing && Step(t, Activate).mcqData == Some(d) &&
      !SpinnerVisible(Step(t, Activate))
  {
  }

  /** A one-question run: activation on an empty slot, a start, a status
      update, a success, and the refresh that the success triggered. */
  lemma OneQuestionScenario(e: PreviewEntry, now: int)
    ensures
      var q := MCQData("2+2?", [MCQOption("A", "3"), MCQOption("B", "4")], "B", "basic arithmetic");
      var r := MCQResponse([q]);
      var t := Run(Mount(None),
        [Start, Status("step 2"), Success(r), ScreenshotsFetched(Bare([e]), now)]);
      !t.isProcessing && t.processingMessage == "" && t.mcqData == Some(r) &&
      t.cacheSlot == Some(r) && t.calls == [GetScreenshots, GetScreenshots] &&
      t.extraScreenshots == [Stamp(e, now)] && ResultsVisible(t) && !SpinnerVisible(t)
  {
    var q := MCQData("2+2?", [MCQOption("A", "3"), MCQOption("B", "4")], "B", "basic arithmetic");
    var r := MCQResponse([q]);
    var s0 := Mount(None);
    var s1 := Step(s0, Start);
    var s2 := Step(s1, Status("step 2"));
    var s3 := Step(s2, Success(r));
    var s4 := Step(s3, ScreenshotsFetched(Bare([e]), now));
    RunAppend(s0, [Start], [Status("step 2"), Success(r), ScreenshotsFetched(Bare([e]), now)]);
    RunAppend(s1, [Status("step 2")], [Success(r), ScreenshotsFetched(Bare([e]), now)]);
    RunAppend(s2, [Success(r)], [ScreenshotsFetched(Bare([e]), now)]);
    assert Run(s3, [ScreenshotsFetched(Bare([e]), now)]) == s4;
  }
}

/** The MCQ view's processing state machine as a pure transition function.
    A `ViewState` gathers the view's state hooks, the external `["mcq"]`
    cache slot, and the three side channels the view writes to (the last
    view it asked the shell for, the toasts it raised and the requests it
    sent to the platform bridge). Every event handler, every completion of
    an awaited bridge call, and the two on-activation cache reads is one
    `Event`; `Step` applies one, `Run` applies a sequence. */
module McqMachine {
  import opened McqTypes
  import opened Screenshots

  /** The views the shell can be asked to show. */
  datatype ViewName = Queue | Solutions | Debug | Mcq

  /** A user-visible notification: title, description and variant. */
  datatype Toast = Toast(title: string, description: string, variant: string)

  /** A request the view sends to the platform bridge. */
  datatype BridgeCall = GetScreenshots | DeleteScreenshot(path: string)

  datatype ViewState = ViewState(
    mcqData: Option<MCQResponse>,
    isProcessing: bool,
    processingMessage: string,
    hasReceivedMCQStart: bool,
    extraScreenshots: seq<Screenshot>,
    cacheSlot: Option<MCQResponse>,
    lastRequestedView: Option<ViewName>,
    toasts: seq<Toast>,
    calls: seq<BridgeCall>)

  datatype Event =
    | Activate                 // first effect: cache read on activation
    | LoadCache                // second effect: cache read into the result only
    | Start                    // onMCQStart
    | Status(message: string)  // onProcessingStatus (its progress is unused)
    | Success(data: MCQResponse)  // onMCQSuccess
    | Error(error: string)     // onMCQError
    | Reset                    // onResetView
    | NoScreenshots            // onProcessingNoScreenshots
    | ScreenshotsFetched(reply: ScreenshotsReply, now: int)  // getScreenshots resolved
    | ScreenshotsFetchFailed   // getScreenshots (or its mapping) threw
    | DeleteRequested(index: int)  // handleDeleteExtraScreenshot up to its await
    | DeleteSettled(index: int, succeeded: bool)  // deleteScreenshot resolved or rejected

  const InitialMessage := "Analyzing MCQ and generating answers..."
  const StartMessage := "Analyzing MCQ question from screenshots..."
  const DeleteFailedToast := Toast("Error", "Failed to delete screenshot", "error")

  function ProcessingFailedToast(error: string): Toast
  {
    Toast("MCQ Processing Failed", error, "error")
  }

  /** The state a freshly created view starts in: optimistically processing,
      with the start already assumed received; `cache` is whatever the
      external slot holds at that moment. */
  function Initial(cache: Option<MCQResponse>): (s: ViewState)
    ensures s.isProcessing && s.hasReceivedMCQStart && s.mcqData.None?
    ensures s.processingMessage == InitialMessage && s.extraScreenshots == []
    ensures s.cacheSlot == cache
    ensures s.lastRequestedView.None? && s.toasts == [] && s.calls == []
  {
    ViewState(None, true, InitialMessage, true, [], cache, None, [], [])
  }

  /** One event handled. Besides what each event does (see McqProperties),
      the contract says which events may touch which parts of the state. */
  function Step(s: ViewState, e: Event): (r: ViewState)
    // only a reset forgets the start; only a start or a cache hit records it
    ensures s.hasReceivedMCQStart && !r.hasReceivedMCQStart ==> e.Reset?
    ensures !s.hasReceivedMCQStart && r.hasReceivedMCQStart ==> e.Start? || e.Activate?
    // only a success writes the cache slot and only a reset empties it
    ensures r.cacheSlot != s.cacheSlot ==> (e.Success? && r.cacheSlot == Some(e.data)) || (e.Reset? && r.cacheSlot.None?)
    // only a start, a status update, a success or an error touch the message
    ensures r.processingMessage != s.processingMessage ==> e.Start? || e.Status? || e.Success? || e.Error?
    // the side channels only grow, by at most one entry each
    ensures r.toasts == s.toasts || (|r.toasts| == |s.toasts| + 1 && r.toasts[..|s.toasts|] == s.toasts)
    ensures r.toasts != s.toasts ==> e.Error? || e.DeleteSettled?
    ensures r.calls == s.calls || (|r.calls| == |s.calls| + 1 && r.calls[..|s.calls|] == s.calls)
    // the screenshot list never grows except by a completed query
    ensures |r.extraScreenshots| > |s.extraScreenshots| ==> e.ScreenshotsFetched?
  {
    match e
    case Activate =>
      if s.cacheSlot.Some?
      then s.(isProcessing := false, mcqData := s.cacheSlot, hasReceivedMCQStart := true)
      else s
    case LoadCache =>
      if s.cacheSlot.Some? then s.(mcqData := s.cacheSlot) else s
    case Start =>
      s.(isProcessing := true, hasReceivedMCQStart := true, mcqData := None,
         processingMessage := StartMessage, calls := s.calls + [GetScreenshots])
    case Status(m) =>
      s.(processingMessage := m)
    case Success(d) =>
      s.(isProcessing := false, processingMessage := "", mcqData := Some(d),
         cacheSlot := Some(d), calls := s.calls + [GetScreenshots])
    case Error(err) =>
      s.(isProcessing := false, processingMessage := "",
         toasts := s.toasts + [ProcessingFailedToast(err)], lastRequestedView := Some(Queue))
    case Reset =>
      s.(cacheSlot := None, mcqData := None, extraScreenshots := [], isProcessing := false,
         hasReceivedMCQStart := false, lastRequestedView := Some(Queue))
    case NoScreenshots =>
      s
    case ScreenshotsFetched(reply, now) =>
      s.(extraScreenshots := Normalize(reply, now))
    case ScreenshotsFetchFailed =>
      s.(extraScreenshots := [])
    case DeleteRequested(i) =>
      if 0 <= i < |s.extraScreenshots|
      then s.(calls := s.calls + [DeleteScreenshot(s.extraScreenshots[i].path)])
      else s
    case DeleteSettled(i, ok) =>
      if ok then s.(extraScreenshots := Without(s.extraScreenshots, i))
      else s.(toasts := s.toasts + [DeleteFailedToast])
  }

  /** The events applied one after another, in delivery order. */
  function Run(s: ViewState, evs: seq<Event>): (r: ViewState)
    // the toast log and the request log are only ever appended to,
    // by at most one entry per event
    ensures |s.toasts| <= |r.toasts| <= |s.toasts| + |evs| && r.toasts[..|s.toasts|] == s.toasts
    ensures |s.calls| <= |r.calls| <= |s.calls| + |evs| && r.calls[..|s.calls|] == s.calls
    decreases |evs|
  {
    if evs == [] then s else Run(Step(s, evs[0]), evs[1..])
  }

  /** A view created while the slot holds `cache`, after both activation
      effects have run. */
  function Mount(cache: Option<MCQResponse>): (r: ViewState)
    ensures cache.Some? ==> !r.isProcessing && r.mcqData == cache && r.hasReceivedMCQStart
    ensures cache.None? ==> r == Initial(None)
    ensures r.cacheSlot == cache && r.extraScreenshots == [] && r.toasts == [] && r.calls == []
  {
    Step(Step(Initial(cache), Activate), LoadCache)
  }
}

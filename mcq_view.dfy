/** The MCQ view as an object: one field per state hook of the component,
    a reference to the external `["mcq"]` cache slot, and the side channels
    it writes to. Each handler is a method that assigns those fields as the
    source's setters do; each states the whole new state and ties it to
    `McqMachine.Step`, about which the properties are proved. */
module McqView {
  import opened McqTypes
  import opened Screenshots
  import opened McqMachine

  /** The `["mcq"]` entry of the shared query cache. It outlives any one
      view, so a view mounted later reads what an earlier one wrote. */
  class CacheSlot {
    var entry: Option<MCQResponse>

    constructor (initial: Option<MCQResponse>)
      ensures entry == initial
    {
      entry := initial;
    }
  }

  class View {
    var mcqData: Option<MCQResponse>
    var isProcessing: bool
    var processingMessage: string
    var extraScreenshots: seq<Screenshot>
    var hasReceivedMCQStart: bool
    var lastRequestedView: Option<ViewName>
    var toasts: seq<Toast>
    var calls: seq<BridgeCall>
    const cache: CacheSlot

    /** The object's state as a `ViewState` value. */
    function Snapshot(): ViewState
      reads this, cache
    {
      ViewState(mcqData, isProcessing, processingMessage, hasReceivedMCQStart,
                extraScreenshots, cache.entry, lastRequestedView, toasts, calls)
    }

    /** A new view: processing, start assumed received, no result, no
        screenshots, the default message. */
    constructor (cache: CacheSlot)
      ensures this.cache == cache
      ensures mcqData == None && isProcessing && hasReceivedMCQStart
      ensures processingMessage == InitialMessage && extraScreenshots == []
      ensures lastRequestedView == None && toasts == [] && calls == []
      ensures Snapshot() == Initial(cache.entry)
    {
      this.cache := cache;
      mcqData := None;
      isProcessing := true;
      processingMessage := InitialMessage;
      extraScreenshots := [];
      hasReceivedMCQStart := true;
      lastRequestedView := None;
      toasts := [];
      calls := [];
    }

    /** The first activation effect: a cached result overrides the
        optimistic processing state; a miss changes nothing. */
    method ActivateFromCache()
      modifies this
      ensures old(cache.entry).Some? ==>
        !isProcessing && mcqData == old(cache.entry) && hasReceivedMCQStart
      ensures old(cache.entry).None? ==>
        isProcessing == old(isProcessing) && mcqData == old(mcqData) &&
        hasReceivedMCQStart == old(hasReceivedMCQStart)
      ensures processingMessage == old(processingMessage) && extraScreenshots == old(extraScreenshots)
      ensures lastRequestedView == old(lastRequestedView) && toasts == old(toasts) && calls == old(calls)
      ensures Snapshot() == Step(old(Snapshot()), Activate)
    {
      var cached := cache.entry;
      if cached.Some? {
        isProcessing := false;
        mcqData := cached;
        hasReceivedMCQStart := true;
      }
    }

    /** The second activation effect: a cached result becomes the result. */
    method LoadCachedData()
      modifies this
      ensures mcqData == if old(cache.entry).Some? then old(cache.entry) else old(mcqData)
      ensures isProcessing == old(isProcessing) && hasReceivedMCQStart == old(hasReceivedMCQStart)
      ensures processingMessage == old(processingMessage) && extraScreenshots == old(extraScreenshots)
      ensures lastRequestedView == old(lastRequestedView) && toasts == old(toasts) && calls == old(calls)
      ensures Snapshot() == Step(old(Snapshot()), LoadCache)
    {
      var cached := cache.entry;
      if cached.Some? {
        mcqData := cached;
      }
    }

    /** onMCQStart: processing again, result cleared, start recorded, and a
        screenshot query sent; the list waits for that query's completion. */
    method OnStart()
      modifies this
      ensures isProcessing && hasReceivedMCQStart && mcqData == None
      ensures processingMessage == StartMessage
      ensures calls == old(calls) + [GetScreenshots]
      ensures extraScreenshots == old(extraScreenshots)
      ensures lastRequestedView == old(lastRequestedView) && toasts == old(toasts)
      ensures Snapshot() == Step(old(Snapshot()), Start)
    {
      isProcessing := true;
      hasReceivedMCQStart := true;
      mcqData := None;
      processingMessage := StartMessage;
      calls := calls + [GetScreenshots];
    }

    /** onProcessingStatus: only the message changes. */
    method OnStatus(message: string)
      modifies this`processingMessage
      ensures processingMessage == message
      ensures Snapshot() == Step(old(Snapshot()), Status(message))
    {
      processingMessage := message;
    }

    /** onMCQSuccess: settled on `data`, which is also written to the cache
        slot, and a screenshot query sent. */
    method OnSuccess(data: MCQResponse)
      modifies this, cache
      ensures !isProcessing && processingMessage == "" && mcqData == Some(data)
      ensures cache.entry == Some(data)
      ensures calls == old(calls) + [GetScreenshots]
      ensures hasReceivedMCQStart == old(hasReceivedMCQStart) && extraScreenshots == old(extraScreenshots)
      ensures lastRequestedView == old(lastRequestedView) && toasts == old(toasts)
      ensures Snapshot() == Step(old(Snapshot()), Success(data))
    {
      isProcessing := false;
      processingMessage := "";
      mcqData := Some(data);
      cache.entry := Some(data);
      calls := calls + [GetScreenshots];
    }

    /** onMCQError: processing stops, one toast, back to the queue view. */
    method OnError(error: string)
      modifies this
      ensures !isProcessing && processingMessage == ""
      ensures toasts == old(toasts) + [ProcessingFailedToast(error)]
      ensures lastRequestedView == Some(Queue)
      ensures mcqData == old(mcqData) && extraScreenshots == old(extraScreenshots)
      ensures hasReceivedMCQStart == old(hasReceivedMCQStart) && calls == old(calls)
      ensures Snapshot() == Step(old(Snapshot()), Error(error))
    {
      isProcessing := false;
      processingMessage := "";
      toasts := toasts + [ProcessingFailedToast(error)];
      lastRequestedView := Some(Queue);
    }

    /** onResetView: cache slot, result and list emptied, idle, start
        forgotten, back to the queue view. */
    method OnReset()
      modifies this, cache
      ensures cache.entry == None && mcqData == None && extraScreenshots == []
      ensures !isProcessing && !hasReceivedMCQStart && lastRequestedView == Some(Queue)
      ensures processingMessage == old(processingMessage) && toasts == old(toasts) && calls == old(calls)
      ensures Snapshot() == Step(old(Snapshot()), Reset)
    {
      cache.entry := None;
      mcqData := None;
      extraScreenshots := [];
      isProcessing := false;
      hasReceivedMCQStart := false;
      lastRequestedView := Some(Queue);
    }

    /** onProcessingNoScreenshots: ignored in this view. */
    method OnNoScreenshots()
      ensures Snapshot() == Step(Snapshot(), NoScreenshots)
    {
    }

    /** A screenshot query resolved with `reply` at time `now`: the list is
        replaced wholesale, with no check that the query is still current. */
    method FetchCompleted(reply: ScreenshotsReply, now: int)
      modifies this`extraScreenshots
      ensures extraScreenshots == Normalize(reply, now)
      ensures Snapshot() == Step(old(Snapshot()), ScreenshotsFetched(reply, now))
    {
      extraScreenshots := Normalize(reply, now);
    }

    /** A screenshot query rejected (or its reply could not be mapped):
        the list is emptied; nothing is shown to the user. */
    method FetchFailed()
      modifies this`extraScreenshots
      ensures extraScreenshots == []
      ensures Snapshot() == Step(old(Snapshot()), ScreenshotsFetchFailed)
    {
      extraScreenshots := [];
    }

    /** The part of handleDeleteExtraScreenshot before its await: an entry at
        `index` is resolved to its path and a delete is sent for it; an index
        outside the list sends nothing. */
    method RequestDelete(index: int) returns (issued: Option<string>)
      modifies this`calls
      ensures 0 <= index < |extraScreenshots| ==>
        issued == Some(extraScreenshots[index].path) && calls == old(calls) + [DeleteScreenshot(issued.value)]
      ensures !(0 <= index < |extraScreenshots|) ==> issued == None && calls == old(calls)
      ensures Snapshot() == Step(old(Snapshot()), DeleteRequested(index))
    {
      if 0 <= index < |extraScreenshots| {
        var target := extraScreenshots[index];
        issued := Some(target.path);
        calls := calls + [DeleteScreenshot(target.path)];
      } else {
        issued := None;
      }
    }

    /** The part after the await: on success the entry at `index` of the list
        as it is NOW is filtered out; on failure one toast, list unchanged. */
    method DeleteCompleted(index: int, succeeded: bool)
      modifies this`extraScreenshots, this`toasts
      ensures succeeded ==> extraScreenshots == Without(old(extraScreenshots), index) && toasts == old(toasts)
      ensures !succeeded ==> extraScreenshots == old(extraScreenshots) && toasts == old(toasts) + [DeleteFailedToast]
      ensures Snapshot() == Step(old(Snapshot()), DeleteSettled(index, succeeded))
    {
      if succeeded {
        extraScreenshots := Without(extraScreenshots, index);
      } else {
        toasts := toasts + [DeleteFailedToast];
      }
    }
  }

  /** A view mounted on `cache`: constructed, then both activation effects. */
  method MountView(cache: CacheSlot) returns (v: View)
    modifies {}
    ensures fresh(v) && v.cache == cache
    ensures v.Snapshot() == Mount(cache.entry)
  {
    v := new View(cache);
    v.ActivateFromCache();
    v.LoadCachedData();
  }
}

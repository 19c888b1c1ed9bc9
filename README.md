# MCQ view: processing state machine, screenshot mirror and result cache

This project models the core of the multiple-choice-question view of a desktop
interview assistant (`src/_pages/MCQ.tsx`). The view reacts to six platform
events: start, status, success, error, reset and no-screenshots. It keeps a
local copy of the platform's screenshot list, and it stores the last successful
result in the `["mcq"]` slot of a shared query cache, so that the result is
still there when the view is mounted again.

The model is in six modules:

- `McqTypes` (`mcq_types.dfy`) holds the result shapes of `src/types/mcq.ts`
  (`MCQOption`, `MCQData`, `MCQResponse`) and an `Option` for `null`.
  `label` is a Dafny keyword, so the option's label field is called `optionLabel`.
- `Screenshots` (`screenshots.dfy`) holds the pure parts of the screenshot
  mirror. It normalises a `getScreenshots` reply, which may be a bare array,
  a `{previews}` envelope or nothing, into `Screenshot` records. It also holds
  the index filter that a confirmed delete applies.
- `McqMachine` (`mcq_machine.dfy`) is the state machine as a pure function.
  `ViewState` holds the view's state hooks, the cache slot, and three side
  channels: the last view requested from the shell, the toasts raised, and the
  requests sent to the platform bridge. There is one `Event` for each event
  handler, for each completion of an awaited bridge call, and for each of the
  two activation effects. `Step` applies one event and `Run` applies a sequence.
- `McqRender` (`mcq_render.dfy`) holds the two visibility conditions (spinner
  and results block) and the spinner's fallback text.
- `McqProperties` (`mcq_properties.dfy`) holds the lemmas about single
  events and about arbitrary event sequences.
- `McqView` (`mcq_view.dfy`) is the view as an object. `View` has one field per
  state hook, and `CacheSlot` is the shared cache entry, which outlives any one
  view. Each handler is a method that assigns the fields the source's setters
  assign. Each method states the object's whole new state and proves
  `Snapshot() == Step(old(Snapshot()), e)`, so every lemma about `Step` and
  `Run` also holds for the object.

Each awaited call (`getScreenshots`, `deleteScreenshot`) is split in two. The
handler records a request, and a later, separate step delivers the outcome.
The model passes the outcome in as a parameter: the reply and its receipt time,
or success or failure.

## Model

| member | source | states |
|---|---|---|
| `McqView.CacheSlot.constructor` | src/_pages/MCQ.tsx:23 | The `["mcq"]` entry of the shared query client, which outlives any one view, starts with the given contents |
| `McqMachine.Initial` | src/_pages/MCQ.tsx:25-31 | The state of a freshly created view: processing, start assumed received, no result, the default message, no screenshots, whatever the slot already holds |
| `McqMachine.Step` | src/_pages/MCQ.tsx:36-164 | One handler, activation read or completion applied; only a reset clears the start flag, only a start or a cache hit sets it, only a success writes the slot and only a reset empties it, toasts and requests grow by at most one, and only a completed query can lengthen the screenshot list |
| `McqMachine.Run` | src/_pages/MCQ.tsx:63-139 | Events handled one after another in delivery order; the toast and request logs are only appended to, at most one entry per event |
| `McqMachine.Mount` | src/_pages/MCQ.tsx:25-153 | A view created on the slot after both activation effects: a cached result is shown settled with the start recorded; on a miss the state is the initial one |
| `McqView.View.constructor` | src/_pages/MCQ.tsx:25-31 | A new view has no result, is processing, assumes the start was received, shows the default message and has an empty screenshot list |
| `McqView.View.ActivateFromCache` | src/_pages/MCQ.tsx:36-41 | A cached result ends processing, becomes the result and marks the start received; a cache miss changes nothing |
| `McqView.View.LoadCachedData` | src/_pages/MCQ.tsx:149-152 | A cached result becomes the result; all other fields are unchanged |
| `McqView.MountView` | src/_pages/MCQ.tsx:25-41 | A mounted view is the constructor followed by both activation effects, which is `McqMachine.Mount` of the slot |
| `McqView.View.OnStart` | src/_pages/MCQ.tsx:64-88 | Processing becomes true, the start is recorded, the result is cleared, the start message is set and one screenshot query is sent; the list is untouched |
| `McqView.View.OnStatus` | src/_pages/MCQ.tsx:89-91 | Only the processing message changes |
| `McqView.View.OnSuccess` | src/_pages/MCQ.tsx:92-116 | The state settles on the payload, the message is cleared, the cache slot holds the payload and one screenshot query is sent |
| `McqView.View.OnError` | src/_pages/MCQ.tsx:117-122 | Processing stops, the message is cleared, exactly one failure toast carries the error and the queue view is requested; the result, cache and list are unchanged |
| `McqView.View.OnReset` | src/_pages/MCQ.tsx:123-132 | The cache slot, the result and the list are emptied, processing stops, the start is forgotten and the queue view is requested |
| `McqView.View.OnNoScreenshots` | src/_pages/MCQ.tsx:133-138 | Modifies nothing; the event is a no-op step |
| `McqView.View.FetchCompleted` | src/_pages/MCQ.tsx:73-81 | The list is replaced wholesale by the normalised reply |
| `McqView.View.FetchFailed` | src/_pages/MCQ.tsx:82-85 | The list becomes empty and no toast is raised |
| `McqView.View.RequestDelete` | src/_pages/MCQ.tsx:155-159 | An index inside the list yields that entry's path and sends exactly one delete for it; any other index sends nothing and changes nothing |
| `McqView.View.DeleteCompleted` | src/_pages/MCQ.tsx:158-164 | On success the entry at the index is filtered out of the current list; on failure the list is unchanged and one toast is raised |
| `Screenshots.Stamp` | src/_pages/MCQ.tsx:76-79 | One record per reply entry: `id` and `path` both the entry's path, the preview copied, the receipt time stamped |
| `Screenshots.Entries` | src/_pages/MCQ.tsx:75 | The reply-shape check: a bare array is used as is, an envelope gives its `previews`, and a missing `previews` or a missing reply gives the empty list |
| `Screenshots.Normalize` | src/_pages/MCQ.tsx:75-80 | One record per entry of the reply, in order, each the stamped entry, all with `id == path` |
| `Screenshots.ToScreenshots` | src/_pages/MCQ.tsx:75-80 | Same length as the input, element by element in order, with `id == path`, the preview copied and the receipt time stamped |
| `Screenshots.NormalizeCases` | src/_pages/MCQ.tsx:75-80 | A bare array and an envelope's `previews` map element-wise; an envelope without `previews`, or no reply at all, gives the empty list |
| `Screenshots.NormalizeIdsArePaths` | src/_pages/MCQ.tsx:76-77 | Every normalised record's identifier is its path |
| `Screenshots.Without` | src/_pages/MCQ.tsx:160 | The index filter equals removing exactly position `i` when `i` is in range, and is the identity otherwise |
| `Screenshots.WithoutKeepsOrder` | src/_pages/MCQ.tsx:160 | After removing a valid position the length is n-1 and the remaining entries keep their relative order; an invalid position changes nothing |
| `Screenshots.WithoutIdsArePaths` | src/_pages/MCQ.tsx:160 | Filtering preserves the rule that an identifier equals its path |
| `McqRender.SpinnerVisible` | src/_pages/MCQ.tsx:202 | The spinner shows exactly while processing, and never together with the results block |
| `McqRender.ResultsVisible` | src/_pages/MCQ.tsx:214 | Visible results imply that there is no spinner and that a result is held; a result with zero questions is never shown |
| `McqRender.SpinnerText` | src/_pages/MCQ.tsx:207 | The spinner text is never blank: it is the message when the message is set, and the default text when it is empty |
| `McqRender.VisibilityExclusive` | src/_pages/MCQ.tsx:202-214 | The spinner and the results are never visible together; a settled result with zero questions shows neither |
| `McqProperties.StartClearsResult` | src/_pages/MCQ.tsx:64-68 | After a start: processing, start recorded, no result, only the spinner visible with the start message, one screenshot query sent; the list, cache, toasts and view are unchanged |
| `McqProperties.StatusOnlySetsMessage` | src/_pages/MCQ.tsx:89-91 | A status event equals the old state with only the message replaced, whether or not the view is processing |
| `McqProperties.SuccessSettles` | src/_pages/MCQ.tsx:92-96 | After a success: not processing, message empty, the result and the cache slot both equal to the payload, one query sent; results are visible iff the payload has questions |
| `McqProperties.ErrorKeepsResult` | src/_pages/MCQ.tsx:117-121 | After an error: idle, message empty, exactly one more toast carrying the error, queue view requested; the result, cache slot, list and start flag are unchanged |
| `McqProperties.ResetClears` | src/_pages/MCQ.tsx:123-131 | From any state, a reset leaves the cache slot, result and list empty, stops processing, forgets the start, requests the queue view and shows nothing |
| `McqProperties.NoScreenshotsIgnored` | src/_pages/MCQ.tsx:133-138 | The no-screenshots event leaves the state identical and raises no toast |
| `McqProperties.FetchReplacesList` | src/_pages/MCQ.tsx:73-85 | A completed query replaces only the list, by the normalised reply with one record per entry; a failed query only empties the list |
| `McqProperties.DeleteRequestIssuesOneCall` | src/_pages/MCQ.tsx:155-159 | An out-of-range index changes nothing; an in-range index only appends one delete of that entry's path |
| `McqProperties.DeleteSettles` | src/_pages/MCQ.tsx:158-164 | A confirmed delete removes exactly position `i` (length n-1, order kept, no toast); a failed delete keeps the list and raises one toast |
| `McqProperties.MountOnCacheMiss` | src/_pages/MCQ.tsx:25-41 | On a cache miss both activation effects leave the initial state unchanged, and the spinner shows the default text |
| `McqProperties.SuccessSurvivesRemount` | src/_pages/MCQ.tsx:36-41 | After a success with `d`, a newly mounted view reads `d` back: not processing, result `d`, start recorded |
| `McqProperties.RunAppend` | src/_pages/MCQ.tsx:63-139 | Handling two batches of events in turn is the same as handling them as one sequence |
| `McqProperties.ResetAfterAnyTrace` | src/_pages/MCQ.tsx:123-131 | After any events followed by a reset, the state is idle with no result, no cached result and no screenshots |
| `McqProperties.OnlyResetForgetsStart` | src/_pages/MCQ.tsx:64-131 | If the start flag goes from true to false over a sequence of events, that sequence contains a reset |
| `McqProperties.RunKeepsShownIsCached` | src/_pages/MCQ.tsx:36-131 | Along any events, a result the view holds is the one in the cache slot |
| `McqProperties.RemountRecoversResult` | src/_pages/MCQ.tsx:36-41 | Whatever a mounted view has handled, a view mounted afterwards on the same slot holds the same result, settled |
| `McqProperties.CacheWrittenOnlyBySuccess` | src/_pages/MCQ.tsx:92-131 | After any events, the slot holds its earlier value, is empty after a reset, or holds the payload of one of the successes |
| `McqProperties.StepKeepsIdsArePaths` | src/_pages/MCQ.tsx:75-164 | No event gives a screenshot an identifier other than its path |
| `McqProperties.RunKeepsIdsArePaths` | src/_pages/MCQ.tsx:75-164 | Along any events, every screenshot's identifier stays equal to its path |
| `McqProperties.FetchAfterResetRepopulates` | src/_pages/MCQ.tsx:71-87 | A query completing after a reset refills the list the reset emptied, because there is no staleness guard |
| `McqProperties.StartKeepsStaleCache` | src/_pages/MCQ.tsx:64-68 | After a success with `d` then a start, the slot still holds `d`, so a view mounted then, or the first activation effect run again, shows `d` settled with no spinner while processing is under way |
| `McqProperties.OneQuestionScenario` | src/_pages/MCQ.tsx:64-115 | Mount, start, status, a one-question success and the refresh it triggers: the result is settled and cached, the results are visible, and two queries were sent |

## Left out

- JSX layout and styling (src/_pages/MCQ.tsx:168-308) are not modelled. This includes the per-option "correct" highlight, the screenshot queue's visibility and the props passed to the command bar.
- `ResizeObserver` and `updateContentDimensions` (src/_pages/MCQ.tsx:44-60, 142) are not modelled. They are DOM measurement and a fire-and-forget host call.
- Subscribing and unsubscribing the six handlers (src/_pages/MCQ.tsx:63, 141-144) are not modelled. Events are method calls or `Event` values. A setter called after unmount, which React ignores, is not captured.
- Asynchrony: the model does not track pending requests. A completion step may be applied without an earlier request, which covers every interleaving the source allows and some it does not.
- `FetchCompleted`: every entry of one reply gets the same receipt time `now`. The source calls `Date.now()` once per entry, so its stamps may differ.
- Replies that make the mapping throw are modelled as `FetchFailed`, which the source's `catch` also handles by emptying the list. Examples are a `previews` value that is not an array and a `null` entry.
- `console` logging is dropped. Toasts are kept as a log, not rendered. `setView` is kept as the last requested view.
- JavaScript truthiness: the model assumes the cached entry is always an object, the status message a string and `questions` an array, as the declared types say. Non-integer delete indexes are not modelled.
- The `progress` field of a status event is ignored, as in the source.
- The model treats this view as the only writer of the `["mcq"]` slot. In the source the slot lives in the app-wide query client (src/_pages/MCQ.tsx:23, 96, 124). Other code may write or remove it, and the client may evict it; none of that is modelled. `McqProperties.RunKeepsShownIsCached` and `McqProperties.CacheWrittenOnlyBySuccess` (and `McqProperties.RemountRecoversResult`, built on the first) rely on this.
- `src/components/Settings/LanguageDropdown.tsx` is not part of this model: it is a static label table with a pass-through callback. `src/types/mcq.ts` supplies only the datatypes.

In these places the code's evident intent and what it does part ways. The model follows what the code does:

- A screenshot reply that arrives after a newer start or reset should evidently not overwrite the newer state. The code has no such guard, and neither does the model (`McqProperties.FetchAfterResetRepopulates`).
- A result should evidently last only until the next start: the start handler clears `mcqData` (src/_pages/MCQ.tsx:67). It does not clear the `["mcq"]` slot, though. A view mounted during the new run, or the first activation effect run again, reads the old result back and shows it settled with no spinner (`McqProperties.StartKeepsStaleCache`).
- Deriving `id` from `path` suggests identifiers are meant to be unique. The code does no de-duplication, so a reply that repeats a path yields repeated entries.
- A delete's outcome filters the list as it is when the outcome arrives, at the index chosen when the delete was requested. If a refresh completes in between, another entry can be removed.
- `hasReceivedMCQStart` is kept and updated as in the code, but nothing in the view reads it.

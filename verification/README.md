# A model of the gapless stream player, with proofs

The player plays a queue of streams through a GStreamer pipeline, without gaps between streams.
A controlling program pushes streams and asks for play, pause, stop and skip over D-Bus. A stream
has several alternative URLs; some are links which a resolver turns into URIs which expire.
GStreamer, the resolver and the controlling program may send anything at any time.

The project consists of a model of the player's state and a proof of what holds in every run.

- `UrlFifo`, `PlayItem`: the bounded queue with its store of removed items, and the items with
  their URLs. Classes, with a value for each of them to reason about.
- `Player`: what each handler does to the state of the player, as functions. Everything decided by
  GStreamer, the resolver or the clock is a parameter.
- `Streamer`: the handlers themselves, updating a queue and items in place. Each is proved to do what
  the function in `Player` says, and to keep the invariant.
- `PlayerInvariant`, `Playback`, `Fallback`, `Handover`, `DropReport`, `RetryBudget`: what holds in all reachable
  states; play order, conservation and the start of streams; requests of GStreamer and fallback to alternative URLs;
  starting, skipping, what follows an end, a stop or an error; reports about removed items; and a bound for retries.
- `Scenarios`: concrete runs from the initial state in which the player does not do what one might expect.
- `Requests`: what skipping, clearing, pausing and deactivation do besides that.
- `Rnf`, `RnfProtocol`, `RnfTheorems`, `RnfAnswers`: calls answered later by a signal. `Rnf` has the call object and
  the cookie table; `RnfProtocol` lets any number of threads run on one call, lock by lock; `RnfTheorems` says what
  callers may rely on, and `RnfAnswers` what readers get, what contexts are told, and what aborts prevent.
- `Buffering`, `BoostedThreads`, `Tokenizer`, `Seek`: buffering, realtime priorities, splitting
  of meta data, and seek positions.

History fields (numbers of items, what was played and reported, what the pipeline answered) are not in the source. No
handler reads them, except that a new item gets the number of items accepted before it.

Where the source and its comments disagree, the model follows the code: the head of the queue
becomes the current stream whenever it is picked (`src/streamer.cc:966-974`), although the comment at
`src/streamer.cc:887-893` says otherwise.

Some claims one might expect are false. Each of these has an input that shows it, and the exact condition
under which it holds:

- A full buffer and a definite pause do not end buffering if the level drops in between
  (`Buffering.FullThenLessThenPause`; exact: `Buffering.EndsExactlyIfFull`).
- A pause wanted while buffering is lost if the pipeline was paused but about to play when the underrun
  came (`Buffering.PauseIsLost`; exact, for episodes with any messages: `Buffering.PipelineFollowsWish`).
- A result fetched while an abort calls the peer is overwritten (`RnfTheorems.AbortOverwritesResult`). In every
  interleaving an outcome is lost exactly by completing an abort, or by a context which throws on the fast path
  (`RnfTheorems.OutcomeLostExactly`, over runs `RnfTheorems.OutcomeLasts`), and the promise tells whether a call is
  finished exactly if no abort was completed after that (`RnfTheorems.PromiseMeansFinished`).
- Not every request of GStreamer for the next stream is met. One which comes while the current stream is being
  activated is neither answered nor deferred (`Scenarios.RequestIsStranded`), and this is how it stays when that stream
  plays and more is pushed (`Fallback.StrandedStaysStranded`). What becomes of a request in every state:
  `Fallback.EveryRequestIsMet`.
- A next item which is waiting is not always served. It is exactly if it is the one which is searched, and a URI is found
  for it, or an answer will come (`Fallback.WaitingItemIsServed`, `Fallback.DeferredRequestIsServed`,
  `Fallback.OpenRequestIsServedByPush`). Another one is searched if the link is answered at once and the current stream
  has the same ID (`Scenarios.AnswerIsMisdirected`, `Fallback.EqualIdsMisdirectAnswer`). No answer will come if the
  resolver does not take the request (`Scenarios.FailedCallBlocks`).
- An item for which there is no URI is not passed over: it blocks the queue (`Scenarios.FailedCallBlocks`,
  `Fallback.BlockedStaysBlocked`; exact: `Fallback.UnusableHeadBlocks`). If its call is over, not even the end of the
  stream before it stops the player (`Fallback.BlockedAtEnd`).
- The stream which was handed to GStreamer beforehand is lost if the player is restarted after an early end, or if the
  user skips to it (`Scenarios.PrefetchedIsLostByRestart`, `Scenarios.PrefetchedIsLostByNext`,
  `Handover.RestartAfterEnd`, `Handover.NextLosesPrefetched`).
- A start and a skip do not always play the next stream. While the current one is being activated, a skip stops the
  player, with the queue as it is if the stream is protected (`Scenarios.SkippingStopsWithQueue`,
  `Handover.SkippingActivationStops`), and a start leaves it without a URI (`Scenarios.SecondStartDoesNothing`), from which no further start, pause or stop gets it out
  (`Handover.NeverStartsAgain`). For every current stream, every queue, and whether or not the pipeline agrees to rest:
  which item leaves the queue, which is next, and that its URI is handed over exactly if one is found and the item is not
  on its way already (`Handover.StartPlaysNext`, `Handover.NextPlaysNext`).
- A link answered after the end of a stream does not always start the next one: the source may follow a null pointer
  (`Scenarios.AnswerFollowsNullAfterEnd`). It does so exactly if a URI is found and the pipeline accepts
  (`Handover.AnswerAfterEnd`), and not if the pipeline has come to rest first (`Handover.AnswerAfterRest`).
- A stop does not always report what was queued (`Scenarios.StopIsNotReported`). In every state of the pipeline, it is
  reported at once exactly if the request has changed nothing for a pipeline which is at rest, with nothing pending, right
  after it; otherwise when the pipeline comes to rest, exactly if the URI of the current stream is known
  (`Handover.StopReportsExactly`).
- An error of the current stream is not always noticed: nothing follows if the alternative links are broken or not taken
  by the resolver (`Scenarios.ErrorIsNotNoticed`), or if a link is resolved at once but the pipeline does not accept to
  start (`Scenarios.RefusalIsNotNoticed`). Which of five outcomes an error has: `Handover.ErrorHasOutcome`.
- An error of a prefetched stream is not always reported (`Scenarios.PrefetchErrorIsNotReported`); it is exactly if no
  other attempt is made with the stream being played (`Handover.PrefetchError`).

The source follows a null pointer in some steps taken without a current stream: when a stream starts; when a
position has been sought; when an error is blamed on the next stream; when a URI is found for a link and the
pipeline accepts to start; when the pipeline says that it is playing after it has paused for a stream, or when a
definite pause ends buffering (`Scenarios.PlayingFollowsNullAfterEnd`). `PlayerInvariant.Enabled` says which steps
these are; runs do not go on after them.

## Model

| member | source | states |
|---|---|---|
| UrlFifo.Queue.Clear | src/urlfifo.hh:210-227 | The first `keep` items stay and the others are handed over in their order, although the store is filled from its back end |
| UrlFifo.Queue.Push | src/urlfifo.hh:146-154 | Appends after clearing; answers 0 exactly when it refuses, and changes nothing then |
| UrlFifo.Queue.Pop | src/urlfifo.hh:170-179 | The head leaves the queue without being stored as removed |
| UrlFifo.Queue.PopDrop | src/urlfifo.hh:184-193 | The head goes to the end of the removed items |
| UrlFifo.Queue.MarkAsDropped | src/urlfifo.hh:195 | Adds one ID to the dropped ones, nothing else changes |
| UrlFifo.Queue.IsFull | src/urlfifo.hh:124 | Whether the capacity is reached |
| UrlFifo.Queue.ClearWhile | src/urlfifo.hh:229-244 | Exactly the longest prefix satisfying the predicate is removed, in order |
| UrlFifo.Queue.GetRemoved | src/urlfifo.hh:283 | Hands out the removed items and leaves none |
| UrlFifo.Queue.GetDropped | src/urlfifo.hh:285 | Hands out the dropped IDs and leaves none |
| UrlFifo.FifoRunConserves | src/urlfifo.hh:146-227 | Over any run the capacity holds, and every accepted item is queued, removed or handed out, once |
| UrlFifo.NotFullAcceptsKeepAll | src/urlfifo.hh:124-154 | A refused push leaves no trace; if not full, a push which keeps all is accepted and only appends |
| UrlFifo.KeepCounts | src/dbus.cc:282-295 | What the keep counts of push requests mean: -2 and 0 replace, -1 appends, n keeps n; a push without effect means the queue was full |
| PlayItem.BuildUrls | src/url_collection.cc:73-96 | The usable URLs in their order; empty links and URLs without translation are skipped (see PlayItem.UrlsAreAsSent) |
| PlayItem.UrlsAreAsSent | src/url_collection.cc:73-96 | By position: exactly which sent URLs are kept, in which order, and what each yields: nothing yet for a link, the translation, or the URL itself |
| PlayItem.ExpiredIsAsSent | src/url_collection.cc:45-59 | Exactly links whose URI has run out become like links just sent |
| PlayItem.AnswerEndsCall | src/playitem.cc:165-188 | An answer ends the call; the URI is the one told and is good exactly for the time told |
| PlayItem.StartDependsOnUri | src/playitem.cc:120-142 | A start is possible now exactly with a known URI, and later exactly for a link being resolved |
| PlayItem.Item.GetSelectedUrlState | src/playitem.cc:74-93 | State of the selected URL, broken if there is none |
| PlayItem.Item.SelectNext | src/playitem.cc:95-118 | True after clearing an expired URI without moving, or after moving to the next URL |
| PlayItem.Item.ClearExpired | src/url_collection.cc:45-59 | True exactly for links whose URI has expired, which is cleared |
| PlayItem.Item.SelectNextIndex | src/url_collection.cc:104-113 | Advances by one exactly if there are more URLs |
| PlayItem.Item.Fail | src/playitem.cc:56-72 | Only the first failure answers true |
| PlayItem.Item.Prefail | src/playitem.cc:30-44 | The first reason detected beforehand is kept; only noting the first one answers true |
| PlayItem.Item.FinishResolver | src/playitem.cc:165-188 | Stores a URI with its expiry; tells whether it is usable, or whether there are URLs left |
| PlayItem.Item.PipelineStartRequiredWhenReady | src/playitem.cc:120-142 | Marks the item and tells from its URL whether a start is possible now, later or not at all |
| PlayItem.Item.IsPipelineStartRequired | src/playitem.hh:211-216 | Reading the mark clears it |
| RetryBudget.RetriesAreBounded | src/playitem.cc:95-118 | Under a monotone clock a stream is retried at most once per remaining URL and once per `v` elapsed seconds |
| RetryBudget.BoundIsMet | src/url_collection.cc:32-59 | For every number of refreshes there is a run which reaches the bound for expired URIs |
| RetryBudget.SpentOverRun | src/url_collection.cc:32-59 | Retries are the advance of the selected index plus expiries, each of which takes `v` seconds |
| DropReport.MkIdArray | src/streamer.cc:583-607 | Removed IDs in removal order, then each dropped ID not among them once |
| PlayerInvariant.StepKeepsInv | src/streamer.cc:3853-4103 | Every step of the player keeps queue shape, play order, conservation and marks, and only adds to history |
| PlayerInvariant.RunKeepsInv | src/streamer.cc:2349-2791 | The invariant holds in all states of every run, and history grows along it |
| PlayerInvariant.ResolveTouches | src/streamer.cc:1234-1279 | Resolving, with all nested answers, moves no item and changes no item state |
| PlayerInvariant.PlayNextTouches | src/streamer.cc:1281-1335 | Playing an item moves none, and in the queue only the head may go from queued to being activated |
| Playback.QueueShape | src/streamer.cc:2692-2699 | In every run only the head of the queue is being activated and all others just queued, so the unexpected-state branch is dead; the capacity holds |
| Playback.PlayOrder | src/streamer.cc:934-1032 | Current streams come in the order of pushes, none comes back, everything queued comes later |
| Playback.NextIsCurrent | src/streamer.cc:966-974 | The next stream found is the current one, taken from the queue exactly if told so |
| Playback.NothingGetsLost | src/streamer.cc:638-695 | In every run each accepted item is in exactly one place, and an ID is pending or was reported after each time it was marked |
| Playback.NumbersAreUnique | src/streamer.cc:583-619 | An item is never both reported and played, nor reported twice |
| Playback.StartedIsLive | src/streamer.cc:2633-2791 | Activation never answers invalid; if it activates, the stream is phased out exactly if the queue is empty |
| Playback.StreamStartIsLive | src/streamer.cc:2610-2791 | After the start of a stream the current stream is playing or phased out |
| Playback.ActivationFromActive | src/streamer.cc:2200-2282 | Activating an active stream makes it live, or leaves everything as it is |
| Playback.ActivationMeans | src/streamer.cc:2200-2282 | For each state and phase: half playing, playing or phased out, what is answered, and that nothing else changes |
| Playback.SettledIsHalfPlaying | src/streamer.cc:2545-2590 | A message that the pipeline pauses or plays as asked makes a stream about to be activated half playing, and takes no other back |
| Playback.SetUpStreamStarts | src/streamer.cc:2545-2791 | Over any run of such messages, the stream which was set up is the one which starts, and the queue stays in order |
| Playback.OtherMessagesOnlyNote | src/streamer.cc:2380-2500 | All other messages short of rest only note a pause for a new stream, its end, or a video decoder |
| Playback.MessageReadsCurrent | src/streamer.cc:2284-2347 | Exactly which state messages read the current stream |
| Playback.RestMeans | src/streamer.cc:2497-2544 | When the pipeline has come to rest: whether the player stops and reports, and which stream is current then |
| Handover.GaplessHandover | src/streamer.cc:1373-1396 | When asked while playing, GStreamer gets the URI of the head; when the next stream starts, that item is current and live |
| Handover.HandedOverIsBlamed | src/streamer.cc:1854-1891 | An error with the URI just handed over is blamed on the next stream, unless the current one has the same URI or is known to fail |
| Handover.NextIsTaken | src/streamer.cc:934-1032 | For every current stream and queue: whether there is a next stream and which one, when the head leaves the queue, and when it becomes current |
| Handover.StartPlaysNext | src/streamer.cc:3504-3600 | The same for a start, whatever is current and queued; a URI is handed over exactly if one is found for the next stream and that is not on its way already |
| Handover.NeverStartsAgain | src/streamer.cc:3504-3600 | Over any run of starts, pauses, stops, pushes and removals a stream which is being activated without a URI stays like this |
| Handover.NextPlaysNext | src/streamer.cc:3853-3989 | The same for a skip, for both kinds, every current stream and queue, and whether or not the pipeline agrees to rest; both IDs answered |
| Handover.SkippingActivationStops | src/streamer.cc:3918-3980 | Skipping a stream which is being activated is answered without a next stream and stops the player; a protected one stays current, and the queue as it is |
| Handover.NextLosesPrefetched | src/streamer.cc:3853-3989 | Skipping to a stream handed over beforehand announces it, but when the pipeline has come to rest the player has stopped, without a URI, and goes on to the item after it unless protected |
| Handover.RestartAfterEnd | src/streamer.cc:1398-1470 | A restart after the end hands the known URI over exactly if that was not done before the end |
| Handover.AnswerAfterEnd | src/streamer.cc:1404-1470 | For a link answered right after the end of a stream: exactly when a null pointer is followed, and what is handed over otherwise |
| Handover.AnswerAfterRest | src/streamer.cc:1047-1083 | If the pipeline comes to rest first, the next stream is current, the URI found is handed over and the required start used up; if the ended stream was protected, the null pointer is followed as before |
| Handover.ResolveUsesMarkUp | src/streamer.cc:1234-1279 | With all nested answers, a required start is used up exactly if a URI is handed over |
| Handover.AnswerUsesMarkUp | src/streamer.cc:1112-1231 | The same for an answer to the selected link |
| Handover.EndSettlesEverything | src/streamer.cc:1426-1460 | In every run, when an end stops the player, nothing is pending: each accepted item is queued, reported, played or given up, and all marked IDs have been reported since |
| Handover.PushReports | src/streamer.cc:4033-4103 | The two reports of a push are what was pending before and exactly what the push removed, in order; kept items come first, the new one last |
| Handover.StopReportsExactly | src/streamer.cc:3344-3395 | For every state of the player and of the pipeline: whether a stop is accepted, empties the queue, is reported at once, or exactly when the pipeline comes to rest with a known URI; exactly when the current stream stays |
| Requests.NextMarks | src/streamer.cc:3868-3892 | Exactly for a stream given up before it plays, a skip marks one ID as dropped |
| Requests.SkippedIsTold | src/streamer.cc:583-607 | Over every run, a stream given up by a skip is pending or has been reported since |
| Requests.SkipOnlyIfNotStopped | src/streamer.cc:3894-3918 | A skip meant for a player which has not stopped takes nothing from the queue of a stopped one |
| Requests.ClearRemovesTail | src/streamer.cc:3991-4005 | Exactly the items behind the kept ones are removed and reported in order, with what was pending; a negative number keeps all |
| Requests.PausePlaysNext | src/streamer.cc:3680-3746 | The wish is recorded unless there is nothing to pause; the next stream is set up only from the initial state, and which one |
| Requests.InactiveIgnores | src/streamer.cc:3454-3990 | Without activation, requests which play, pause, stop, skip or push change nothing |
| Requests.DeactivationStops | src/streamer.cc:3468-3502 | Deactivation stops the player and empties the queue exactly if the pipeline accepts to rest or rests |
| Handover.ErrorHasOutcome | src/streamer.cc:1893-2102 | Each error of the current stream: it goes on with the first usable URL, is refused by the pipeline unnoticed, waits for a link, hangs unnoticed, or the player stops, reports and names it; the first usable URL, the reason and the pipeline tell which, also for expired URIs and links |
| Handover.ErrorIsRetriedExactly | src/streamer.cc:1976-2030 | For which reasons, by name, a stream is tried again, and that a reason noted beforehand counts, not the error |
| Handover.PrefetchError | src/streamer.cc:1976-2098 | The failed head leaves the queue without being played; it is named, and the current stream reported as dropped, exactly if no other attempt is made with the current stream, for which the pipeline is asked to play only if a start was required |
| Fallback.ResolveFindsFirst | src/streamer.cc:1234-1279 | The search over alternative URLs ends at the first which is direct, known or answered with a URI, or at the last |
| Fallback.AnswerFindsFirst | src/streamer.cc:1112-1231 | An answer is handed over if usable, otherwise the search goes on after the selected URL |
| Fallback.FallbackAdvances | src/streamer.cc:1208-1221 | While there are more URLs, selecting the next one never fails |
| Fallback.HandsOverExactly | src/streamer.cc:1234-1279 | Resolving hands a URI over exactly if one is found among the URLs, and it is this one |
| Fallback.AnswerHandsOverExactly | src/streamer.cc:1112-1231 | The same for an answer to the selected link |
| Fallback.ResolveAsks | src/streamer.cc:1047-1083 | The pipeline is asked for a state exactly if a URI is handed over, except for prefetching without a required start |
| Fallback.NullIsFollowedExactly | src/streamer.cc:1037-1083 | A null pointer is followed exactly if the pipeline accepts a state while there is no current stream |
| Fallback.NullIsFollowedByAnswer | src/streamer.cc:1037-1083 | The same for an answer |
| Fallback.NullIsFollowedOnRequest | src/streamer.cc:1037-1083 | The same for a request of GStreamer |
| Fallback.EveryRequestIsMet | src/streamer.cc:1281-1396 | For every state: exactly which requests of GStreamer are answered at once, deferred, left to the next push, or stranded |
| Fallback.StrandedStaysStranded | src/streamer.cc:1304-1316 | Over any run of pushes, removals and state messages, and the start of the stream being activated, a stranded request stays open and the next item queued |
| Fallback.WaitingItemIsServed | src/streamer.cc:1337-1368 | A waiting head gets its URI handed over, or awaits an answer which will come, exactly if a URI is found or its request taken, and no immediate answer goes to a current stream with the same ID |
| Fallback.DeferredRequestIsServed | src/streamer.cc:2662-2790 | When the head starts, a deferred request is served by the next item under the same exact condition, or stays open with the last stream phased out |
| Fallback.DeferredRequestIsDue | src/streamer.cc:2640-2790 | If the current stream is the one which starts: exactly when a deferred request is due, and what becomes of it |
| Fallback.OpenRequestIsServedByPush | src/streamer.cc:4084-4093 | A request left open is served by the next accepted push under the same exact condition, or deferred if the head is on its way already |
| Fallback.EqualIdsMisdirectAnswer | src/streamer.cc:1147-1158 | With equal IDs any answer given at once goes to the current stream: the next item is not served and gets no answer any more; exactly when GStreamer gets a URI then |
| Fallback.UnusableHeadBlocks | src/streamer.cc:1337-1368 | A head which was looked at is left without URI and with nothing to wait for exactly if no URL is usable and no request taken, or its answer went to a current stream without use for it |
| Fallback.BlockedStaysBlocked | src/streamer.cc:1281-1335 | Over any run of further requests, pushes and ends of streams such a head stays, and nothing is handed over |
| Fallback.BlockedAtEnd | src/streamer.cc:1404-1470 | When the stream before such a head ends, the player stops and reports exactly unless the call for its link is over |
| Scenarios.PrefetchedIsLostByRestart | src/streamer.cc:1398-1448 | A run: the stream ends before the prefetched one begins, and after the restart the player is playing without a URI |
| Scenarios.PrefetchedIsLostByNext | src/streamer.cc:3853-3989 | A run: skipping announces the prefetched stream, but the player has stopped without a URI |
| Scenarios.AnswerFollowsNullAfterEnd | src/streamer.cc:1037-1083 | A run after which a link answered makes the source follow a null pointer |
| Scenarios.PlayingFollowsNullAfterEnd | src/streamer.cc:2319-2608 | A run after which the pipeline saying that it is playing does |
| Scenarios.ErrorIsNotNoticed | src/streamer.cc:1893-1936 | A run in which the current stream fails, and the player neither goes on, waits, stops nor reports |
| Scenarios.PrefetchErrorIsNotReported | src/streamer.cc:1976-2030 | A run in which the prefetched stream fails, is gone, and is never told about |
| Scenarios.RefusalIsNotNoticed | src/streamer.cc:1199-1203 | A run in which the pipeline does not accept to start with the alternative URI, and nobody notices |
| Scenarios.SkippingStopsWithQueue | src/streamer.cc:3918-3980 | A run: skipping while the first stream is being activated stops the player although another one waits |
| Scenarios.SecondStartDoesNothing | src/streamer.cc:3504-3600 | A run: a start which the pipeline refuses, and another one after which nothing can be started |
| Scenarios.RequestIsStranded | src/streamer.cc:1304-1316 | A run: GStreamer asks while the first stream is being activated, and the waiting item is not handed over |
| Scenarios.FailedCallBlocks | src/rnfcall.hh:509-523 | A run: the resolver does not take a request, the item blocks the queue, and the end of the stream is not reported |
| Scenarios.AnswerIsMisdirected | src/streamer.cc:1147-1158 | A run: an answer goes to the current stream, which has the same ID |
| Scenarios.StopIsNotReported | src/streamer.cc:3344-3395 | A run: a stop removes an item from the queue, which is not reported when the pipeline comes to rest |
| Streamer.Engine.TryTakeNext | src/streamer.cc:934-1032 | In place on queue and items; nothing else moves |
| Streamer.Engine.PickNextItem | src/streamer.cc:853-877 | Points to the current stream or to the head, never to another item |
| Streamer.Engine.OnLinkResolved | src/streamer.cc:1047-1083 | Hands the URI over, clears the request, uses up a required start; the current stream is read exactly if the pipeline accepts to start (see Handover.ResolveUsesMarkUp) |
| Streamer.Engine.Resolve | src/streamer.cc:1234-1279 | With all nested answers; terminates since URLs run out |
| Streamer.Engine.LinkNotified | src/streamer.cc:1112-1231 | Finds the item by ID at the current stream or the head only |
| Streamer.Engine.PlayNextStream | src/streamer.cc:1281-1335 | Also if the replaced stream is the very item to be played |
| Streamer.Engine.QueueStreamFromFifo | src/streamer.cc:1337-1368 | Answers a request from the queue, or phases out the current stream |
| Streamer.Engine.TryPlayNextStream | src/streamer.cc:3327-3342 | Plays what was taken or is just queued |
| Streamer.Engine.AboutToFinish | src/streamer.cc:1373-1396 | A request for more data becomes a request for the next stream, answered at once if possible (see Handover.GaplessHandover); every state reached satisfies the invariant |
| Streamer.Engine.EndOfStream | src/streamer.cc:1404-1470 | Stops unless the next stream can be started now or when its link is resolved (see Handover.EndSettlesEverything, AnswerAfterEnd); asks for a restart exactly if the URI of the next stream is known; keeps the invariant |
| Streamer.Engine.ActivateStream | src/streamer.cc:2200-2282 | New state and answer for each state and phase; only the current stream changes (see Playback.ActivationMeans, ActivationFromActive) |
| Streamer.Engine.StateChanged | src/streamer.cc:2349-2608 | Activates, replaces or gives up the current stream as the pipeline reaches what it was asked for (see Playback.SettledIsHalfPlaying, SetUpStreamStarts, OtherMessagesOnlyNote, RestMeans); keeps the invariant |
| Streamer.Engine.StreamStart | src/streamer.cc:2610-2791 | The started stream becomes current in place, is announced, and a deferred request is answered (see Playback.StreamStartIsLive, Fallback.DeferredRequestIsServed); keeps the invariant |
| Streamer.Engine.DetermineFailedStream | src/streamer.cc:1854-1891 | Exactly when the current and when the next stream is blamed, and whether the reason is known already (see Handover.HandedOverIsBlamed) |
| Streamer.Engine.TryAlternative | src/streamer.cc:1893-1936 | Tries a refreshed or alternative URL with the current stream (see Handover.ErrorHasOutcome) |
| Streamer.Engine.ErrorMessage | src/streamer.cc:1938-2102 | Tries another URL, or stops and reports (see Handover.ErrorHasOutcome, ErrorIsRetriedExactly, PrefetchError); keeps the invariant |
| Streamer.Engine.Push | src/streamer.cc:4033-4103 | True exactly if activated and not refused; both reports are sent (see Handover.PushReports), an open request is answered; keeps the invariant |
| Streamer.Engine.ClearQueue | src/streamer.cc:3991-4005 | Answers with the queued IDs in order (see Requests.ClearRemovesTail); keeps the invariant |
| Streamer.Engine.Start | src/streamer.cc:3504-3600 | Plays the head if the pipeline is not running (see Handover.StartPlaysNext), does nothing else; exactly which calls are accepted; keeps the invariant |
| Streamer.Engine.Pause | src/streamer.cc:3680-3746 | Records the wish, and plays the next stream only from a pipeline in its initial state (see Requests.PausePlaysNext); exactly which calls are accepted; keeps the invariant |
| Streamer.Engine.Stop | src/streamer.cc:3611-3669 | Empties the queue unless the pipeline refuses (see Handover.StopReportsExactly); true only for a pipeline without a proper state; keeps the invariant |
| Streamer.Engine.StopPipeline | src/streamer.cc:3344-3395 | The queue survives only if the pipeline refuses to stop |
| Streamer.Engine.Activate | src/streamer.cc:3454-3466 | Nothing but the flag changes; keeps the invariant |
| Streamer.Engine.Deactivate | src/streamer.cc:3468-3502 | Stops like a stop request, only once (see Requests.DeactivationStops); keeps the invariant |
| Streamer.Engine.Next | src/streamer.cc:3853-3989 | Answers with the IDs skipped and next, none if nothing is played (see Handover.NextPlaysNext, NextLosesPrefetched); marks a stream given up before it plays (see Requests.NextMarks); keeps the invariant |
| Streamer.Engine.SendReport | src/streamer.cc:583-619 | Emits one array which lists the pending report, and drains it |
| Streamer.Engine.EmitStopped | src/streamer.cc:638-662 | A report is left out only if it is empty and there is no current stream |
| Streamer.Engine.EmitStoppedWithError | src/streamer.cc:664-695 | Stops, always reports, and names the stream given up |
| Streamer.Engine.ErrorRecovery | src/streamer.cc:775-801 | Stops, reports and forgets the current stream |
| Rnf.CookieCall.Request | src/rnfcall.hh:459-526 | Only a fresh call may be requested; a failing request fails the call and tells no context |
| Rnf.CookieCall.ClearCookie | src/rnfcall.hh:298-303 | The cookie is kept as the one cleared last |
| Rnf.CookieCall.Notification | src/rnfcall.cc:106-144 | Only signals for the cookie, or the one cleared last, change the state, and only while waiting or aborting |
| Rnf.CookieCall.FetchUnlocked | src/rnfcall.hh:597-646 | Success exactly for a fetched result; bad state reported exactly before the signal |
| Rnf.CookieCall.FetchAndNotify | src/rnfcall_cookiecall.hh:71-87 | The context is told the resulting state unless the state was bad |
| Rnf.CookieCall.GetResultUnlocked | src/rnfcall.hh:692-727 | Which of result, exception or error is delivered, and that it is delivered once (see RnfAnswers.ReadIsAnswered, AnswersMatchPromise) |
| Rnf.CookieCall.BeginAbort | src/rnfcall.cc:51-86 | What is done before the peer is called, and whether it is called |
| Rnf.CookieCall.AbortRequest | src/rnfcall.cc:41-104 | An abort nobody interferes with, in each state |
| Rnf.PendingCookies.Add | src/cookie_manager_impl.cc:83-92 | Registered functions are never replaced |
| Rnf.PendingCookies.Available | src/cookie_manager_impl.cc:143-175 | Uses up the notification function and notifies the call |
| Rnf.PendingCookies.Finish | src/cookie_manager_impl.cc:177-208 | Uses up the fetch function, fetches and tells the context |
| Rnf.PendingCookies.HandleSignals | src/cookie_manager_impl.cc:270-315 | The calls signalled, in any order and however often, are served once by the first signal for them; all others stay as they are |
| RnfProtocol.RunKeepsInv | src/rnfcall.hh:459-727 | Locks, registered functions, states, promise, fetches and deliveries agree in every interleaving |
| RnfTheorems.PromiseBacksState | src/rnfcall.hh:597-727 | A fetched or failed call has a satisfied promise; reading never blocks and delivers at most once |
| RnfTheorems.ToldAtMostOnce | src/rnfcall_cookiecall.hh:71-126 | The context is told at most once and only about a definite state; at most one fetch |
| RnfTheorems.HistoryGrows | src/rnfcall_cookiecall.hh:71-126 | What was told, fetched or read stays so |
| RnfTheorems.OwnersGoOn | src/rnfcall.hh:465-508 | Nobody waits for the call lock while holding the table lock; lock owners can always go on |
| RnfTheorems.SomeThreadGoesOn | src/cookie_manager_impl.cc:143-208 | There is no deadlock |
| RnfTheorems.WaitingCallIsRegistered | src/rnfcall.hh:465-508 | Without aborts a waiting call with a new cookie is in the table, or a signal is being handled for it |
| RnfTheorems.LookUpFindsCall | src/cookie_manager_impl.cc:143-165 | The first signal finds the call registered |
| RnfTheorems.SignalWakesCall | src/rnfcall.cc:126-143 | The notification makes a waiting call ready or aborted |
| RnfTheorems.IdleMeansWaitingOrTold | src/cookie_manager_impl.cc:177-208 | At rest a call waits for its first signal, or its context has been told exactly once |
| RnfTheorems.DuplicateCookieIsNeverServed | src/cookie_manager_impl.cc:83-92 | A call whose cookie is registered for notification of another call never gets a result |
| RnfTheorems.StaleCookieTellsNothing | src/cookie_manager_impl.cc:83-208 | If the cookie issued is not new, for whichever of three reasons, the context is never told a result or a failure, in any interleaving |
| RnfTheorems.FetchUsesIssuedCookie | src/rnfcall.hh:597-645 | Without aborts the fetch is made with the cookie issued, which is not zero |
| RnfAnswers.PromiseIsPut | src/rnfcall.hh:459-645 | Exactly which steps satisfy the promise, with a value or an exception, and that it stays |
| RnfAnswers.ReadIsAnswered | src/rnfcall.hh:692-727 | In every run, what each reader gets, depending on state, aborts, earlier readers and the promise |
| RnfAnswers.AnswersMatchPromise | src/rnfcall.hh:717-725 | In every run, a result is delivered only for a value, an exception only for an exception |
| RnfAnswers.PutIsRead | src/rnfcall.hh:597-727 | Over runs, what was answered at once or fetched is what is read later, unless read or aborted before |
| RnfAnswers.ContextIsTold | src/rnfcall_cookiecall.hh:71-126 | Exactly which steps tell the context, and which state |
| RnfAnswers.ContextIsToldTruly | src/rnfcall_cookiecall.hh:71-126 | In every run, a told result is a value in the promise, a told failure an exception |
| RnfAnswers.AbortedIsNotDelivered | src/rnfcall.hh:692-727 | Over every run, nothing is delivered any more after a finished call was aborted |
| RnfAnswers.AbortIsAcceptedOnce | src/rnfcall.cc:41-104 | Exactly when an undisturbed abort is accepted, and that nothing can be read, nor another one be accepted, after that |
| RnfAnswers.AbortAsksPeer | src/rnfcall.cc:51-86 | Exactly when the peer is asked, by which cookie, and that a late signal still finds the call |
| RnfAnswers.AbortNeedsConsent | src/rnfcall.cc:84-97 | The second half of an abort follows exactly if the peer agrees |
| RnfAnswers.SignalIsForCall | src/rnfcall.cc:106-144 | Exactly which signals change a call, and how |
| RnfAnswers.BlockingFetchWaits | src/rnfcall.hh:571-590 | A blocking fetch waits exactly until the signal has come |
| RnfAnswers.LookUpUsesFunctionUp | src/cookie_manager_impl.cc:143-165 | The lookup for a signal takes the function for its cookie, whoever has registered it |
| RnfAnswers.FirstRegistrationStays | src/cookie_manager_impl.cc:83-92 | The first registration for a cookie stays, others are left alone |
| RnfTheorems.AtomicAbortsLoseNothing | src/rnfcall.cc:41-104 | With undisturbed aborts the promise is satisfied exactly for finished calls, and outcomes stay, except that a throwing context fails a call on the fast path |
| RnfTheorems.OutcomeLostExactly | src/rnfcall.cc:84-97 | In every interleaving a step changes an outcome exactly if it completes an abort, or if the context throws on the fast path |
| RnfTheorems.OutcomeLasts | src/rnfcall.cc:41-104 | Over every run an outcome lasts exactly as long as no such step is made |
| RnfTheorems.PromiseMeansFinished | src/rnfcall.cc:41-104 | Over every run the promise is satisfied exactly for finished calls if and only if no abort was completed after the call was finished |
| RnfTheorems.AbortOverwritesResult | src/rnfcall.cc:84-97 | A run in which a disturbed abort overwrites a result already delivered |
| Buffering.Data.SetBufferLevel | src/buffering.hh:114-137 | The level for a percentage, and what change is detected |
| Buffering.Data.StartBuffering | src/buffering.hh:139-144 | Requires that buffering has not begun |
| Buffering.Data.ResetData | src/buffering.hh:189-193 | Not buffering, and full |
| Buffering.Data.EnteredPause | src/buffering.hh:146-163 | A pending pause becomes definite |
| Buffering.Data.TryLeaveBufferingState | src/buffering.hh:165-187 | Left exactly if definitely paused and full |
| Buffering.Controller.OnUnderrun | src/streamer.cc:2793-2863 | How buffering begins, depending on the pipeline |
| Buffering.Controller.OnReport | src/streamer.cc:2865-2925 | Reports while stopped or out of range are ignored |
| Buffering.Controller.LeaveIfFilled | src/streamer.cc:2284-2317 | Playing is asked for when the buffer is filled and wanted |
| Buffering.Controller.OnStateChanged | src/streamer.cc:2455-2568 | The pauses which buffering waits for |
| Buffering.Controller.OnUriPassed | src/streamer.cc:1037-1083 | A network stream begins with an underrun |
| Buffering.Controller.EncourageBuffering | src/streamer.cc:1037-1045 | The level of a network stream drops to zero, as if reported |
| Buffering.Controller.OnStart | src/streamer.cc:3504-3600 | Only the wish is recorded while buffering; otherwise the pipeline is asked to play (see Buffering.StartAsksToPlay, TargetIsLastWish) |
| Buffering.Controller.OnPause | src/streamer.cc:3680-3746 | Only the wish is recorded while buffering; otherwise the pipeline is asked to pause (see Buffering.PauseAsksToPause, TargetIsLastWish) |
| Buffering.NeverStuck | src/streamer.cc:2284-2317 | In every run, nobody waits for a full buffer while it is full |
| Buffering.StartsAtUnderrun | src/streamer.cc:2793-2863 | Buffering only begins at an underrun, with the pipeline asked to pause or paused already |
| Buffering.EndsExactlyIfFull | src/buffering.hh:146-187 | With any reports and wishes before and after the definite pause, buffering ends exactly if the buffer is full at the pause or reported full later |
| Buffering.FullThenLessThenPause | src/buffering.hh:146-187 | Full, then less, then the pause: buffering goes on |
| Buffering.WishSurvivesBuffering | src/streamer.cc:3524-3530 | In an episode begun with a pause nothing is asked of the pipeline, and at its end playing is asked for exactly if it is the last wish |
| Buffering.PipelineFollowsWish | src/streamer.cc:2297-2309 | For every episode, with any reports, wishes and state messages: exactly when the pipeline ends up as the user wants |
| Buffering.PauseIsLost | src/streamer.cc:2818-2839 | A pause wanted while buffering which is lost |
| Buffering.ReportStartsBuffering | src/buffering.hh:114-137 | Exactly the reports below 15 percent begin buffering, unless known to be that low, and only on the way to playing or pausing |
| Buffering.ReportEndsBuffering | src/buffering.hh:114-187 | Exactly the first report of a full buffer after the definite pause ends it |
| Buffering.UnderrunPauses | src/streamer.cc:2793-2863 | What is asked of the pipeline when buffering begins, and which pause is waited for |
| Buffering.ReportAsksNothing | src/streamer.cc:2865-2925 | All other reports ask nothing |
| Buffering.LeavingAnswers | src/buffering.hh:165-187 | What an attempt to leave answers, exactly |
| Buffering.MessageMeans | src/streamer.cc:2455-2568 | What each message from the pipeline means for buffering |
| Buffering.ReportsAreIgnored | src/streamer.cc:2865-2925 | Over any run of reports, nothing happens once the player has stopped |
| Buffering.PauseAsksToPause | src/streamer.cc:3680-3746 | What a pause asks of the pipeline, in each of its states, while buffering or not |
| Buffering.StartAsksToPlay | src/streamer.cc:3504-3600 | What a start asks of the pipeline, in each of its states, while buffering or not |
| Buffering.TargetIsLastWish | src/streamer.cc:3504-3746 | Over any run of wishes without buffering, the pipeline is asked for what was wished last |
| BoostedThreads.Threads.Boost | src/boosted_threads.cc:52-73 | All registered threads get their priority, in any order |
| BoostedThreads.Threads.Throttle | src/boosted_threads.cc:75-96 | All registered threads lose it |
| BoostedThreads.Threads.AddSelf | src/boosted_threads.cc:98-126 | The thread is configured as the present mode requires |
| BoostedThreads.Threads.RemoveSelf | src/boosted_threads.cc:128-151 | The thread loses its priority, registered or not |
| BoostedThreads.PrioritiesNeverLeak | src/boosted_threads.cc:52-151 | In every run threads have their own priority exactly while registered and boosted |
| BoostedThreads.PriorityIsAsAsked | src/boosted_threads.cc:52-151 | After any operations, a thread has the priority it registered with last and was not removed since exactly if boosting was asked for last |
| BoostedThreads.EarlyReturnsAreSound | src/boosted_threads.cc:61-89 | Returning early is as good as configuring all threads again |
| Tokenizer.TokenizeMetaData | src/stream_logging.cc:50-87 | The C strings at the offsets are the first three fields; offsets are in bounds; two separators can be undone |
| Tokenizer.SplitFrom | src/stream_logging.cc:64-79 | The offsets at which fields begin are those of the split |
| Seek.SeekTo | src/streamer.cc:3787-3845 | Exactly the positions inside of the stream are sought, with percentages rounded down |
| Seek.PercentIsFloor | src/streamer.cc:3756-3765 | The position is the floor of the exact one, inside of the stream |
| Seek.UnitsAgree | src/streamer.cc:3817-3824 | Seconds, milli-, micro- and nanoseconds are a thousand of each other |
| Seek.PercentIsMonotone | src/streamer.cc:3756-3765 | Positions are monotone, from 0 to the duration |
| Seek.ResumeIsJustBefore | src/streamer.cc:1918-1927 | A saved position fits into 64 bits and lies less than a second below the queried one; exactly which are saved |

## Left out

- D-Bus and GStreamer plumbing, tags, cover art, stream data, logging, names of enum values: foreign
  calls and tables without behaviour of their own.
- `src/streamplayer.cc`, `src/strbo_url.cc`, `src/strbo_usb_url.cc`, `src/stopped_reasons.cc`: option
  parsing, library URIs, lookup tables. Whether a URL has a translation is an input of `BuildUrls`.
- Spacing of meta-data updates: it depends on the scheduling of stale timers.
- Removal of items by path (`src/streamer.cc:4105`): it decides from real paths in the file system whether to stop the
  player, which is modelled as a stop request. `UrlFifo.Queue.ClearWhile` has no caller in the model.
- Order of the locks of the player's data: each handler is one atomic step.
- Pipeline states, results of state changes, the clock and answers of the resolver: inputs of each step,
  the clock read once per step. Start-of-stream messages of a replaced pipeline are acted on like any other
  (`src/streamer.cc:2617-2623`) and are steps; other messages of a replaced pipeline do nothing and are not.
- Failure details other than the reason: written but not read, except for clearing the queue on error, which is
  always overwritten with false on the only path to its reader, so it is not modelled. How GStreamer's errors map to
  reasons is an input.
- `PlayItem.Item.GetUrlForPlaying`: the source has no defined result without URLs; the model yields an
  empty one. The same goes for selecting a URL and finishing the resolver.
- `Streamer.Engine.OnLinkResolved`: does not model the buffering it starts, which is part of
  `Buffering`; requires a current stream if the pipeline accepts to start, since the source follows a null pointer
  otherwise. The same goes for `Streamer.Engine.Resolve`, `LinkNotified`, `QueueStreamFromFifo` and `AboutToFinish`, as
  far as a URI is found.
- `Streamer.Engine.StreamStart`: requires a current stream, or a buffering pipeline with something in
  the queue, for the same reason.
- `Streamer.Engine.ErrorMessage`: requires a current stream and a queued one for errors blamed on the
  next stream, for the same reason.
- `Streamer.Engine.StateChanged`: requires a current stream where the source reads it, see
  `PlayerInvariant.ChangeReadsCurrent`, for the same reason.
- `Streamer.Engine.LinkNotified`: does not model that a call is over whose answer comes later and goes to a current stream
  with the same ID; that the next item gets no answer then is only stated for answers which come at once.
- Seeking: the player's state does not change; a step `EvSought` only says that the current stream is read. The pipeline
  is part of `Buffering`, and the position of `Seek`.
- `Buffering.Controller.LeaveIfFilled`: does not model that the current stream is read when the buffer is filled; for
  state messages this is part of `Streamer.Engine.StateChanged`, for buffering reports it is not modelled.
- `Rnf.CookieCall.Request`: the error code stored by a signal, status watchers, the detached flag and
  destruction are not part of the model; runs end before the call object is destroyed.
- `RnfTheorems.LookUpFindsCall`: requires that the cookie is new, that is, not registered by another
  call and not just being looked up for an earlier signal. What happens otherwise is stated by
  `RnfTheorems.StaleCookieTellsNothing`, for all reasons, and `RnfTheorems.DuplicateCookieIsNeverServed`.
- `Buffering.Controller.OnStart`: which stream is played then is left to `Streamer`; the two share the wish
  of the user and the states asked of the pipeline, not one object.
- `Seek.SeekTo`: requires that position times unit fits into 64 bits, as the source does not check it.
- `BoostedThreads.Threads.ConfigureThread`: setting a priority is assumed to succeed.

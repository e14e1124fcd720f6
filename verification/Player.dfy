/** What each step of the transport engine does to the player, as functions on values.
    Everything GStreamer and the D-Bus peers decide is a parameter of the step. */
module Player {
  import opened Base
  import opened PlayItem

  datatype Request = NotRequested | Requested | Deferred

  datatype PlayStatus = Stopped | Playing | Paused

  datatype GstState = VoidPending | Null | Ready | GstPaused | GstPlaying

  /** A removed item as far as it matters for a report. */
  datatype Tag = Tag(num: nat, id: nat)

  /** IDs told to the controlling program: removed items in the order of their removal,
      then the other dropped IDs in any order. */
  datatype Report = Report(removed: seq<Tag>, extra: set<nat>)

  /** An ID was marked as dropped after so many reports. */
  datatype Mark = Mark(id: nat, reportsBefore: nat)

  /** What has happened so far. None of this is read by a step, except for the count of accepted
      items, which numbers the next one. */
  datatype History = History(
    accepted: nat,          // number of accepted pushes
    played: seq<nat>,       // items which became the current stream
    failedNext: seq<nat>,   // items taken from the queue because prefetching them failed
    blamed: seq<nat>,       // items named by messages about a stop with an error
    reports: seq<Report>,   // reports sent
    marks: seq<Mark>)       // what was marked as dropped

  datatype State = State(
    cap: nat,
    activated: bool,
    status: PlayStatus,
    queue: seq<ItemData>,
    removed: seq<Tag>,
    dropped: set<nat>,
    current: Option<ItemData>,
    protectedOnce: bool,
    request: Request,
    justStarted: bool,
    uri: string,
    asked: seq<bool>,       // whether the pipeline accepted a state asked of it together with a URI, each time
    hist: History)

  /** Where an item pointer points to: it is the head of the queue or the current stream. */
  datatype Loc = AtHead | AtCurrent

  /** How a request for resolving a link is answered at once: with a URI (empty if the
      link is broken), with a cookie, or not at all because the call fails. */
  datatype Answer = Fast(uri: string, valid: nat) | Cookie | CallFailed

  /** The call after such an answer: its own context is told only if it comes later. */
  function Called(answer: Answer): Resolver {
    if answer.Cookie? then Pending else Over
  }

  /** The environment of one step: the answers to resolver requests, whether the pipeline accepts
      a new state, and the time. */
  datatype Env = Env(answer: (Loc, nat) -> Answer, pipelineOk: bool, now: int)

  predicate Has(s: State, loc: Loc) {
    if loc.AtHead? then s.queue != [] else s.current.Some?
  }

  function Get(s: State, loc: Loc): ItemData
    requires Has(s, loc)
  {
    if loc.AtHead? then s.queue[0] else s.current.value
  }

  function Put(s: State, loc: Loc, it: ItemData): (r: State)
    requires Has(s, loc)
    ensures Has(r, loc) && Get(r, loc) == it
  {
    if loc.AtHead? then s.(queue := s.queue[0 := it]) else s.(current := Some(it))
  }

  function TagOf(it: ItemData): Tag {
    Tag(it.num, it.id)
  }

  function Tags(items: seq<ItemData>): (r: seq<Tag>)
    ensures |r| == |items|
    ensures forall i :: 0 <= i < |r| ==> r[i] == TagOf(items[i])
  {
    if items == [] then [] else Tags(items[..|items| - 1]) + [TagOf(items[|items| - 1])]
  }

  // ----- the queue and the reports -----

  function TakeHead(s: State): State {
    if s.queue == [] then s
    else s.(current := Some(s.queue[0]), queue := s.queue[1..],
            hist := s.hist.(played := s.hist.played + [s.queue[0].num]))
  }

  function FailHead(s: State): State
    requires s.queue != []
  {
    s.(queue := s.queue[1..], hist := s.hist.(failedNext := s.hist.failedNext + [s.queue[0].num]))
  }

  function PopDrop(s: State): State {
    if s.queue == [] then s
    else s.(queue := s.queue[1..], removed := s.removed + [TagOf(s.queue[0])])
  }

  function ClearTail(s: State, keep: nat): State {
    if keep >= |s.queue| then s
    else s.(queue := s.queue[..keep], removed := s.removed + Tags(s.queue[keep..]))
  }

  function Append(s: State, id: nat, urls: seq<Url>): State {
    s.(queue := s.queue + [NewItem(s.hist.accepted, id, urls)],
       hist := s.hist.(accepted := s.hist.accepted + 1))
  }

  function MarkDropped(s: State, id: nat): State {
    s.(dropped := s.dropped + {id}, hist := s.hist.(marks := s.hist.marks + [Mark(id, |s.hist.reports|)]))
  }

  function Ids(tags: seq<Tag>): set<nat> {
    set i | 0 <= i < |tags| :: tags[i].id
  }

  function PendingReport(s: State): Report {
    Report(s.removed, s.dropped - Ids(s.removed))
  }

  predicate IsEmptyReport(r: Report) {
    r.removed == [] && r.extra == {}
  }

  function Drain(s: State): State {
    s.(removed := [], dropped := {})
  }

  function SendReport(s: State): State {
    Drain(s).(hist := s.hist.(reports := s.hist.reports + [PendingReport(s)]))
  }

  function EmitStopped(s: State): State {
    var t := s.(status := Stopped, uri := "");
    if t.current == None && IsEmptyReport(PendingReport(t)) then Drain(t) else SendReport(t)
  }

  function NumOf(it: Option<ItemData>): Option<nat> {
    if it == None then None else Some(it.value.num)
  }

  function Blame(s: State, failed: Option<nat>): State {
    if failed == None then s else s.(hist := s.hist.(blamed := s.hist.blamed + [failed.value]))
  }

  /** The message also names the stream which is given up, if there is one. */
  function EmitStoppedWithError(s: State, failed: Option<nat>): State {
    Blame(SendReport(s.(status := Stopped, uri := "")), failed)
  }

  /** Rebuilding the pipeline leaves its URI unset. */
  function ErrorRecovery(s: State): State {
    EmitStoppedWithError(s.(request := NotRequested), NumOf(s.current)).(current := None, justStarted := false)
  }

  // ----- choosing the next item -----

  /** A current stream which gives way to the head of the queue. */
  predicate GivesWay(current: Option<ItemData>) {
    current == None || current.value.state !in {InQueue, AboutToActivate, ActiveHalfPlaying}
  }

  function PickNext(s: State): (loc: Option<Loc>)
    ensures loc.Some? ==> Has(s, loc.value)
    ensures loc == None ==> s.queue == []
  {
    if !GivesWay(s.current) then Some(AtCurrent)
    else if s.queue != [] then Some(AtHead)
    else None
  }

  /** Result of `TryTakeNext`: whether there is a next stream (it is the current one
      then), and whether it was taken from the queue. */
  datatype Taken = Taken(s: State, found: bool, replaced: bool)

  function TryTakeNext(s: State): (r: Taken)
    ensures r.found ==> r.s.current.Some?
  {
    var next := PickNext(s);
    if next.Some? && Get(s, next.value).urls != [] then
      Taken(if next.value.AtHead? then TakeHead(s) else s, true, next.value.AtHead?)
    else if s.current.Some? then
      var t := TakeHead(s);
      Taken(t.(current := Some(t.current.value.(failed := true))), false, true)
    else if s.queue != [] then
      Taken(PopDrop(s), false, false)
    else
      Taken(ErrorRecovery(s), false, false)
  }

  // ----- resolving links and handing URIs to GStreamer -----

  /** Whether the search for a URL, from the given one on, ends with a URI before the step is over. It passes
      by links which are answered at once, but broken. */
  predicate FindsUri(urls: seq<Url>, from: nat, answer: nat -> Answer)
    decreases |urls| - from
  {
    && from < |urls|
    && (|| StreamUri(urls[from]) != ""
        || (&& urls[from].isLink && answer(from).Fast?
            && (answer(from).uri != "" || FindsUri(urls, from + 1, answer))))
  }

  function AnswersFor(loc: Loc, env: Env): nat -> Answer {
    (i: nat) => env.answer(loc, i)
  }

  /** Whether resolving an item ends with a URI being handed over in this step. */
  predicate HandsOver(it: ItemData, loc: Loc, env: Env) {
    !IsResolving(it) && FindsUri(it.urls, it.selected, AnswersFor(loc, env))
  }

  /** When the pipeline accepts to be started, the source reads the current stream without looking whether there
      is one. */
  predicate StartsWithoutCurrent(s: State, loc: Loc, prefetch: bool, env: Env)
    requires Has(s, loc)
  {
    s.current == None && env.pipelineOk && (!prefetch || Get(s, loc).startRequired)
  }

  /** Whether this happens while an item is resolved, or its answer is processed. */
  predicate ResolveFollowsNull(s: State, loc: Loc, prefetch: bool, env: Env)
    requires Has(s, loc)
  {
    StartsWithoutCurrent(s, loc, prefetch, env) && HandsOver(Get(s, loc), loc, env)
  }

  predicate AnswerFollowsNull(s: State, loc: Loc, uri: string, prefetch: bool, env: Env)
    requires Has(s, loc)
  {
    && StartsWithoutCurrent(s, loc, prefetch, env)
    && (uri != "" || FindsUri(Get(s, loc).urls, Get(s, loc).selected + 1, AnswersFor(loc, env)))
  }

  function OnLinkResolved(s: State, loc: Loc, prefetch: bool, env: Env): (State, bool)
    requires Has(s, loc)
  {
    var it := Get(s, loc);
    var t := s.(uri := UrlForPlaying(it), request := NotRequested);
    var u := t.(asked := s.asked + [env.pipelineOk]);
    if !prefetch then (u, env.pipelineOk)
    else if !it.startRequired then (t, true)
    else (Put(u, loc, it.(startRequired := false)), env.pipelineOk)
  }

  /** The item with the given ID, if it is still the current stream or the head of the queue. */
  function Locate(s: State, id: nat): (loc: Option<Loc>)
    ensures loc.Some? ==> Has(s, loc.value) && Get(s, loc.value).id == id
  {
    if s.current.Some? && s.current.value.id == id then Some(AtCurrent)
    else if s.queue != [] && s.queue[0].id == id then Some(AtHead)
    else None
  }

  function Remaining(it: ItemData): nat {
    if HasUrl(it) then |it.urls| - it.selected else 0
  }

  function Rank(loc: Loc): nat {
    if loc.AtHead? then 1 else 0
  }

  /** The selected URL is passed on if it is known, otherwise it is asked for. An answer
      on the fast path is processed before this step ends. */
  function Resolve(s: State, loc: Loc, prefetch: bool, env: Env): (State, bool)
    requires Has(s, loc)
    decreases Rank(loc), Remaining(Get(s, loc)), 1
  {
    var it := Get(s, loc);
    match SelectedUrlState(it)
    case KnownDirectUrl => OnLinkResolved(s, loc, prefetch, env)
    case KnownResolvedUrl => OnLinkResolved(s, loc, prefetch, env)
    case ResolvingLink => (s, true)
    case Broken => (s, false)
    case KnownAirableLink =>
      var t := Put(s, loc, it.(resolver := Called(env.answer(loc, it.selected))));
      match env.answer(loc, it.selected)
      case Cookie => (t, true)
      case CallFailed => (t, true)
      case Fast(uri, valid) =>
        var found := if t.current.Some? && t.current.value.id == it.id then AtCurrent else loc;
        (LinkAnswered(t, found, uri, valid, prefetch, env), true)
  }

  /** The answer for the selected URL of an item: pass it on, or try the next alternative. */
  function LinkAnswered(s: State, loc: Loc, uri: string, valid: nat, prefetch: bool, env: Env): State
    requires Has(s, loc)
    decreases Rank(loc), Remaining(Get(s, loc)), 0
  {
    var it := ResolverFinish(Get(s, loc), uri, valid, env.now);
    var t := Put(s, loc, it);
    if uri != "" then OnLinkResolved(t, loc, prefetch, env).0
    else if !HasMoreUrls(it) then t
    else
      var (next, ok) := SelectNextUrl(it, env.now);
      if ok then Resolve(Put(t, loc, next), loc, prefetch, env).0 else t
  }

  // ----- playing -----

  /** The next item is about to be activated, the one it replaces is on its way out. */
  function Activating(s: State, replaced: bool, loc: Loc, skipping: bool): (t: State)
    requires Has(s, loc) && (replaced ==> Has(s, AtCurrent))
    ensures Has(t, loc)
  {
    var t := Put(s, loc, Get(s, loc).(state := AboutToActivate));
    if !replaced then t
    else Put(t, AtCurrent, Get(t, AtCurrent).(state := if skipping then AboutToBeSkipped else AboutToPhaseOut))
  }

  /** `replaced` tells that the current stream is going to be replaced; it may be the very
      item which is to be played next. */
  function PlayNext(s: State, replaced: bool, loc: Loc, skipping: bool, prefetch: bool, env: Env): (State, bool)
    requires Has(s, loc) && (replaced ==> Has(s, AtCurrent))
  {
    var it := Get(s, loc);
    match it.state
    case InQueue => Resolve(Activating(s, replaced, loc, skipping), loc, prefetch, env)
    case AboutToActivate =>
      (if !replaced && s.request == Requested then s.(request := Deferred) else s, true)
    case ActiveHalfPlaying => (s, false)
    case ActiveNowPlaying => (s, false)
    case AboutToPhaseOut => (s, false)
    case AboutToBeSkipped => (s, false)
  }

  /** Answering a request from the queue does not follow a null pointer. */
  predicate HeadMayBeHandedOver(s: State, env: Env) {
    s.queue != [] && s.queue[0].state == InQueue ==> !ResolveFollowsNull(s, AtHead, true, env)
  }

  function QueueFromFifo(s: State, env: Env): State
  {
    var next := PickNext(s);
    if next.Some? then PlayNext(s, next.value.AtCurrent?, next.value, false, true, env).0
    else if s.current.Some? then s.(current := Some(s.current.value.(state := AboutToPhaseOut)))
    else s
  }

  datatype Activation = InvalidItem | InvalidState | AlreadyActive | Activated

  function ActivatedState(state: ItemState, fifoEmpty: bool, phase: nat): (ItemState, Activation) {
    match state
    case ActiveHalfPlaying =>
      if phase <= 1 then (state, AlreadyActive)
      else if phase == 2 then (if fifoEmpty then AboutToPhaseOut else ActiveNowPlaying, Activated)
      else (state, InvalidState)
    case ActiveNowPlaying => (state, if phase == 0 || phase == 2 then AlreadyActive else InvalidState)
    case AboutToPhaseOut => (state, if phase == 0 || phase == 2 then AlreadyActive else InvalidState)
    case InQueue => (AboutToBeSkipped, InvalidState)
    case AboutToBeSkipped => (state, InvalidState)
    case AboutToActivate =>
      if phase <= 1 then (ActiveHalfPlaying, Activated)
      else if phase == 2 then (ActiveNowPlaying, Activated)
      else (state, InvalidState)
  }

  function ActivateStream(s: State, phase: nat): (State, Activation) {
    match s.current
    case None => (s, InvalidItem)
    case Some(it) =>
      var (state, result) := ActivatedState(it.state, s.queue == [], phase);
      (s.(current := Some(it.(state := state))), result)
  }

  // ----- messages from GStreamer -----

  function AboutToFinish(s: State, env: Env): State
  {
    QueueFromFifo(s.(request := Requested), env)
  }

  function EndOfStream(s: State): State
  {
    var t :=
      if s.queue == [] then EmitStopped(s)
      else
        var u := Put(s, AtHead, s.queue[0].(startRequired := true));
        if StartRequiredFor(SelectedUrlState(s.queue[0])) == NotRequired then EmitStopped(u) else u;
    t.(current := None, uri := "")
  }

  /** The item looked at when a stream starts, and whether it will become the current stream. */
  function PickStarted(s: State): (loc: Option<Loc>)
    ensures loc.Some? ==> Has(s, loc.value)
    ensures loc == None ==> s.current == None && s.queue == []
  {
    var next := PickNext(s);
    if next == None && s.current.Some? then Some(AtCurrent) else next
  }

  /** Whether the picked stream is put through activation from half playing. */
  function NeedsActivation(s: State, picked: Loc): bool
    requires Has(s, picked)
  {
    match Get(s, picked).state
    case ActiveHalfPlaying => s.queue != [] && s.queue[0].state == AboutToActivate
    case ActiveNowPlaying => false
    case _ => true
  }

  /** Whether a deferred request of GStreamer is to be answered now. */
  function PushesDeferred(s: State, picked: Loc): bool
    requires Has(s, picked)
  {
    && s.request == Deferred
    && Get(s, picked).state in {InQueue, AboutToBeSkipped, AboutToPhaseOut, AboutToActivate}
  }

  function StartedAs(s: State, fromQueue: bool, activate: bool): (State, Activation)
    requires if fromQueue then s.queue != [] else s.current.Some?
  {
    var taken := if fromQueue then TakeHead(s) else s;
    var ready := if activate then taken.(current := Some(taken.current.value.(state := ActiveHalfPlaying))) else taken;
    var (t, result) := ActivateStream(ready, 2);
    (if result == Activated then SendReport(t) else t, result)
  }

  /** The stream has started: take it from the queue if that is where it is, activate it. */
  function Started(s: State): (State, Activation)
    requires s.current.Some? || s.queue != []
  {
    var picked := PickStarted(s).value;
    StartedAs(s, picked.AtHead?, NeedsActivation(s, picked))
  }

  function StreamStart(s: State, env: Env): State
    requires s.current.Some? || s.queue != []
  {
    var (t, _) := Started(s);
    if PushesDeferred(s, PickStarted(s).value) then QueueFromFifo(t.(request := Requested), env) else t
  }

  /** A state change message: of a video decoder, and of the pipeline itself. `buffering` tells that the pipeline
      is buffering, `filled` that a pause which is definite now puts an end to that. */
  datatype Change = Change(
    ofDecoder: bool, ofPipeline: bool,
    before: GstState, state: GstState, pending: GstState, target: GstState,
    buffering: bool, filled: bool)

  /** Messages about no change at all are not acted on. */
  predicate IsIgnored(c: Change) {
    !c.ofPipeline || (c.state == c.before && c.state in {Ready, Null})
  }

  /** The pipeline has paused for a stream which is about to be played. */
  predicate HasJustStarted(c: Change) {
    c.state == GstPaused && c.before in {Ready, Null} && c.pending == GstPlaying
  }

  /** Whether the current stream is read without looking whether there is one: when buffering ends, and when
      the controlling program is told that playback goes on. */
  predicate ChangeReadsCurrent(s: State, c: Change) {
    && !IsIgnored(c)
    && (|| (c.filled && c.target == GstPaused && (c.pending == VoidPending || HasJustStarted(c)))
        || (!c.buffering && c.target == GstPlaying && c.pending == VoidPending && s.justStarted))
  }

  function Prefailed(it: ItemData, reason: Reason): ItemData {
    if HasPrefailed(it) then it else it.(prefail := reason)
  }

  function DecoderSeen(s: State, c: Change): State {
    if c.ofDecoder && c.state in {GstPaused, GstPlaying, Ready} && s.current.Some?
    then s.(current := Some(Prefailed(s.current.value, WrongType)))
    else s
  }

  /** The current stream gives way to the head of the queue, unless it is protected this time. */
  function CurrentReplaced(s: State): State {
    (if s.protectedOnce then s.(protectedOnce := false)
     else if s.queue == [] then s.(current := None)
     else TakeHead(s)).(justStarted := false)
  }

  function ReachedReady(s: State): State {
    var t := s.(uri := "");
    var url := if t.current.Some? then SelectedUrlState(t.current.value) else Broken;
    if url in {KnownAirableLink, ResolvingLink} then t
    else CurrentReplaced(if url in {KnownDirectUrl, KnownResolvedUrl} then EmitStopped(t) else t)
  }

  function TargetReached(s: State, target: GstState): State {
    match target
    case Ready => ReachedReady(s)
    case GstPaused => ActivateStream(s, 0).0
    case GstPlaying => (if s.justStarted then s else ActivateStream(s, 0).0).(justStarted := false)
    case VoidPending => s
    case Null => s
  }

  function StateChanged(s: State, c: Change): State {
    var t := DecoderSeen(s, c);
    if IsIgnored(c) then t
    else
      var u := if HasJustStarted(c) then t.(justStarted := true) else t;
      if c.pending != VoidPending then u else TargetReached(u, c.target)
  }

  // ----- errors -----

  datatype FailedStream = Unknown | CurrentStream(hasReason: bool) | GaplessNext(hasReason: bool)

  /** `uri` is the URI the pipeline is currently working on. */
  function WhichFailed(s: State, uri: string): FailedStream
  {
    if s.current.Some? && HasPrefailed(s.current.value)
    then if uri == "" then GaplessNext(true) else CurrentStream(true)
    else if uri == "" then Unknown
    else if s.current.Some? && UrlForPlaying(s.current.value) == uri then CurrentStream(false)
    else if s.queue != [] && UrlForPlaying(s.queue[0]) == uri then GaplessNext(false)
    else Unknown
  }

  function TryAlternative(s: State, prefetch: bool, env: Env): (State, bool)
  {
    if s.current == None then (s, false)
    else
      var (it, again) := SelectNextUrl(s.current.value, env.now);
      var t := s.(current := Some(it));
      if !again then (t, false)
      else
        Resolve(t.(current := Some(it.(state := AboutToActivate)), protectedOnce := true, uri := ""),
                AtCurrent, prefetch, env)
  }

  /** An error is handled with an item only: the source reads the current stream and the
      failed head without looking whether they exist. */
  predicate ErrorHasItem(s: State, uri: string)
  {
    WhichFailed(s, uri).GaplessNext? ==> s.current.Some? && s.queue != []
  }

  function CurrentFailed(s: State): State {
    if s.current.Some? && !s.current.value.failed then ErrorRecovery(s) else s
  }

  function PrefetchedFailed(s: State, item: ItemData): State {
    var t := if s.current.Some? then MarkDropped(s, s.current.value.id) else s;
    if item.failed then t
    else EmitStoppedWithError(t, Some(item.num)).(justStarted := false, request := NotRequested, current := None)
  }

  /** Reasons for which another URI might help. */
  predicate WorthRetry(reason: Reason) {
    reason !in {UnknownReason, QueueEmpty, AlreadyStopped, PhysicalMediaIo, Authentication}
  }

  /** The reason to act on: the one detected beforehand, or the one which the reported error maps to. */
  function ReasonFor(it: ItemData, hasReason: bool, mapped: Reason): Reason {
    if hasReason then it.prefail else mapped
  }

  /** An alternative is tried with the current stream if that might help, otherwise the stream is given up. */
  function ErrorOfCurrent(s: State, reason: Reason, env: Env): State {
    if WorthRetry(reason) then
      var (t, ok) := TryAlternative(s, false, env);
      if ok then t else CurrentFailed(t)
    else CurrentFailed(s)
  }

  /** The failed item has been taken from the queue. Again it is the current stream which is tried with an
      alternative. */
  function ErrorOfNext(s: State, item: ItemData, reason: Reason, env: Env): State {
    if WorthRetry(reason) then
      var (t, ok) := TryAlternative(s, true, env);
      if ok then t else PrefetchedFailed(t, item)
    else PrefetchedFailed(s, item)
  }

  function ErrorMessage(s: State, uri: string, mapped: Reason, env: Env): State
    requires ErrorHasItem(s, uri)
  {
    match WhichFailed(s, uri)
    case Unknown => s
    case CurrentStream(hasReason) => ErrorOfCurrent(s, ReasonFor(s.current.value, hasReason, mapped), env)
    case GaplessNext(hasReason) =>
      ErrorOfNext(FailHead(s), s.queue[0], ReasonFor(s.queue[0], hasReason, mapped), env)
  }

  // ----- answers from the resolver -----

  function LinkNotified(s: State, id: nat, uri: string, valid: nat, prefetch: bool, env: Env): State
  {
    match Locate(s, id)
    case None => s
    case Some(loc) => LinkAnswered(s, loc, uri, valid, prefetch, env)
  }

  // ----- requests of the controlling program -----

  predicate PushRefused(s: State, keep: nat) {
    keep >= |s.queue| && |s.queue| >= s.cap
  }

  /** The item is queued, and handed over at once if GStreamer is waiting for it. */
  function AfterPush(s: State, id: nat, urls: seq<Url>, keep: nat, env: Env): State {
    var u := Append(ClearTail(s, keep), id, urls);
    if u.request == Requested && u.current.Some? && u.current.value.state == AboutToPhaseOut
    then QueueFromFifo(u, env) else u
  }

  function Push(s: State, id: nat, urls: seq<Url>, keep: nat, env: Env): State {
    if !s.activated then s
    else if PushRefused(s, keep) then SendReport(s)
    else SendReport(AfterPush(SendReport(s), id, urls, keep, env))
  }

  function ClearQueue(s: State, keep: int): State {
    SendReport(if keep >= 0 then ClearTail(s, keep) else s)
  }

  function TryPlayNext(s: State, env: Env): State
  {
    var taken := TryTakeNext(s);
    if taken.found && (taken.replaced || taken.s.current.value.state == InQueue)
    then PlayNext(taken.s, false, AtCurrent, false, false, env).0
    else taken.s
  }

  /** Resets what belongs to the pipeline, which is built anew. */
  function Rebuilt(s: State): State {
    s.(protectedOnce := true, justStarted := false, request := NotRequested, uri := "")
  }

  function Start(s: State, buffering: bool, pending: GstState, state: GstState, env: Env): State {
    if !s.activated then s
    else
      var t := s.(status := Playing);
      if buffering || pending == GstPlaying || pending == GstPaused then t
      else if state in {Ready, Null} then TryPlayNext(Rebuilt(t), env)
      else t
  }

  function Pause(s: State, buffering: bool, state: GstState, env: Env): State {
    if !s.activated || s.uri == "" then s
    else
      var t := s.(status := Paused);
      if !buffering && state == Null then TryPlayNext(t, env) else t
  }

  /** The queue is cleared unless the pipeline refuses to stop. */
  function StopPipeline(s: State, pending: GstState, state: GstState, env: Env): (State, bool) {
    var t := s.(status := Stopped);
    match (if pending == VoidPending then state else pending)
    case GstPlaying => if env.pipelineOk then (ClearTail(t, 0), false) else (t, true)
    case GstPaused => if env.pipelineOk then (ClearTail(t, 0), false) else (t, true)
    case Ready => (ClearTail(t, 0), true)
    case Null => (ClearTail(t, 0), true)
    case VoidPending => (t, true)
  }

  function Stop(s: State, pending: GstState, state: GstState, after: GstState, env: Env): State {
    if !s.activated || s.uri == "" then s
    else
      var (t, still) := StopPipeline(s, pending, state, env);
      if still && after in {Ready, Null} && pending == VoidPending
      then EmitStoppedWithError(t, NumOf(t.current)).(current := None)
      else t
  }

  function Activate(s: State): State {
    s.(activated := true)
  }

  function Deactivate(s: State, pending: GstState, state: GstState, env: Env): State {
    if !s.activated then s else StopPipeline(s.(activated := false), pending, state, env).0
  }

  function GiveUpCurrent(s: State, skipOnly: bool): State {
    if !skipOnly || s.current == None then s
    else if s.current.value.state in {AboutToActivate, ActiveHalfPlaying} then
      MarkDropped(s.(current := Some(s.current.value.(state := AboutToBeSkipped))), s.current.value.id)
    else s.(current := None)
  }

  /** The new state, and the IDs of the skipped and of the next stream for the reply. */
  datatype NextReply = NextReply(s: State, skipped: Option<nat>, next: Option<nat>)

  function Next(s: State, skipOnly: bool, readyOk: bool, env: Env): NextReply {
    if !s.activated then NextReply(s, None, None)
    else
      var t := GiveUpCurrent(s, skipOnly);
      var skipped := if t.current.Some? then Some(t.current.value.id) else None;
      if t.status == Stopped && skipOnly then NextReply(t, skipped, None)
      else SkipTo(TryTakeNext(t), skipped, readyOk, env)
  }

  /** A current stream which was not taken from the queue just now is in one of the states in which
      `PickNext` picks it, so the source's other cases do not occur. */
  function SkipTo(taken: Taken, skipped: Option<nat>, readyOk: bool, env: Env): NextReply
    requires taken.found ==> taken.s.current.Some?
  {
    if !taken.found then NextReply(taken.s.(status := Stopped), skipped, None)
    else
      var it := taken.s.current.value;
      var u := if !taken.replaced && it.state in {AboutToActivate, ActiveHalfPlaying}
               then taken.s.(current := Some(it.(state := AboutToBeSkipped)))
               else taken.s;
      if !readyOk then NextReply(u, skipped, None)
      else
        var (w, ok) := PlayNext(u, !taken.replaced, AtCurrent, true, false, env);
        NextReply(w, skipped, if ok then Some(it.id) else None)
  }
}

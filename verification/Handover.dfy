/** What requests and messages achieve together: handing over to the next stream without a gap, restarting
    after the end of a stream, moving on after errors, and reporting what was removed. */
module Handover {
  import opened Base
  import opened PlayItem
  import opened Player
  import opened PlayerInvariant
  import opened Playback
  import opened Fallback

  // ----- gapless playback -----

  /** If GStreamer asks for more while a stream is played, it is given the URI of the next item; when
      the next stream starts, this item is the current stream and is played. */
  lemma GaplessHandover(s: State, asked: Env, started: Env)
    requires Live(s) && Shape(s.queue) && s.queue != []
    requires s.queue[0].state == InQueue && KnowsUri(s.queue[0])
    ensures var t := AboutToFinish(s, asked);
      && t.uri == UrlForPlaying(s.queue[0]) && t.request == NotRequested
      && t.current == s.current && t.queue != [] && t.queue[0].num == s.queue[0].num
      && var u := StreamStart(t, started);
      && Live(u) && u.current.value.num == s.queue[0].num && Nums(u.queue) == Nums(s.queue[1..])
  {
    var head := s.queue[0];
    var t := AboutToFinish(s, asked);
    HeadIsHandedOver(s, asked);
    StartedIsLive(t);
    StreamStartIsLive(t, started);
    hide AboutToFinish, Started;
    QueueFromFifoTouches(Started(t).0.(request := Requested), started);
    assert Nums(t.queue[1..]) == Nums(s.queue[1..]);
  }

  lemma HeadIsHandedOver(s: State, env: Env)
    requires Live(s) && Shape(s.queue) && s.queue != []
    requires s.queue[0].state == InQueue && KnowsUri(s.queue[0])
    ensures var t := AboutToFinish(s, env);
      && t.uri == UrlForPlaying(s.queue[0]) && t.request == NotRequested && t.current == s.current
      && |t.queue| == |s.queue| && t.queue[1..] == s.queue[1..]
      && t.queue[0].state == AboutToActivate && t.queue[0].num == s.queue[0].num
  {
  }

  /** An error with the URI just handed over is blamed on the next stream, unless the current stream has the
      same URI, or a reason to fail. */
  lemma HandedOverIsBlamed(s: State, env: Env)
    requires Live(s) && Shape(s.queue) && s.queue != []
    requires s.queue[0].state == InQueue && KnowsUri(s.queue[0])
    ensures var t := AboutToFinish(s, env); var playing := s.current.value;
      WhichFailed(t, t.uri) ==
        if HasPrefailed(playing) then CurrentStream(true)
        else if UrlForPlaying(playing) == UrlForPlaying(s.queue[0]) then CurrentStream(false)
        else GaplessNext(false)
  {
    HeadIsHandedOver(s, env);
    assert AboutToFinish(s, env) ==
      s.(uri := UrlForPlaying(s.queue[0]), request := NotRequested, queue := AboutToFinish(s, env).queue,
         asked := AboutToFinish(s, env).asked);
    hide AboutToFinish, KnowsUri;
  }

  // ----- starting and skipping -----

  /** The URI of an item which is played at once. */
  function UriOf(it: ItemData, env: Env): string {
    if HandsOver(it, AtCurrent, env) then FoundUri(it.urls, it.selected, AnswersFor(AtCurrent, env)) else ""
  }

  /** A current stream which has not come to play yet stays, as long as it has URLs. */
  predicate StaysCurrent(current: Option<ItemData>) {
    !GivesWay(current) && current.value.urls != []
  }

  /** What is going to be played: such a current stream, or the head of the queue if it has URLs. */
  function NextItem(current: Option<ItemData>, queue: seq<ItemData>): Option<ItemData> {
    if StaysCurrent(current) then current
    else if GivesWay(current) && queue != [] && queue[0].urls != [] then Some(queue[0])
    else None
  }

  /** Whether the head of the queue becomes the current stream. A head without URLs only does if there is a
      current stream for which it can be exchanged. */
  predicate TakesHead(current: Option<ItemData>, queue: seq<ItemData>) {
    queue != [] && !StaysCurrent(current) && (current.Some? || queue[0].urls != [])
  }

  /** Whether its URI is handed over at once. An item which is on its way already is left alone. */
  predicate HandsNextOver(current: Option<ItemData>, queue: seq<ItemData>, env: Env) {
    var it := NextItem(current, queue);
    it.Some? && it.value.state == InQueue && HandsOver(it.value, AtCurrent, env)
  }

  function Moved(queue: seq<ItemData>, advance: bool): seq<ItemData> {
    if advance && queue != [] then queue[1..] else queue
  }

  /** What `TryTakeNext` does in terms of these. */
  lemma NextIsTaken(s: State)
    ensures var r := TryTakeNext(s); var t := r.s; var next := NextItem(s.current, s.queue);
      && (r.found <==> next.Some?) && (next == None ==> r.replaced == s.current.Some?)
      && (next.Some? ==> r.s.current == next && r.replaced == !StaysCurrent(s.current))
      && t.queue == Moved(s.queue, !StaysCurrent(s.current))
      && t.hist.played == s.hist.played + (if TakesHead(s.current, s.queue) then [s.queue[0].num] else [])
      && (next.Some? ==> t == s.(current := next, queue := t.queue, hist := t.hist))
      && (TakesHead(s.current, s.queue) ==> t.current.Some? && TagOf(t.current.value) == TagOf(s.queue[0]))
      && (s.current.Some? || s.queue != [] ==>
            t == s.(current := t.current, queue := t.queue, removed := t.removed, hist := t.hist))
      && (s.current == None && s.queue == [] ==> t == ErrorRecovery(s))
  {
    hide PendingReport;
  }

  /** A request to start a pipeline which is not running, whatever the current stream and the queue are: which item
      leaves the queue, and which becomes the current stream. A URI is handed over exactly if one is found for
      the next item and that is not on its way already. Otherwise the player is playing without anything to play. */
  lemma StartPlaysNext(s: State, pending: GstState, state: GstState, env: Env)
    requires s.activated && pending in {VoidPending, Null, Ready} && state in {Ready, Null}
    ensures var t := Start(s, false, pending, state, env); var next := NextItem(s.current, s.queue);
      && t.queue == Moved(s.queue, !StaysCurrent(s.current))
      && t.hist.played == s.hist.played + (if TakesHead(s.current, s.queue) then [s.queue[0].num] else [])
      && (TakesHead(s.current, s.queue) ==> t.current.Some? && TagOf(t.current.value) == TagOf(s.queue[0]))
      && (next.Some? ==> IsSetUp(next.value, t.current))
      && (t.uri != "" <==> HandsNextOver(s.current, s.queue, env))
      && (t.uri != "" ==> t.uri == UriOf(next.value, env))
      && t.request == NotRequested && !t.justStarted && t.protectedOnce
      && t.status == (if s.current == None && s.queue == [] then Stopped else Playing)
  {
    var r := Rebuilt(s.(status := Playing));
    NextIsTaken(r);
    var taken := TryTakeNext(r);
    hide TryTakeNext, HandsOver, TakesHead, StaysCurrent, PendingReport;
    if taken.found {
      HeadIsPlayed(taken.s, false, env);
    }
  }

  /** A waiting item is on its way now, others are left alone. */
  ghost predicate IsSetUp(it: ItemData, current: Option<ItemData>) {
    && current.Some? && TagOf(current.value) == TagOf(it)
    && current.value.state == (if it.state == InQueue then AboutToActivate else it.state)
    && (it.state != InQueue ==> current.value == it)
  }

  /** What becomes of a request if nothing is handed over: it is deferred if the item is on its way already. */
  function Passed(request: Request, state: ItemState): Request {
    if request == Requested && state == AboutToActivate then Deferred else request
  }

  lemma HeadIsPlayed(u: State, skipping: bool, env: Env)
    requires u.current.Some?
    ensures var (r, ok) := PlayNext(u, false, AtCurrent, skipping, false, env); var head := u.current.value;
      && r == u.(current := r.current, uri := r.uri, request := r.request, asked := r.asked)
      && IsSetUp(head, r.current)
      && (if head.state == InQueue && HandsOver(head, AtCurrent, env) then HandedOver(r, UriOf(head, env))
          else r.uri == u.uri && r.request == Passed(u.request, head.state))
      && (head.state == AboutToActivate ==> ok) && (head.state !in {InQueue, AboutToActivate} ==> !ok)
      && (head.state == InQueue ==> ok == ResolvesWell(head, env))
  {
    var head := u.current.value;
    if head.state == InQueue {
      var t := u.(current := Some(head.(state := AboutToActivate)));
      assert PlayNext(u, false, AtCurrent, skipping, false, env) == Resolve(t, AtCurrent, false, env);
      SearchIgnoresState(head, AboutToActivate, env);
      hide PlayNext, Resolve, HandsOver, UriOf, ResolvesWell, AwaitsAnswer, KnowsUri;
      CurrentIsResolved(t, false, env);
      WhenResolved(t, false, env);
    }
  }

  /** What is found for an item does not depend on its state. */
  lemma SearchIgnoresState(it: ItemData, state: ItemState, env: Env)
    ensures var r := it.(state := state);
      && HandsOver(r, AtCurrent, env) == HandsOver(it, AtCurrent, env) && UriOf(r, env) == UriOf(it, env)
      && AwaitsAnswer(r, AtCurrent, env) == AwaitsAnswer(it, AtCurrent, env)
      && ResolvesWell(r, env) == ResolvesWell(it, env) && KnowsUri(r) == KnowsUri(it)
  {
    hide FindsUri, FirstStop;
  }

  /** Whether resolving an item to be played at once counts as a success. Links do, whatever becomes of them. */
  predicate ResolvesWell(it: ItemData, env: Env) {
    match SelectedUrlState(it)
    case Broken => false
    case KnownDirectUrl => env.pipelineOk
    case KnownResolvedUrl => env.pipelineOk
    case _ => true
  }

  /** The current stream which is left by a request to skip, depending on its kind. */
  function Left(current: Option<ItemData>, skipOnly: bool): Option<ItemData> {
    if !skipOnly || current == None then current
    else if current.value.state in {AboutToActivate, ActiveHalfPlaying}
    then Some(current.value.(state := AboutToBeSkipped))
    else None
  }

  /** The ID which a request to skip answers with, given that the item is the next one. */
  function Announced(stays: bool, it: ItemData, env: Env): Option<nat> {
    match it.state
    case InQueue => if ResolvesWell(it, env) then Some(it.id) else None
    case AboutToActivate => if stays then None else Some(it.id)
    case _ => None
  }

  /** A request to skip, whatever the current stream and the queue are, and whether or not the pipeline agrees to
      rest: which item leaves the queue and which one is next. A URI is handed over exactly if one is found for the
      next item, that is not on its way already, and the pipeline agrees. A stream which is being activated is
      neither left for the head of the queue nor announced. */
  lemma NextPlaysNext(s: State, skipOnly: bool, readyOk: bool, env: Env)
    requires s.activated && !(s.status == Stopped && skipOnly) && Shape(s.queue)
    ensures var r := Next(s, skipOnly, readyOk, env); var t := r.s;
      var left := Left(s.current, skipOnly); var stays := StaysCurrent(left); var next := NextItem(left, s.queue);
      && t.queue == Moved(s.queue, !stays)
      && t.hist.played == s.hist.played + (if TakesHead(left, s.queue) then [s.queue[0].num] else [])
      && (TakesHead(left, s.queue) ==> t.current.Some? && TagOf(t.current.value) == TagOf(s.queue[0]))
      && (next.Some? ==>
            && t.current.Some? && TagOf(t.current.value) == TagOf(next.value)
            && t.status == s.status && t.protectedOnce == s.protectedOnce
            && (if readyOk && HandsNextOver(left, s.queue, env) then HandedOver(t, UriOf(next.value, env))
                else t.uri == s.uri && t.request in {s.request, Passed(s.request, next.value.state)})
            && (next.value.state != InQueue && !stays ==> t.current == next)
            && (next.value.state != InQueue && stays ==>
                  t == s.(current := Some(next.value.(state := AboutToBeSkipped)))))
      && r.next == (if next.Some? && readyOk then Announced(stays, next.value, env) else None)
      && (next == None ==> t.status == Stopped)
      && r.skipped == (if left.Some? then Some(left.value.id) else None)
  {
    var g := GiveUpCurrent(s, skipOnly);
    var left := Left(s.current, skipOnly);
    assert g == s.(current := left, dropped := g.dropped, hist := g.hist) && g.hist.played == s.hist.played;
    assert StaysCurrent(left) ==> g == s;
    var skipped := if left.Some? then Some(left.value.id) else None;
    assert Next(s, skipOnly, readyOk, env) == SkipTo(TryTakeNext(g), skipped, readyOk, env);
    SkipPlaysNext(g, skipped, readyOk, env);
    hide Next, TryTakeNext, GiveUpCurrent, SkipTo, Left, StaysCurrent, NextItem, TakesHead, HandsNextOver, Announced;
    hide Moved, Passed, UriOf, HandedOver;
  }

  /** The same once the current stream has been left. */
  lemma SkipPlaysNext(s: State, skipped: Option<nat>, readyOk: bool, env: Env)
    requires Shape(s.queue)
    ensures var r := SkipTo(TryTakeNext(s), skipped, readyOk, env); var t := r.s;
      var stays := StaysCurrent(s.current); var next := NextItem(s.current, s.queue);
      && t.queue == Moved(s.queue, !stays) && r.skipped == skipped
      && t.hist.played == s.hist.played + (if TakesHead(s.current, s.queue) then [s.queue[0].num] else [])
      && (TakesHead(s.current, s.queue) ==> t.current.Some? && TagOf(t.current.value) == TagOf(s.queue[0]))
      && (next.Some? ==>
            && t.current.Some? && TagOf(t.current.value) == TagOf(next.value)
            && t.status == s.status && t.protectedOnce == s.protectedOnce
            && (if readyOk && HandsNextOver(s.current, s.queue, env) then HandedOver(t, UriOf(next.value, env))
                else t.uri == s.uri && t.request in {s.request, Passed(s.request, next.value.state)})
            && (next.value.state != InQueue && !stays ==> t.current == next)
            && (next.value.state != InQueue && stays ==>
                  t == s.(current := Some(next.value.(state := AboutToBeSkipped)))))
      && r.next == (if next.Some? && readyOk then Announced(stays, next.value, env) else None)
      && (next == None ==> t.status == Stopped)
  {
    NextIsTaken(s);
    var taken := TryTakeNext(s);
    SkipToPlays(taken, skipped, readyOk, env);
    hide TryTakeNext, HandsOver, TakesHead, ErrorRecovery, SkipTo, Announced, Moved, Passed, UriOf, KnowsUri;
  }

  lemma SkipToPlays(taken: Taken, skipped: Option<nat>, readyOk: bool, env: Env)
    requires taken.found ==>
      && taken.s.current.Some?
      && taken.s.current.value.state in
           (if taken.replaced then {InQueue, AboutToActivate} else {InQueue, AboutToActivate, ActiveHalfPlaying})
    ensures var r := SkipTo(taken, skipped, readyOk, env); var s := taken.s; var t := r.s;
      && r.skipped == skipped
      && (!taken.found ==> t == s.(status := Stopped) && r.next == None)
      && (taken.found ==>
            var it := s.current.value;
            && t == s.(current := t.current, uri := t.uri, request := t.request, asked := t.asked)
            && t.current.Some? && TagOf(t.current.value) == TagOf(it)
            && r.next == (if readyOk then Announced(!taken.replaced, it, env) else None)
            && (if readyOk && it.state == InQueue && HandsOver(it, AtCurrent, env)
                then HandedOver(t, UriOf(it, env))
                else t.uri == s.uri && t.request in {s.request, Passed(s.request, it.state)})
            && (it.state != InQueue && taken.replaced ==> t.current == s.current)
            && (it.state != InQueue && !taken.replaced ==>
                  t == s.(current := Some(it.(state := AboutToBeSkipped)))))
  {
    if taken.found && readyOk {
      if taken.replaced {
        HeadIsPlayed(taken.s, true, env);
        hide PlayNext, HandsOver, ResolvesWell;
      } else if taken.s.current.value.state == InQueue {
        CurrentIsSkipped(taken.s, env);
        hide PlayNext, HandsOver, ResolvesWell;
      }
    }
  }

  /** A waiting current stream which is skipped is handed over all the same, and marked to be skipped after that. */
  lemma CurrentIsSkipped(s: State, env: Env)
    requires s.current.Some? && s.current.value.state == InQueue
    ensures var (t, ok) := PlayNext(s, true, AtCurrent, true, false, env); var it := s.current.value;
      && t == s.(current := t.current, uri := t.uri, request := t.request, asked := t.asked)
      && t.current.Some? && TagOf(t.current.value) == TagOf(it) && t.current.value.state == AboutToBeSkipped
      && (if HandsOver(it, AtCurrent, env) then HandedOver(t, UriOf(it, env))
          else t.uri == s.uri && t.request == s.request)
      && ok == ResolvesWell(it, env)
  {
    var u := s.(current := Some(s.current.value.(state := AboutToBeSkipped)));
    assert PlayNext(s, true, AtCurrent, true, false, env) == Resolve(u, AtCurrent, false, env);
    SearchIgnoresState(s.current.value, AboutToBeSkipped, env);
    hide PlayNext, Resolve, HandsOver, UriOf, ResolvesWell, AwaitsAnswer, KnowsUri;
    CurrentIsResolved(u, false, env);
    WhenResolved(u, false, env);
  }

  /** If the current stream is being activated and its URI is known, a request to skip is answered as if there was no
      next stream. When the pipeline has come to rest, the player has stopped; a protected stream stays the current
      one, although the next one has never been handed over. */
  lemma SkippingActivationStops(s: State, env: Env, before: GstState)
    requires s.activated && Shape(s.queue) && before in {GstPlaying, GstPaused}
    requires s.current.Some? && s.current.value.state in {AboutToActivate, ActiveHalfPlaying}
    requires KnowsUri(s.current.value)
    ensures var r := Next(s, false, true, env); var t := StateChanged(r.s, Reached(before, Ready));
      var marked := s.current.value.(state := AboutToBeSkipped);
      && r.next == None && r.s == s.(current := Some(marked))
      && t.status == Stopped && t.uri == ""
      && if s.protectedOnce then t.current == Some(marked) && t.queue == s.queue
         else if s.queue != [] then t.current == Some(s.queue[0]) && t.queue == s.queue[1..]
         else t.current == None && t.queue == []
  {
    NextPlaysNext(s, false, true, env);
    hide Next, StateChanged, Shape;
    RestReplacesCurrent(Next(s, false, true, env).s, before);
  }

  /** A stream which is being activated, with no URI handed over. */
  ghost predicate NeverStarts(s: State) {
    && s.uri == "" && s.request == NotRequested
    && s.current.Some? && s.current.value.state in {AboutToActivate, ActiveHalfPlaying} && s.current.value.urls != []
  }

  /** Requests of the user, except for the one to skip. */
  predicate IsOrdinary(e: Event) {
    e.EvStart? || e.EvPause? || e.EvStop? || e.EvPush? || e.EvClear? || e.EvActivate?
  }

  /** Such a stream is left like this by every such request, in any number and order: neither is it played, nor the
      player stopped, nor another one played instead. */
  lemma {:induction false} NeverStartsAgain(states: seq<State>, events: seq<Event>, i: nat, j: nat)
    requires IsRun(states, events) && i <= j < |states| && NeverStarts(states[i])
    requires forall k {:trigger events[k]} :: i <= k < j ==> IsOrdinary(events[k])
    ensures NeverStarts(states[j]) && states[j].current == states[i].current
    decreases j
  {
    if i < j {
      NeverStartsAgain(states, events, i, j - 1);
      assert states[j] == Step(states[j - 1], events[j - 1]);
      hide IsRun, NeverStarts, IsOrdinary, Step, Enabled;
      StartsNothing(states[j - 1], events[j - 1]);
    }
  }

  lemma StartsNothing(s: State, e: Event)
    requires NeverStarts(s) && Enabled(s, e) && IsOrdinary(e)
    ensures var t := Step(s, e); NeverStarts(t) && t.current == s.current
  {
    if e.EvPush? {
      PushStartsNothing(s, e.id, e.urls, e.keep, e.env);
    } else if e.EvStart? {
      StartStartsNothing(s, e.buffering, e.pending, e.state, e.env);
    } else if e.EvClear? {
      ClearStartsNothing(s, e.keepN);
    }
  }

  lemma StartStartsNothing(s: State, buffering: bool, pending: GstState, state: GstState, env: Env)
    requires NeverStarts(s)
    ensures var t := Start(s, buffering, pending, state, env); NeverStarts(t) && t.current == s.current
  {
    hide ErrorRecovery;
  }

  lemma PushStartsNothing(s: State, id: nat, urls: seq<Url>, keep: nat, env: Env)
    requires NeverStarts(s)
    ensures var t := Push(s, id, urls, keep, env); NeverStarts(t) && t.current == s.current
  {
    hide QueueFromFifo, PendingReport, Tags;
  }

  lemma ClearStartsNothing(s: State, keep: int)
    requires NeverStarts(s)
    ensures var t := ClearQueue(s, keep); NeverStarts(t) && t.current == s.current
  {
    hide PendingReport, Tags;
  }

  /** The message of a pipeline which has reached the state it was asked for. */
  function Reached(before: GstState, state: GstState): Change {
    Change(false, true, before, state, VoidPending, state, false, false)
  }

  /** If the head was handed to GStreamer beforehand, a request to skip loses it: it is announced as the next
      stream, but when the pipeline has stopped, as asked by the request, the player has stopped as well and goes
      on to the item after it. Only protection keeps it as the current stream. */
  lemma NextLosesPrefetched(s: State, skipOnly: bool, env: Env, before: GstState)
    requires s.activated && !(s.status == Stopped && skipOnly) && Shape(s.queue)
    requires s.queue != [] && s.queue[0].state == AboutToActivate && KnowsUri(s.queue[0])
    requires (skipOnly || GivesWay(s.current)) && before in {GstPlaying, GstPaused}
    ensures var r := Next(s, skipOnly, true, env); var t := StateChanged(r.s, Reached(before, Ready));
      && r.next == Some(s.queue[0].id) && r.s.uri == s.uri
      && t.status == Stopped && t.uri == ""
      && if s.protectedOnce then t.current == Some(s.queue[0]) && t.queue == s.queue[1..]
         else if |s.queue| > 1 then t.current == Some(s.queue[1]) && t.queue == s.queue[2..]
         else t.current == None && t.queue == []
  {
    NextPlaysNext(s, skipOnly, true, env);
    hide Next, StateChanged, HandsOver, UriOf;
    RestReplacesCurrent(Next(s, skipOnly, true, env).s, before);
  }

  lemma RestIsReached(s: State, before: GstState)
    requires before in {GstPlaying, GstPaused}
    ensures StateChanged(s, Reached(before, Ready)) == ReachedReady(s)
  {
    hide ReachedReady;
  }

  /** A pipeline at rest stops the player, and the current stream gives way unless it is protected. */
  lemma RestReplacesCurrent(s: State, before: GstState)
    requires s.current.Some? && KnowsUri(s.current.value) && before in {GstPlaying, GstPaused}
    ensures var t := StateChanged(s, Reached(before, Ready));
      && t.status == Stopped && t.uri == ""
      && if s.protectedOnce then t.current == s.current && t.queue == s.queue
         else if s.queue != [] then t.current == Some(s.queue[0]) && t.queue == s.queue[1..]
         else t.current == None && t.queue == []
  {
    RestIsReached(s, before);
    hide StateChanged;
    var t := EmitStopped(s.(uri := ""));
    StopKeepsItems(s.(uri := ""));
    assert ReachedReady(s) == CurrentReplaced(t);
    GivesWayAtRest(t);
    hide EmitStopped, CurrentReplaced, ReachedReady;
  }

  lemma StopKeepsItems(s: State)
    ensures var t := EmitStopped(s);
      && t.status == Stopped && t.uri == "" && t.queue == s.queue && t.current == s.current
      && t.protectedOnce == s.protectedOnce
  {
    hide PendingReport;
  }

  /** The current stream gives way to the head of the queue, if there is one. */
  lemma GivesWayAtRest(t: State)
    ensures var u := CurrentReplaced(t);
      && u.status == t.status && u.uri == t.uri && u.removed == t.removed && u.dropped == t.dropped
      && u.hist.reports == t.hist.reports
      && if t.protectedOnce then u.current == t.current && u.queue == t.queue
         else if t.queue != [] then u.current == Some(t.queue[0]) && u.queue == t.queue[1..]
         else u.current == None && u.queue == []
  {
  }

  // ----- the end of a stream -----

  /** If the stream ends while the URI of the next one is known, a restart is asked for. It hands the URI over
      exactly if the next one was not handed over already; otherwise the player is playing without a URI. */
  lemma RestartAfterEnd(s: State, pending: GstState, state: GstState, env: Env)
    requires s.activated && pending in {VoidPending, Null, Ready} && state in {Ready, Null}
    requires s.queue != [] && KnowsUri(s.queue[0]) && Shape(s.queue)
    ensures var t := Start(EndOfStream(s), false, pending, state, env); var head := s.queue[0];
      && t.status == Playing && t.current.Some? && TagOf(t.current.value) == TagOf(head)
      && t.uri == (if head.state == InQueue then UrlForPlaying(head) else "")
      && (t.uri == UrlForPlaying(head) <==> head.state == InQueue)
  {
    StartPlaysNext(EndOfStream(s), pending, state, env);
    hide Start;
  }

  /** Whether the answer to the selected link ends with a URI. */
  predicate AnswerFinds(it: ItemData, uri: string, loc: Loc, env: Env) {
    uri != "" || FindsUri(it.urls, it.selected + 1, AnswersFor(loc, env))
  }

  predicate SelectsLink(it: ItemData) {
    HasUrl(it) && it.urls[it.selected].isLink
  }

  /** A required start is used up exactly if a URI is handed over. It is then that the pipeline is asked to
      start, and that the source reads the current stream if the pipeline accepts. */
  lemma {:induction false} ResolveUsesMarkUp(s: State, loc: Loc, env: Env)
    requires Has(s, loc) && NoIdClash(s, loc) && Get(s, loc).startRequired
    ensures var t := Resolve(s, loc, true, env).0;
      Has(t, loc) && (Get(t, loc).startRequired <==> !HandsOver(Get(s, loc), loc, env))
    decreases Rank(loc), Remaining(Get(s, loc)), 1
  {
    var it := Get(s, loc);
    if SelectedUrlState(it) == KnownAirableLink && env.answer(loc, it.selected).Fast? {
      var a := env.answer(loc, it.selected);
      ResolveIsAnswered(s, loc, true, env);
      FindsAfterLink(it, loc, env);
      AnswerUsesMarkUp(Put(s, loc, it.(resolver := Over)), loc, a.uri, a.valid, env);
      hide Resolve, LinkAnswered, NoIdClash, HandsOver, FindsUri;
    } else {
      ResolveUsesMarkUpAtOnce(s, loc, env);
    }
  }

  lemma ResolveUsesMarkUpAtOnce(s: State, loc: Loc, env: Env)
    requires Has(s, loc) && Get(s, loc).startRequired
    requires var it := Get(s, loc); SelectedUrlState(it) == KnownAirableLink ==> !env.answer(loc, it.selected).Fast?
    ensures var t := Resolve(s, loc, true, env).0;
      Has(t, loc) && (Get(t, loc).startRequired <==> !HandsOver(Get(s, loc), loc, env))
  {
    hide LinkAnswered;
  }

  lemma {:induction false} AnswerUsesMarkUp(s: State, loc: Loc, uri: string, valid: nat, env: Env)
    requires Has(s, loc) && NoIdClash(s, loc) && Get(s, loc).startRequired && SelectsLink(Get(s, loc))
    ensures var t := LinkAnswered(s, loc, uri, valid, true, env);
      Has(t, loc) && (Get(t, loc).startRequired <==> !AnswerFinds(Get(s, loc), uri, loc, env))
    decreases Rank(loc), Remaining(Get(s, loc)), 0
  {
    var it := Get(s, loc);
    if uri == "" && HasMoreUrls(it) {
      AnsweredByNext(s, loc, valid, true, env);
      FindsBehindFailed(it, loc, env);
      var failed := ResolverFinish(it, "", 0, env.now);
      var u := Put(Put(s, loc, failed), loc, failed.(selected := failed.selected + 1));
      assert Has(u, loc) && NoIdClash(u, loc) && Get(u, loc) == failed.(selected := failed.selected + 1);
      hide LinkAnswered, Resolve, HandsOver, FindsUri, ResolverFinish, SelectsLink, NoIdClash, HasUrl;
      ResolveUsesMarkUp(u, loc, env);
    } else {
      LastAnswerUsesMarkUp(s, loc, uri, valid, env);
    }
  }

  lemma LastAnswerUsesMarkUp(s: State, loc: Loc, uri: string, valid: nat, env: Env)
    requires Has(s, loc) && Get(s, loc).startRequired && SelectsLink(Get(s, loc))
    requires uri != "" || !HasMoreUrls(Get(s, loc))
    ensures var t := LinkAnswered(s, loc, uri, valid, true, env);
      Has(t, loc) && (Get(t, loc).startRequired <==> !AnswerFinds(Get(s, loc), uri, loc, env))
  {
  }

  /** The answer for a head which is to be started, while there is no current stream. */
  lemma AnswerToHead(t: State, uri: string, valid: nat, env: Env)
    requires t.current == None && t.queue != [] && t.queue[0].startRequired && SelectsLink(t.queue[0])
    ensures var e := EvLinkNotified(t.queue[0].id, uri, valid, true, env);
      var found := AnswerFinds(t.queue[0], uri, AtHead, env);
      && (Enabled(t, e) <==> !(found && env.pipelineOk))
      && (Enabled(t, e) ==>
            var u := Step(t, e);
            && (if uri != "" then u.uri == uri else if found then u.uri != "" else u.uri == t.uri)
            && u.queue != [] && (u.queue[0].startRequired <==> !found))
  {
    assert Locate(t, t.queue[0].id) == Some(AtHead);
    hide LinkAnswered, FindsUri, ResolverFinish;
    AnswerHandsOverExactly(t, AtHead, uri, valid, true, env);
    AnswerUsesMarkUp(t, AtHead, uri, valid, env);
    hide Locate, NoIdClash;
  }

  /** The same after it has become the current stream. */
  lemma AnswerToCurrent(t: State, uri: string, valid: nat, env: Env)
    requires t.current.Some? && t.current.value.startRequired && SelectsLink(t.current.value)
    ensures var e := EvLinkNotified(t.current.value.id, uri, valid, true, env);
      var found := AnswerFinds(t.current.value, uri, AtCurrent, env);
      && Enabled(t, e)
      && var u := Step(t, e);
      && (if uri != "" then u.uri == uri else if found then u.uri != "" else u.uri == t.uri)
      && SameCurrent(t, u) && (u.current.value.startRequired <==> !found) && u.queue == t.queue
  {
    assert Locate(t, t.current.value.id) == Some(AtCurrent);
    hide LinkAnswered;
    AnswerHandsOverExactly(t, AtCurrent, uri, valid, true, env);
    AnswerUsesMarkUp(t, AtCurrent, uri, valid, env);
    AnswerKeepsQueue(t, uri, valid, true, env);
    LinkAnsweredTouches(t, AtCurrent, uri, valid, true, env);
    hide FindsUri;
  }

  lemma EndMarksHead(s: State)
    requires s.queue != [] && IsResolving(s.queue[0]) && HasUrl(s.queue[0])
    ensures EndOfStream(s) ==
      s.(queue := s.queue[0 := s.queue[0].(startRequired := true)], current := None, uri := "")
  {
  }

  lemma RestTakesHead(s: State, before: GstState)
    requires s.current == None && s.queue != [] && before in {GstPlaying, GstPaused}
    ensures var t := StateChanged(s, Reached(before, Ready));
      && t.uri == ""
      && if s.protectedOnce then t.current == None && t.queue == s.queue
         else t.current == Some(s.queue[0]) && t.queue == s.queue[1..]
  {
    RestIsReached(s, before);
    hide StateChanged;
  }

  /** If the stream ends while the link of the next one is being resolved, the next one is marked to be started.
      If the answer comes before anything else, the source follows a null pointer exactly if a URI is found
      and the pipeline accepts to start. If the pipeline does not accept, the URI has been handed over and the
      mark is used up; if no URI is found, nothing has changed for the pipeline. */
  lemma AnswerAfterEnd(s: State, uri: string, valid: nat, env: Env)
    requires s.queue != [] && IsResolving(s.queue[0]) && SelectsLink(s.queue[0])
    ensures var t := EndOfStream(s); var e := EvLinkNotified(s.queue[0].id, uri, valid, true, env);
      var found := AnswerFinds(s.queue[0], uri, AtHead, env);
      && t.current == None && t.status == s.status && t.queue[0] == s.queue[0].(startRequired := true)
      && (Enabled(t, e) <==> !(found && env.pipelineOk))
      && (Enabled(t, e) ==>
            var u := Step(t, e);
            && (u.uri != "" <==> found)
            && u.queue != [] && (u.queue[0].startRequired <==> !found)
            && (uri != "" ==> u.uri == uri))
  {
    EndMarksHead(s);
    hide Step, Enabled, EndOfStream, AnswerFinds;
    AnswerToHead(EndOfStream(s), uri, valid, env);
  }

  /** If the pipeline has reached its state of rest before the answer comes, the next stream is the current one
      then, unless the old one was protected. Its URI is handed over and the mark is used up, whatever the
      pipeline does. */
  lemma AnswerAfterRest(s: State, before: GstState, uri: string, valid: nat, env: Env)
    requires s.queue != [] && IsResolving(s.queue[0]) && SelectsLink(s.queue[0]) && before in {GstPlaying, GstPaused}
    ensures var t := StateChanged(EndOfStream(s), Reached(before, Ready));
      var e := EvLinkNotified(s.queue[0].id, uri, valid, true, env);
      if s.protectedOnce then
        t.current == None && (Enabled(t, e) <==> !(AnswerFinds(s.queue[0], uri, AtHead, env) && env.pipelineOk))
      else
        && t.current == Some(s.queue[0].(startRequired := true)) && Enabled(t, e)
        && var u := Step(t, e); var found := AnswerFinds(s.queue[0], uri, AtCurrent, env);
        && u.current.Some? && TagOf(u.current.value) == TagOf(s.queue[0]) && u.queue == s.queue[1..]
        && (u.uri != "" <==> found) && (u.current.value.startRequired <==> !found)
        && (uri != "" ==> u.uri == uri)
  {
    EndMarksHead(s);
    var ended := EndOfStream(s);
    RestTakesHead(ended, before);
    var t := StateChanged(ended, Reached(before, Ready));
    hide EndOfStream, StateChanged, Step, Enabled, AnswerFinds;
    if s.protectedOnce {
      AnswerToHead(t, uri, valid, env);
    } else {
      AnswerToCurrent(t, uri, valid, env);
    }
  }

  /** When the end of a stream stops the player, in any run, everything which was removed so far has been
      reported: each accepted item is queued, reported, played or was given up, and whatever was marked as
      dropped has been reported since. */
  lemma EndSettlesEverything(states: seq<State>, events: seq<Event>, i: nat, n: nat, k: nat)
    requires IsRun(states, events) && i < |events| && events[i] == EvEndOfStream
    requires var q := states[i].queue; q == [] || StartRequiredFor(SelectedUrlState(q[0])) == NotRequired
    ensures var t := states[i + 1];
      && t.status == Stopped && t.current == None && t.uri == ""
      && (n < t.hist.accepted ==>
            multiset(Nums(t.queue))[n] + multiset(Reported(t.hist.reports))[n] + multiset(t.hist.played)[n]
            + multiset(t.hist.failedNext)[n] == 1)
      && (k < |t.hist.marks| ==> ReportedSince(t.hist.reports, t.hist.marks[k]))
  {
    var t := states[i + 1];
    assert t == EndOfStream(states[i]);
    NothingIsPending(states[i]);
    hide EndOfStream, Reported;
    RunKeepsInv(states, events, i + 1, i + 1);
    assert TagNums(t.removed) == [];
    if n < t.hist.accepted {
      NumbersAreUnique(t, n);
    }
  }

  lemma NothingIsPending(s: State)
    requires s.queue == [] || StartRequiredFor(SelectedUrlState(s.queue[0])) == NotRequired
    ensures var t := EndOfStream(s);
      t.status == Stopped && t.current == None && t.uri == "" && t.removed == [] && t.dropped == {}
  {
  }

  // ----- reports -----

  /** A push is answered with two reports: what was pending before, and what the push has removed. The
      kept items stay in their order, and the new one comes after them. */
  lemma PushReports(s: State, id: nat, urls: seq<Url>, keep: nat, env: Env)
    requires s.activated
    ensures var t := Push(s, id, urls, keep, env); var k := if keep < |s.queue| then keep else |s.queue|;
      if PushRefused(s, keep) then
        t.queue == s.queue && t.hist.reports == s.hist.reports + [PendingReport(s)]
      else
        && t.hist.reports == s.hist.reports + [PendingReport(s), Report(Tags(s.queue[k..]), {})]
        && Nums(t.queue) == Nums(s.queue[..k]) + [s.hist.accepted] && t.queue[k].id == id
        && t.removed == [] && t.dropped == {}
  {
    var r := SendReport(s);
    ReportIsSent(s);
    if !PushRefused(s, keep) {
      var t := AfterPush(r, id, urls, keep, env);
      PushedItems(r, id, urls, keep, env);
      NothingElse(t);
      ReportIsSent(t);
      assert Push(s, id, urls, keep, env) == SendReport(t);
    } else {
      assert Push(s, id, urls, keep, env) == r;
    }
    hide AfterPush, Tags, PendingReport, Ids, SendReport, Push, Nums;
  }

  lemma ReportIsSent(s: State)
    ensures var t := SendReport(s);
      && t.queue == s.queue && t.removed == [] && t.dropped == {} && t.hist.accepted == s.hist.accepted
      && t.hist.reports == s.hist.reports + [PendingReport(s)]
  {
  }

  lemma NothingElse(s: State)
    requires s.dropped == {}
    ensures PendingReport(s) == Report(s.removed, {})
  {
  }

  lemma PushedItems(s: State, id: nat, urls: seq<Url>, keep: nat, env: Env)
    requires s.removed == [] && s.dropped == {}
    ensures var t := AfterPush(s, id, urls, keep, env); var k := if keep < |s.queue| then keep else |s.queue|;
      && t.removed == Tags(s.queue[k..]) && t.dropped == {} && t.hist.reports == s.hist.reports
      && Nums(t.queue) == Nums(s.queue[..k]) + [s.hist.accepted] && |t.queue| == k + 1 && t.queue[k].id == id
  {
    AppendedItems(s, id, urls, keep);
    var u := Append(ClearTail(s, keep), id, urls);
    QueueFromFifoTouches(u, env);
    hide QueueFromFifo, Tags, Append, ClearTail;
    TouchedItems(u, QueueFromFifo(u, env));
  }

  lemma AppendedItems(s: State, id: nat, urls: seq<Url>, keep: nat)
    requires s.removed == []
    ensures var u := Append(ClearTail(s, keep), id, urls); var k := if keep < |s.queue| then keep else |s.queue|;
      && u.removed == Tags(s.queue[k..]) && u.dropped == s.dropped && u.hist.reports == s.hist.reports
      && Nums(u.queue) == Nums(s.queue[..k]) + [s.hist.accepted] && |u.queue| == k + 1 && u.queue[k].id == id
  {
    hide Tags;
    var k := if keep < |s.queue| then keep else |s.queue|;
    assert Append(ClearTail(s, keep), id, urls).queue == s.queue[..k] + [NewItem(s.hist.accepted, id, urls)];
    if keep >= |s.queue| {
      assert s.queue[k..] == [];
      assert Tags([]) == [];
    }
  }

  lemma TouchedItems(u: State, t: State)
    requires Touches(u, t)
    ensures Nums(t.queue) == Nums(u.queue) && t.removed == u.removed && t.dropped == u.dropped
    ensures t.hist == u.hist && forall i :: 0 <= i < |u.queue| ==> t.queue[i].id == u.queue[i].id
  {
  }

  predicate AwaitsLink(it: ItemData) {
    SelectedUrlState(it) in {KnownAirableLink, ResolvingLink}
  }

  /** A stop request has to do with the state the pipeline goes to, or is in. */
  function StateToStop(pending: GstState, state: GstState): GstState {
    if pending == VoidPending then state else pending
  }

  /** The queue is emptied if the pipeline accepts to rest, or rests already. */
  predicate StopEmpties(pending: GstState, state: GstState, env: Env) {
    StateToStop(pending, state) in {Ready, Null}
    || (StateToStop(pending, state) in {GstPlaying, GstPaused} && env.pipelineOk)
  }

  /** The stop is reported at once if nothing has changed for a pipeline which rests. */
  predicate StopTellsAtOnce(pending: GstState, state: GstState, after: GstState, env: Env) {
    pending == VoidPending && after in {Ready, Null} && (state in {Ready, Null, VoidPending} || !env.pipelineOk)
  }

  function StopLists(s: State, empties: bool): Report {
    var all := s.removed + if empties then Tags(s.queue) else [];
    Report(all, s.dropped - Ids(all))
  }

  /** A stop request, in every state of the player and of the pipeline: exactly when it is accepted, when the queue is
      emptied, and when this is reported at once. If not, it is reported when the pipeline has come to rest, exactly
      if there is a current stream whose URI is known; otherwise it stays pending. */
  lemma StopReportsExactly(s: State, pending: GstState, state: GstState, after: GstState, env: Env, before: GstState)
    requires before in {GstPlaying, GstPaused}
    ensures var t := Stop(s, pending, state, after, env); var u := StateChanged(t, Reached(before, Ready));
      var empties := StopEmpties(pending, state, env); var atOnce := StopTellsAtOnce(pending, state, after, env);
      var report := StopLists(s, empties);
      if !s.activated || s.uri == "" then t == s
      else
        && t.status == Stopped && t.queue == (if empties then [] else s.queue)
        && t.hist.reports == (if atOnce then s.hist.reports + [report] else s.hist.reports)
        && t.current == (if atOnce then None else s.current)
        && u.status == Stopped && u.uri == ""
        && (if atOnce || (s.current.Some? && KnowsUri(s.current.value))
            then u.hist.reports == s.hist.reports + [report] && u.removed == [] && u.dropped == {}
            else u.hist.reports == s.hist.reports && PendingReport(u) == report)
        && (empties ==>
              && u.queue == []
              && u.current == if !atOnce && s.current.Some? && (s.protectedOnce || AwaitsLink(s.current.value))
                              then s.current else None)
  {
    if s.activated && s.uri != "" {
      hide Tags, Ids;
      StopIsReported(s, pending, state, after, env);
      hide Stop, StateChanged, StopEmpties, StopTellsAtOnce;
      RestIsReported(Stop(s, pending, state, after, env), before);
    }
  }

  lemma StopIsReported(s: State, pending: GstState, state: GstState, after: GstState, env: Env)
    requires s.activated && s.uri != ""
    ensures var t := Stop(s, pending, state, after, env);
      var empties := StopEmpties(pending, state, env); var report := StopLists(s, empties);
      && t.status == Stopped && t.queue == (if empties then [] else s.queue) && t.protectedOnce == s.protectedOnce
      && if StopTellsAtOnce(pending, state, after, env)
         then t.current == None && t.hist.reports == s.hist.reports + [report] && t.removed == [] && t.dropped == {}
         else t.current == s.current && t.hist == s.hist && PendingReport(t) == report
  {
    hide Tags, Ids;
    PipelineStops(s, pending, state, env);
    assert s.removed + [] == s.removed;
    hide StopPipeline;
  }

  lemma PipelineStops(s: State, pending: GstState, state: GstState, env: Env)
    ensures var (t, still) := StopPipeline(s, pending, state, env); var empties := StopEmpties(pending, state, env);
      && t == s.(status := Stopped, queue := if empties then [] else s.queue,
                 removed := s.removed + if empties then Tags(s.queue) else [])
      && still == (StateToStop(pending, state) in {Ready, Null, VoidPending} || !env.pipelineOk)
  {
    hide Tags;
    QueueIsEmptied(s.(status := Stopped));
    assert s.removed + [] == s.removed;
    hide ClearTail;
  }

  lemma QueueIsEmptied(s: State)
    ensures ClearTail(s, 0) == s.(queue := [], removed := s.removed + Tags(s.queue))
  {
    hide Tags;
    if s.queue == [] {
      assert Tags([]) == [];
    } else {
      assert s.queue[0..] == s.queue && s.queue[..0] == [];
    }
  }

  /** What is reported when the pipeline of a stopped player has come to rest. */
  lemma RestIsReported(t: State, before: GstState)
    requires t.status == Stopped && before in {GstPlaying, GstPaused}
    ensures var u := StateChanged(t, Reached(before, Ready));
      && u.status == Stopped && u.uri == ""
      && (if t.current.Some? && KnowsUri(t.current.value)
          then u.hist.reports == t.hist.reports + [PendingReport(t)] && u.removed == [] && u.dropped == {}
          else u.hist.reports == t.hist.reports && u.removed == t.removed && u.dropped == t.dropped)
      && (t.queue == [] ==>
            && u.queue == []
            && u.current == if t.current.Some? && (t.protectedOnce || AwaitsLink(t.current.value))
                            then t.current else None)
  {
    RestIsReached(t, before);
    hide StateChanged, Ids;
    assert PendingReport(t.(uri := "", status := Stopped)) == PendingReport(t);
    GivesWayAtRest(t.(uri := ""));
    GivesWayAtRest(EmitStopped(t.(uri := "")));
    hide PendingReport, UrlForPlaying, CurrentReplaced;
  }

  // ----- errors -----

  /** What follows an error of the current stream: it goes on with another URI; it has another URI, but the pipeline
      does not accept to start, which nobody notices; it waits for the answer to a link; nothing ever happens; or it
      is given up. */
  datatype Outcome = GoesOn(uri: string) | IsRefused(uri: string) | Waits | Hangs | GivesUp

  /** The errors after which another URL is tried: those which may be due to the URL, or to what is behind it. */
  predicate MayBeDueToUrl(reason: Reason) {
    match reason
    case NetIo => true
    case UrlMissing => true
    case Protocol => true
    case DoesNotExist => true
    case WrongType => true
    case PermissionDenied => true
    case MissingCodec => true
    case WrongStreamFormat => true
    case BrokenStream => true
    case Encrypted => true
    case DecryptionNotSupported => true
    case UnknownReason => false
    case QueueEmpty => false
    case AlreadyStopped => false
    case PhysicalMediaIo => false
    case Authentication => false
  }

  /** The first usable URL, beginning with the selected one if its URI has just expired, otherwise with the next
      one. The answer of the pipeline, and an unusable URL, are only noticed if this one is selected at once, not if
      there is a link before it, or if it is one. */
  function OutcomeOfError(it: ItemData, reason: Reason, env: Env): Outcome {
    var (next, again) := SelectNextUrl(it, env.now);
    if !MayBeDueToUrl(reason) || !again then GivesUp
    else if IsResolving(next) then if next.resolver == Pending then Waits else Hangs
    else
      var answer := AnswersFor(AtCurrent, env);
      if next.selected > |next.urls| then Hangs
      else
        var f := FirstStop(next.urls, next.selected, answer);
        if f == |next.urls| then Hangs
        else if StreamUri(next.urls[f]) != "" then
          if env.pipelineOk then GoesOn(StreamUri(next.urls[f]))
          else if f == next.selected then GivesUp
          else IsRefused(StreamUri(next.urls[f]))
        else if !next.urls[f].isLink then if f == next.selected then GivesUp else Hangs
        else match answer(f)
          case Fast(uri, _) => if env.pipelineOk then GoesOn(uri) else IsRefused(uri)
          case Cookie => Waits
          case CallFailed => Hangs
  }

  /** The same stream is about to be activated anew, and nothing has been reported. */
  ghost predicate TriedAgain(s: State, t: State, it: ItemData) {
    && t == s.(current := t.current, uri := t.uri, request := t.request, asked := t.asked, protectedOnce := true)
    && t.current.Some? && TagOf(t.current.value) == TagOf(it) && t.current.value.state == AboutToActivate
  }

  /** So far no URI has been found. */
  ghost predicate TriedInVain(s: State, t: State, it: ItemData) {
    TriedAgain(s, t, it) && t.uri == "" && t.request == s.request && t.asked == s.asked
  }

  /** What can be seen of the outcome. A stream is only given up once. */
  ghost predicate Shows(s: State, t: State, it: ItemData, o: Outcome) {
    match o
    case GoesOn(uri) => TriedAgain(s, t, it) && HandedOver(t, uri) && t.asked == s.asked + [true]
    case IsRefused(uri) => TriedAgain(s, t, it) && HandedOver(t, uri) && t.asked == s.asked + [false]
    case Waits => TriedInVain(s, t, it) && t.current.value.resolver == Pending
    case Hangs => TriedInVain(s, t, it) && t.current.value.resolver != Pending
    case GivesUp =>
      && t.queue == s.queue
      && if it.failed then t.hist == s.hist && t.current.Some? && TagOf(t.current.value) == TagOf(it)
         else
           && t.current == None && t.status == Stopped && t.uri == "" && t.request == NotRequested && !t.justStarted
           && t.removed == [] && t.dropped == {}
           && t.hist == s.hist.(reports := s.hist.reports + [PendingReport(s)], blamed := s.hist.blamed + [it.num])
  }

  lemma AlternativeIsTried(s: State, prefetch: bool, env: Env)
    requires s.current.Some? && SelectNextUrl(s.current.value, env.now).1
    ensures var (t, ok) := TryAlternative(s, prefetch, env); var next := SelectNextUrl(s.current.value, env.now).0;
      && TriedAgain(s, t, s.current.value)
      && (if HandsOver(next, AtCurrent, env) then HandedOver(t, UriOf(next, env))
          else t.uri == "" && t.request == s.request
               && (t.current.value.resolver == Pending <==> AwaitsAnswer(next, AtCurrent, env)))
      && t.asked == s.asked + (if HandsOver(next, AtCurrent, env) && (!prefetch || next.startRequired)
                               then [env.pipelineOk] else [])
      && t.current.value.failed == s.current.value.failed
      && ok == if KnowsUri(next) && prefetch && !next.startRequired then true else ResolvesWell(next, env)
  {
    var next := SelectNextUrl(s.current.value, env.now).0;
    var t := s.(current := Some(next.(state := AboutToActivate)), protectedOnce := true, uri := "");
    assert TagOf(next) == TagOf(s.current.value) && next.failed == s.current.value.failed;
    assert TryAlternative(s, prefetch, env) == Resolve(t, AtCurrent, prefetch, env);
    SearchIgnoresState(next, AboutToActivate, env);
    hide TryAlternative, SelectNextUrl, Resolve, HandsOver, UriOf, ResolvesWell, AwaitsAnswer, KnowsUri;
    CurrentIsResolved(t, prefetch, env);
    WhenResolved(t, prefetch, env);
  }

  lemma CurrentIsResolved(s: State, prefetch: bool, env: Env)
    requires s.current.Some?
    ensures var t := Resolve(s, AtCurrent, prefetch, env).0; var it := s.current.value;
      && t == s.(current := t.current, uri := t.uri, request := t.request, asked := t.asked)
      && t.current.Some? && TagOf(t.current.value) == TagOf(it)
      && t.current.value.state == it.state && t.current.value.failed == it.failed
      && (if HandsOver(it, AtCurrent, env) then HandedOver(t, UriOf(it, env))
          else t.uri == s.uri && t.request == s.request
               && (t.current.value.resolver == Pending <==> AwaitsAnswer(it, AtCurrent, env)))
      && t.asked == s.asked + (if HandsOver(it, AtCurrent, env) && (!prefetch || it.startRequired)
                               then [env.pipelineOk] else [])
  {
    if !HandsOver(s.current.value, AtCurrent, env) {
      ResolverAfterSearch(s, prefetch, env);
    }
    hide Resolve;
    HandsOverExactly(s, AtCurrent, prefetch, env);
    ResolveAsks(s, AtCurrent, prefetch, env);
    hide HandsOver, FindsUri;
    ResolveTouches(s, AtCurrent, prefetch, env);
    ResolveKeepsQueue(s, prefetch, env);
    ResolveKeepsFailed(s, prefetch, env);
  }

  lemma ResolverAfterSearch(s: State, prefetch: bool, env: Env)
    requires s.current.Some? && !HandsOver(s.current.value, AtCurrent, env)
    ensures var t := Resolve(s, AtCurrent, prefetch, env).0;
      t.current.Some? && (t.current.value.resolver == Pending <==> AwaitsAnswer(s.current.value, AtCurrent, env))
  {
    var it := s.current.value;
    if HasUrl(it) && !IsResolving(it) {
      hide Resolve;
      ResolveFindsFirst(s, AtCurrent, prefetch, env);
      FirstStopFinds(it.urls, it.selected, AnswersFor(AtCurrent, env));
    }
  }

  ghost predicate SameCurrent(s: State, t: State) {
    s.current.Some? && t.current.Some? && TagOf(t.current.value) == TagOf(s.current.value)
  }

  /** What resolving the current stream answers. */
  lemma WhenResolved(s: State, prefetch: bool, env: Env)
    requires s.current.Some?
    ensures var it := s.current.value;
      Resolve(s, AtCurrent, prefetch, env).1 ==
        if KnowsUri(it) && prefetch && !it.startRequired then true else ResolvesWell(it, env)
  {
    hide LinkAnswered;
  }

  lemma {:induction false} ResolveKeepsFailed(s: State, prefetch: bool, env: Env)
    requires s.current.Some?
    ensures var t := Resolve(s, AtCurrent, prefetch, env).0;
      t.current.Some? && t.current.value.failed == s.current.value.failed
    decreases Remaining(s.current.value), 1
  {
    var it := s.current.value;
    if SelectedUrlState(it) == KnownAirableLink && env.answer(AtCurrent, it.selected).Fast? {
      var a := env.answer(AtCurrent, it.selected);
      AnswerKeepsFailed(Put(s, AtCurrent, it.(resolver := Over)), a.uri, a.valid, prefetch, env);
    }
  }

  lemma {:induction false} AnswerKeepsFailed(s: State, uri: string, valid: nat, prefetch: bool, env: Env)
    requires s.current.Some?
    ensures var t := LinkAnswered(s, AtCurrent, uri, valid, prefetch, env);
      t.current.Some? && t.current.value.failed == s.current.value.failed
    decreases Remaining(s.current.value), 0
  {
    var it := ResolverFinish(s.current.value, uri, valid, env.now);
    if uri == "" && HasMoreUrls(it) {
      var (next, ok) := SelectNextUrl(it, env.now);
      if ok {
        ResolveKeepsFailed(Put(Put(s, AtCurrent, it), AtCurrent, next), prefetch, env);
      }
    }
  }

  /** Every error of the current stream has one of the four outcomes, and which one is told by the first usable
      URL. If links turn out to be broken, or the peer does not take a request, nobody notices that there is
      nothing to play any more. */
  lemma ErrorHasOutcome(s: State, uri: string, mapped: Reason, env: Env)
    requires WhichFailed(s, uri).CurrentStream?
    ensures var it := s.current.value; var reason := ReasonFor(it, WhichFailed(s, uri).hasReason, mapped);
      Shows(s, ErrorMessage(s, uri, mapped, env), it, OutcomeOfError(it, reason, env))
  {
    var it := s.current.value;
    var reason := ReasonFor(it, WhichFailed(s, uri).hasReason, mapped);
    hide WhichFailed;
    assert ErrorMessage(s, uri, mapped, env) == ErrorOfCurrent(s, reason, env);
    OutcomeIsShown(s, reason, env);
  }

  lemma OutcomeIsShown(s: State, reason: Reason, env: Env)
    requires s.current.Some?
    ensures Shows(s, ErrorOfCurrent(s, reason, env), s.current.value, OutcomeOfError(s.current.value, reason, env))
  {
    var it := s.current.value;
    var (next, again) := SelectNextUrl(it, env.now);
    if WorthRetry(reason) && again {
      AlternativeIsTried(s, false, env);
      OutcomeOfSearch(it, reason, env);
      hide TryAlternative, SelectNextUrl, HandsOver, OutcomeOfError, ErrorOfCurrent, CurrentFailed, AwaitsAnswer;
      var (t, ok) := TryAlternative(s, false, env);
      assert ErrorOfCurrent(s, reason, env) == if ok then t else CurrentFailed(t) by { RetriedIfWorth(s, reason, env); }
      if OutcomeOfError(it, reason, env) == GivesUp {
        assert !ok;
        GivenUp(s, t, it);
      }
    } else {
      NotRetried(s, reason, env);
      GivenUp(s, s, it);
    }
  }

  lemma RetriedIfWorth(s: State, reason: Reason, env: Env)
    requires WorthRetry(reason)
    ensures var (t, ok) := TryAlternative(s, false, env);
      ErrorOfCurrent(s, reason, env) == if ok then t else CurrentFailed(t)
  {
    hide TryAlternative, CurrentFailed;
  }

  lemma NotRetried(s: State, reason: Reason, env: Env)
    requires s.current.Some? && (!WorthRetry(reason) || !SelectNextUrl(s.current.value, env.now).1)
    ensures ErrorOfCurrent(s, reason, env) == CurrentFailed(s)
    ensures OutcomeOfError(s.current.value, reason, env) == GivesUp
  {
    hide CurrentFailed;
    assert !SelectNextUrl(s.current.value, env.now).1 ==> TryAlternative(s, false, env) == (s, false);
  }

  lemma GivenUp(s: State, t: State, it: ItemData)
    requires t == s || TriedAgain(s, t, it)
    requires t.current.Some? && TagOf(t.current.value) == TagOf(it) && t.current.value.failed == it.failed
    ensures Shows(s, CurrentFailed(t), it, GivesUp)
  {
    hide Ids;
    assert PendingReport(t) == PendingReport(s);
  }

  /** The outcome in terms of the next URL and of whether a URI is found. */
  lemma OutcomeOfSearch(it: ItemData, reason: Reason, env: Env)
    requires WorthRetry(reason) && SelectNextUrl(it, env.now).1
    ensures var next := SelectNextUrl(it, env.now).0; var o := OutcomeOfError(it, reason, env);
      && (o == GivesUp <==> !ResolvesWell(next, env))
      && (o.GoesOn? ==> env.pipelineOk && HandsOver(next, AtCurrent, env) && o.uri == UriOf(next, env))
      && (o.IsRefused? ==> !env.pipelineOk && HandsOver(next, AtCurrent, env) && o.uri == UriOf(next, env))
      && (o in {Waits, Hangs} ==> !HandsOver(next, AtCurrent, env))
      && (o == Waits ==> AwaitsAnswer(next, AtCurrent, env)) && (o == Hangs ==> !AwaitsAnswer(next, AtCurrent, env))
  {
    var next := SelectNextUrl(it, env.now).0;
    assert HasUrl(next);
    hide SelectNextUrl;
    WhenGivenUp(it, reason, env);
    if !IsResolving(next) {
      FirstStopFinds(next.urls, next.selected, AnswersFor(AtCurrent, env));
    }
    hide FindsUri, FoundUri, FirstStop, ResolvesWell;
  }

  lemma WhenGivenUp(it: ItemData, reason: Reason, env: Env)
    requires WorthRetry(reason) && SelectNextUrl(it, env.now).1
    ensures OutcomeOfError(it, reason, env) == GivesUp <==> !ResolvesWell(SelectNextUrl(it, env.now).0, env)
  {
    assert HasUrl(SelectNextUrl(it, env.now).0);
    hide SelectNextUrl;
  }

  /** Whether the stream can be tried again at all. */
  predicate CanBeRetried(it: ItemData, env: Env) {
    var (next, again) := SelectNextUrl(it, env.now);
    again && ResolvesWell(next, env)
  }

  /** An error with the URI of the current stream, or of a current stream for which a reason to fail was noted before,
      is judged by the reason noted, and only without one by the reason the error maps to. Exactly for the reasons
      above, the stream is tried again if it can be; otherwise it is given up. */
  lemma ErrorIsRetriedExactly(s: State, uri: string, mapped: Reason, env: Env)
    requires uri != "" && s.current.Some?
    requires s.current.value.prefail != UnknownReason || UrlForPlaying(s.current.value) == uri
    ensures var t := ErrorMessage(s, uri, mapped, env); var it := s.current.value;
      var reason := if it.prefail != UnknownReason then it.prefail else mapped;
      if MayBeDueToUrl(reason) && CanBeRetried(it, env) then TriedAgain(s, t, it)
      else Shows(s, t, it, GivesUp) && (!it.failed ==> !TriedAgain(s, t, it))
  {
    var it := s.current.value;
    assert WhichFailed(s, uri) == CurrentStream(it.prefail != UnknownReason);
    var reason := if it.prefail != UnknownReason then it.prefail else mapped;
    ErrorHasOutcome(s, uri, mapped, env);
    assert WorthRetry(reason) == MayBeDueToUrl(reason);
    if WorthRetry(reason) && SelectNextUrl(it, env.now).1 {
      OutcomeOfSearch(it, reason, env);
    } else {
      NotRetried(s, reason, env);
    }
    hide WhichFailed, ErrorMessage, SelectNextUrl, OutcomeOfError, WorthRetry, ResolvesWell, HandsOver, AwaitsAnswer;
  }

  /** Whether an error of a prefetched stream leads to another attempt with the stream which is played. */
  predicate RetriesCurrent(current: ItemData, reason: Reason, env: Env) {
    var (next, again) := SelectNextUrl(current, env.now);
    && MayBeDueToUrl(reason) && again && SelectedUrlState(next) != Broken
    && (KnowsUri(next) && next.startRequired ==> env.pipelineOk)
  }

  /** Whether the pipeline is asked for a state with this attempt. */
  predicate AsksAgain(next: ItemData, env: Env) {
    next.startRequired && HandsOver(next, AtCurrent, env)
  }

  /** An error of the next stream while it is fetched for gapless playback: it leaves the queue without
      being played. It is named to the controlling program exactly if no other attempt is made with the
      current stream, which is then reported as dropped. Otherwise nobody is told: it is the current stream for
      which the pipeline is built anew, with its next URL, and what has failed is just gone. The new pipeline is not
      even asked to play, unless a start was required for the current stream. */
  lemma PrefetchError(s: State, uri: string, mapped: Reason, env: Env)
    requires WhichFailed(s, uri).GaplessNext? && ErrorHasItem(s, uri) && ItemsValid(s)
    ensures var t := ErrorMessage(s, uri, mapped, env); var it := s.queue[0]; var playing := s.current.value;
      && t.queue == s.queue[1..] && t.hist.played == s.hist.played
      && t.hist.failedNext == s.hist.failedNext + [it.num]
      && if RetriesCurrent(playing, ReasonFor(it, WhichFailed(s, uri).hasReason, mapped), env) then
           var next := SelectNextUrl(playing, env.now).0;
           && TriedAgain(FailHead(s), t, playing) && t.uri == UriOf(next, env)
           && t.asked == s.asked + (if AsksAgain(next, env) then [env.pipelineOk] else [])
           && t.hist.reports == s.hist.reports && t.hist.blamed == s.hist.blamed
         else
           && t.current == None && t.status == Stopped
           && t.hist.blamed == s.hist.blamed + [it.num]
           && |t.hist.reports| == |s.hist.reports| + 1
           && Lists(t.hist.reports[|s.hist.reports|], playing.id)
  {
    var it := s.queue[0];
    var reason := ReasonFor(it, WhichFailed(s, uri).hasReason, mapped);
    hide WhichFailed;
    assert IsUnplayed(it);
    assert ErrorMessage(s, uri, mapped, env) == ErrorOfNext(FailHead(s), it, reason, env);
    NextIsGivenUp(FailHead(s), it, reason, env);
    hide ErrorOfNext, RetriesCurrent, SelectNextUrl;
  }

  lemma NextIsGivenUp(s: State, it: ItemData, reason: Reason, env: Env)
    requires s.current.Some? && !it.failed
    ensures var t := ErrorOfNext(s, it, reason, env); var playing := s.current.value;
      if RetriesCurrent(playing, reason, env)
      then
        var next := SelectNextUrl(playing, env.now).0;
        && TriedAgain(s, t, playing) && t.uri == UriOf(next, env)
        && t.asked == s.asked + (if AsksAgain(next, env) then [env.pipelineOk] else [])
      else IsReported(s, t, it)
  {
    hide TryAlternative, SelectNextUrl, HandsOver, PrefetchedFailed, FindsUri, UriOf, TriedAgain, IsReported, AsksAgain;
    if WorthRetry(reason) && SelectNextUrl(s.current.value, env.now).1 {
      AlternativeIsTried(s, true, env);
      RetriedExactly(s, env);
      var (t, ok) := TryAlternative(s, true, env);
      if !ok {
        PrefetchedIsReported(s, t, it);
      }
    } else {
      NoAlternative(s, env);
      PrefetchedIsReported(s, s, it);
    }
  }

  lemma NoAlternative(s: State, env: Env)
    requires s.current.Some?
    ensures !SelectNextUrl(s.current.value, env.now).1 ==> TryAlternative(s, true, env) == (s, false)
  {
  }

  lemma RetriedExactly(s: State, env: Env)
    requires s.current.Some? && SelectNextUrl(s.current.value, env.now).1
    ensures var next := SelectNextUrl(s.current.value, env.now).0;
      && (TryAlternative(s, true, env).1 <==>
            SelectedUrlState(next) != Broken && (KnowsUri(next) && next.startRequired ==> env.pipelineOk))
      && TryAlternative(s, true, env).0.uri == UriOf(next, env)
      && TryAlternative(s, true, env).0.asked == s.asked + (if AsksAgain(next, env) then [env.pipelineOk] else [])
  {
    hide HandsOver, SelectNextUrl, TriedAgain;
    AlternativeIsTried(s, true, env);
    hide TryAlternative;
  }

  /** The failed stream is named, the one which was played is reported as dropped. */
  ghost predicate IsReported(s: State, t: State, it: ItemData)
    requires s.current.Some?
  {
    && t.queue == s.queue && t.current == None && t.status == Stopped
    && t.hist.played == s.hist.played && t.hist.failedNext == s.hist.failedNext
    && t.hist.blamed == s.hist.blamed + [it.num]
    && |t.hist.reports| == |s.hist.reports| + 1
    && Lists(t.hist.reports[|s.hist.reports|], s.current.value.id)
  }

  lemma PrefetchedIsReported(s: State, t: State, it: ItemData)
    requires s.current.Some? && !it.failed && (t == s || TriedAgain(s, t, s.current.value))
    ensures IsReported(s, PrefetchedFailed(t, it), it)
  {
    hide UriOf;
    var id := s.current.value.id;
    assert id in MarkDropped(t, id).dropped;
  }
}

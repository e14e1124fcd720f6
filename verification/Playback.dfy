/** Play order over whole runs, the start of a stream, and gapless requests. */
module Playback {
  import opened Base
  import opened PlayItem
  import opened Player
  import opened PlayerInvariant

  // ----- play order -----

  /** Successive current streams come in the order of their pushes, none comes back, and whatever
      is queued comes later than everything that was ever played. */
  lemma PlayOrder(states: seq<State>, events: seq<Event>, i: nat, j: nat)
    requires IsRun(states, events) && i <= j < |states|
    requires states[i].current.Some?
    ensures states[j].current.Some? ==> states[i].current.value.num <= states[j].current.value.num
    ensures forall k :: 0 <= k < |states[j].queue| ==> states[i].current.value.num < states[j].queue[k].num
    ensures Increasing(states[j].hist.played)
  {
    RunKeepsInv(states, events, i, i);
    RunKeepsInv(states, events, i, j);
    hide IsRun, Accounted, MarksAccounted, Shape, ItemsValid;
    OrderFromHistory(states[i], states[j]);
  }

  lemma OrderFromHistory(s: State, t: State)
    requires InOrder(s) && InOrder(t) && s.hist.played <= t.hist.played && s.current.Some?
    ensures t.current.Some? ==> s.current.value.num <= t.current.value.num
    ensures forall k :: 0 <= k < |t.queue| ==> s.current.value.num < t.queue[k].num
    ensures Increasing(t.hist.played)
  {
    assert t.hist.played[|s.hist.played| - 1] == s.current.value.num;
  }

  /** An item which was told to be removed, dropped or played is never told again. */
  lemma NumbersAreUnique(s: State, n: nat)
    requires Accounted(s) && n < s.hist.accepted
    ensures multiset(Nums(s.queue))[n] + multiset(TagNums(s.removed))[n] + multiset(Reported(s.hist.reports))[n]
      + multiset(s.hist.played)[n] + multiset(s.hist.failedNext)[n] == 1
  {
    UptoHasOne(s.hist.accepted, n);
    assert multiset(Upto(s.hist.accepted))[n] == 1;
  }

  /** In every run each accepted item is in exactly one place: queued, removed but not yet reported,
      reported, played, or given up because prefetching it failed. Whenever an ID was marked as dropped,
      it is going to be reported, or has been reported after that. */
  lemma NothingGetsLost(states: seq<State>, events: seq<Event>, i: nat, n: nat, k: nat)
    requires IsRun(states, events) && i < |states| && n < states[i].hist.accepted
    ensures var s := states[i];
      multiset(Nums(s.queue))[n] + multiset(TagNums(s.removed))[n] + multiset(Reported(s.hist.reports))[n]
      + multiset(s.hist.played)[n] + multiset(s.hist.failedNext)[n] == 1
    ensures var s := states[i]; k < |s.hist.marks| ==>
      s.hist.marks[k].id in s.dropped || ReportedSince(s.hist.reports, s.hist.marks[k])
  {
    RunKeepsInv(states, events, i, i);
    hide Reported, Shape, InOrder, Grows;
    NumbersAreUnique(states[i], n);
  }

  lemma {:induction false} UptoHasOne(k: nat, n: nat)
    ensures multiset(Upto(k))[n] == if n < k then 1 else 0
  {
    if k > 0 {
      assert Upto(k) == Upto(k - 1) + [k - 1];
      UptoHasOne(k - 1, n);
    } else {
      assert Upto(0) == [];
    }
  }

  /** The next stream found is always the current stream, never an item still queued. */
  lemma NextIsCurrent(s: State)
    ensures var r := TryTakeNext(s);
      && (r.found ==> r.s.current.Some? && r.s.current.value.urls != [])
      && (r.found && r.replaced ==>
            s.queue != [] && r.s.current == Some(s.queue[0]) && r.s.queue == s.queue[1..])
      && (r.found && !r.replaced ==> r.s == s)
      && (r.found <==> PickNext(s).Some? && Get(s, PickNext(s).value).urls != [])
  {
  }

  // ----- the start of a stream -----

  /** Only the head of the queue is ever being activated, and no queued item is in any state
      unexpected by the handler for the start of a stream. */
  lemma QueueShape(states: seq<State>, events: seq<Event>, i: nat)
    requires IsRun(states, events) && i < |states|
    ensures |states[i].queue| <= states[i].cap
    ensures forall k :: 0 <= k < |states[i].queue| ==>
      states[i].queue[k].state == InQueue || (k == 0 && states[i].queue[k].state == AboutToActivate)
  {
    RunKeepsInv(states, events, i, i);
  }

  ghost predicate Live(s: State) {
    s.current.Some? && s.current.value.state in {ActiveNowPlaying, AboutToPhaseOut}
  }

  lemma ActivationFromActive(s: State)
    requires s.current.Some? && s.current.value.state in {ActiveHalfPlaying, ActiveNowPlaying, AboutToPhaseOut}
    ensures var (t, result) := ActivateStream(s, 2);
      && Live(t) && t.queue == s.queue && t.uri == s.uri && TagOf(t.current.value) == TagOf(s.current.value)
      && result == (if s.current.value.state == ActiveHalfPlaying then Activated else AlreadyActive)
      && (result == Activated ==> (t.current.value.state == AboutToPhaseOut <==> t.queue == []))
      && (result == AlreadyActive ==> t == s)
  {
  }

  lemma StartedIsLive(s: State)
    requires Shape(s.queue) && (s.current.Some? || s.queue != [])
    ensures var (t, result) := Started(s);
      && Live(t)
      && result in {AlreadyActive, Activated}
      && (result == Activated ==> (t.current.value.state == AboutToPhaseOut <==> t.queue == []))
      && (result == AlreadyActive ==> t == s)
      && TagOf(t.current.value) == TagOf(Get(s, PickStarted(s).value))
      && t.queue == (if PickStarted(s) == Some(AtHead) then s.queue[1..] else s.queue)
      && t.uri == s.uri
  {
    var picked := PickStarted(s).value;
    var taken := if picked.AtHead? then TakeHead(s) else s;
    assert taken.current == Some(Get(s, picked));
    var ready := if NeedsActivation(s, picked)
                 then taken.(current := Some(taken.current.value.(state := ActiveHalfPlaying)))
                 else taken;
    assert ready.current.value.state in {ActiveHalfPlaying, ActiveNowPlaying};
    assert ready.current.value.state == ActiveNowPlaying ==> ready == s;
    ActivationFromActive(ready);
    hide ActivateStream, NeedsActivation, PickStarted, TakeHead;
  }

  /** A stream that has started is played or phased out, whichever item it was and whatever was
      asked for meanwhile. */
  lemma StreamStartIsLive(s: State, env: Env)
    requires Shape(s.queue) && (s.current.Some? || s.queue != [])
    ensures Live(StreamStart(s, env))
  {
    StartedIsLive(s);
    var t := Started(s).0.(request := Requested);
    QueueFromFifoIsLive(t, env);
  }

  lemma QueueFromFifoIsLive(s: State, env: Env)
    requires Live(s)
    ensures Live(QueueFromFifo(s, env))
    ensures s.queue == [] ==> QueueFromFifo(s, env) == s.(current := Some(s.current.value.(state := AboutToPhaseOut)))
  {
    if PickNext(s).Some? {
      PlayNextKeepsCurrentState(s, env);
    }
  }

  lemma PlayNextKeepsCurrentState(s: State, env: Env)
    requires s.current.Some? && s.queue != []
    ensures var t := PlayNext(s, false, AtHead, false, true, env).0;
      t.current.Some? && t.current.value.state == s.current.value.state
  {
    var it := s.queue[0];
    if it.state == InQueue {
      ResolveTouches(Put(s, AtHead, it.(state := AboutToActivate)), AtHead, true, env);
    }
  }

  /** What activation does and answers, for each state and phase. It is only refused for streams which were not meant to
      be played, or which are in a later phase; it never takes a stream back. Beginning phases (up to 1) make a stream
      half playing. In phase 2 it plays, and if it was half playing before and is the last one, it is phased out. */
  lemma ActivationMeans(s: State, phase: nat)
    ensures var (t, result) := ActivateStream(s, phase); var beginning, coming := phase <= 1, phase == 2;
      if s.current == None then t == s && result == InvalidItem
      else
        var it := s.current.value;
        && t == s.(current := t.current) && t.current.Some? && t.current.value == it.(state := t.current.value.state)
        && (it.state == AboutToActivate && (beginning || coming) ==>
              t.current.value.state == (if coming then ActiveNowPlaying else ActiveHalfPlaying) && result == Activated)
        && (it.state == ActiveHalfPlaying && coming ==>
              result == Activated
              && t.current.value.state == if s.queue == [] then AboutToPhaseOut else ActiveNowPlaying)
        && (it.state == ActiveHalfPlaying && beginning ==> t == s && result == AlreadyActive)
        && (it.state in {ActiveNowPlaying, AboutToPhaseOut} && phase in {0, 2} ==> t == s && result == AlreadyActive)
        && (it.state == InQueue ==> t.current.value.state == AboutToBeSkipped && result == InvalidState)
        && (|| it.state == AboutToBeSkipped || phase > 2
            || (phase == 1 && it.state in {ActiveNowPlaying, AboutToPhaseOut}) ==>
              result == InvalidState && (it.state != InQueue ==> t == s))
  {
  }

  // ----- pauses before the start of a stream -----

  /** A message that the pipeline has come to the state which was asked of it, to pause or to play, other than the first
      one about playing after a pause for the stream. */
  predicate Settles(s: State, c: Change) {
    && c.ofPipeline && c.pending == VoidPending && !(c.state == c.before && c.state in {Ready, Null})
    && (c.target == GstPaused || (c.target == GstPlaying && !s.justStarted))
  }

  /** Such a message makes a stream which is about to be activated half playing, and nothing but its state changes (a
      decoder for videos is noted as a reason to fail). Streams which have come further stay as they are, and one which
      was not meant to be played is going to be skipped. */
  lemma SettledIsHalfPlaying(s: State, c: Change)
    requires Settles(s, c)
    ensures var t := StateChanged(s, c);
      && t == s.(current := t.current, justStarted := t.justStarted)
      && t.justStarted == (s.justStarted && c.target == GstPaused)
      && t.current.Some? == s.current.Some?
      && (s.current.Some? ==>
            var it := s.current.value;
            t.current.value == it.(
              state := match it.state
                case AboutToActivate => ActiveHalfPlaying
                case InQueue => AboutToBeSkipped
                case _ => it.state,
              prefail := if c.ofDecoder && c.state in {GstPaused, GstPlaying, Ready} && it.prefail == UnknownReason
                         then WrongType else it.prefail))
  {
  }

  /** The pipeline has paused for a new stream, and is about to play it. */
  predicate PausesForNew(c: Change) {
    c.ofPipeline && c.state == GstPaused && (c.before == Ready || c.before == Null) && c.pending == GstPlaying
  }

  /** A message of the pipeline about a change, and not just that it is still at rest. */
  predicate IsHeard(c: Change) {
    c.ofPipeline && !(c.state == c.before && (c.state == Ready || c.state == Null))
  }

  /** A video decoder has been set up for the current stream, which is the reason to fail, unless there is one
      before. */
  function WithDecoder(s: State, c: Change): State {
    if c.ofDecoder && c.state != Null && c.state != VoidPending && s.current.Some?
       && s.current.value.prefail == UnknownReason
    then s.(current := Some(s.current.value.(prefail := WrongType)))
    else s
  }

  /** All messages other than that the pipeline has come to rest, or to the state asked of it as above: a pause for
      a new stream is noted, and the first message about playing after it only ends that. Nothing else is done. */
  lemma OtherMessagesOnlyNote(s: State, c: Change)
    requires !Settles(s, c) && !(IsHeard(c) && c.pending == VoidPending && c.target == Ready)
    ensures StateChanged(s, c) ==
      WithDecoder(s, c).(justStarted := if PausesForNew(c) then true
                                        else if IsHeard(c) && c.pending == VoidPending && c.target == GstPlaying
                                        then false
                                        else s.justStarted)
  {
  }

  /** Exactly which messages make the source read the current stream: those which put an end to buffering, because
      of a pause which was asked for, and the first one about playing after a pause for a new stream, unless the
      pipeline is buffering. */
  lemma MessageReadsCurrent(s: State, c: Change)
    ensures Enabled(s, EvStateChanged(c)) <==>
      || s.current.Some?
      || !(|| (IsHeard(c) && c.filled && c.target == GstPaused && (c.pending == VoidPending || PausesForNew(c)))
           || (!c.buffering && s.justStarted && c.target == GstPlaying && !StateChanged(s, c).justStarted))
  {
  }

  /** When the pipeline has come to rest, GStreamer has no URI. A current stream which is a link without a URI is
      kept. One with a known URI is stopped, and reported unless there is nothing to report. Then, except for
      protection, which is used up, the head of the queue becomes the current stream. */
  lemma RestMeans(s: State, c: Change)
    requires IsHeard(c) && c.pending == VoidPending && c.target == Ready && !c.ofDecoder
    ensures var t := StateChanged(s, c); var moves := !s.protectedOnce;
      if s.current.Some? && SelectedUrlState(s.current.value) in {KnownAirableLink, ResolvingLink}
      then t == s.(uri := "")
      else
        var stops := s.current.Some? && KnowsUri(s.current.value);
        && t.uri == "" && !t.protectedOnce && !t.justStarted && t.request == s.request
        && t.status == (if stops then Stopped else s.status)
        && t.hist.reports == s.hist.reports + (if stops then [PendingReport(s)] else [])
        && t.removed == (if stops then [] else s.removed) && t.dropped == (if stops then {} else s.dropped)
        && t.current == (if !moves then s.current else if s.queue == [] then None else Some(s.queue[0]))
        && t.queue == (if moves && s.queue != [] then s.queue[1..] else s.queue)
        && t.hist.played == s.hist.played + (if moves && s.queue != [] then [s.queue[0].num] else [])
  {
    hide Ids;
    assert PendingReport(s.(uri := "", status := Stopped)) == PendingReport(s);
  }

  /** The current stream has been set up and has not started yet. */
  predicate IsSettingUp(s: State) {
    s.current.Some? && s.current.value.state in {AboutToActivate, ActiveHalfPlaying}
  }

  /** Whatever messages about its pausing and playing come before, a stream which is set up is the one which starts:
      it remains the current stream, and all others remain in the queue, in their order. */
  lemma SetUpStreamStarts(states: seq<State>, events: seq<Event>, i: nat, j: nat)
    requires IsRun(states, events) && i <= j < |events| && IsSettingUp(states[i])
    requires forall k {:trigger events[k]} :: i <= k < j ==>
      events[k].EvStateChanged? && events[k].change.target != Ready
    requires events[j].EvStreamStart?
    ensures var s, t := states[i], states[j + 1];
      && Live(t) && TagOf(t.current.value) == TagOf(s.current.value) && Nums(t.queue) == Nums(s.queue)
      && t.hist.played == s.hist.played
  {
    RunKeepsInv(states, events, j, j);
    assert Shape(states[j].queue);
    assert states[j + 1] == StreamStart(states[j], events[j].env);
    MessagesKeepStream(states, events, i, j);
    hide IsRun, Inv, Shape;
    StartOfCurrent(states[j], events[j].env);
  }

  lemma {:induction false} MessagesKeepStream(states: seq<State>, events: seq<Event>, i: nat, j: nat)
    requires IsRun(states, events) && i <= j < |states| && IsSettingUp(states[i])
    requires forall k {:trigger events[k]} :: i <= k < j ==>
      events[k].EvStateChanged? && events[k].change.target != Ready
    ensures IsSettingUp(states[j]) && TagOf(states[j].current.value) == TagOf(states[i].current.value)
    ensures states[j].queue == states[i].queue && states[j].hist == states[i].hist
    decreases j
  {
    if i < j {
      MessagesKeepStream(states, events, i, j - 1);
      assert states[j] == StateChanged(states[j - 1], events[j - 1].change);
      hide IsRun;
      MessageKeepsStream(states[j - 1], events[j - 1].change);
    }
  }

  lemma MessageKeepsStream(s: State, c: Change)
    requires IsSettingUp(s) && c.target != Ready
    ensures var t := StateChanged(s, c);
      IsSettingUp(t) && TagOf(t.current.value) == TagOf(s.current.value) && t.queue == s.queue && t.hist == s.hist
  {
    if Settles(s, c) {
      SettledIsHalfPlaying(s, c);
    } else {
      OtherMessagesOnlyNote(s, c);
    }
    hide StateChanged, Settles;
  }

  lemma StartOfCurrent(s: State, env: Env)
    requires IsSettingUp(s) && Shape(s.queue)
    ensures var t := StreamStart(s, env);
      && Live(t) && TagOf(t.current.value) == TagOf(s.current.value) && Nums(t.queue) == Nums(s.queue)
      && t.hist.played == s.hist.played
  {
    StartedIsLive(s);
    StreamStartIsLive(s, env);
    var t := Started(s).0;
    StartTakesNothing(s);
    hide Started;
    var r := t.(request := Requested);
    QueueFromFifoTouches(r, env);
    TouchedIsSame(r, QueueFromFifo(r, env));
    hide QueueFromFifo, Touches, PushesDeferred, Live, Nums, Shape;
  }

  lemma TouchedIsSame(s: State, t: State)
    requires Touches(s, t) && s.current.Some?
    ensures t.current.Some? && TagOf(t.current.value) == TagOf(s.current.value)
    ensures Nums(t.queue) == Nums(s.queue) && t.hist == s.hist
  {
  }

  lemma StartTakesNothing(s: State)
    requires IsSettingUp(s)
    ensures Started(s).0.hist.played == s.hist.played
  {
    hide PendingReport;
  }
}

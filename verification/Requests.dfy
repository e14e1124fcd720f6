/** What requests of the controlling program do besides playing: skipping marks the stream it gives up, clearing
    removes from the end of the queue, pausing records the wish. */
module Requests {
  import opened Base
  import opened PlayItem
  import opened Player
  import opened PlayerInvariant
  import opened Playback
  import opened Fallback
  import opened Handover

  // ----- skipping -----

  /** A skip gives up a stream which has not come to play yet, so that it has to be reported as dropped. */
  predicate GivesUp(s: State, skipOnly: bool) {
    && s.activated && skipOnly
    && s.current.Some? && s.current.value.state in {AboutToActivate, ActiveHalfPlaying}
  }

  /** Exactly then, the ID of this stream is marked as dropped, and nothing else ever is. */
  lemma NextMarks(s: State, skipOnly: bool, readyOk: bool, env: Env)
    ensures var t := Next(s, skipOnly, readyOk, env).s;
      && t.hist.marks == s.hist.marks +
           (if GivesUp(s, skipOnly) then [Mark(s.current.value.id, |s.hist.reports|)] else [])
      && (GivesUp(s, skipOnly) ==> s.current.value.id in t.dropped && t.dropped == s.dropped + {s.current.value.id})
  {
    if s.activated {
      var g := GiveUpCurrent(s, skipOnly);
      GivesUpMarks(s, skipOnly);
      hide GiveUpCurrent;
      TakingMarksNothing(g);
      var taken := TryTakeNext(g);
      hide TryTakeNext;
      SkippingMarksNothing(taken, if g.current.Some? then Some(g.current.value.id) else None, readyOk, env);
      hide SkipTo;
    }
  }

  lemma GivesUpMarks(s: State, skipOnly: bool)
    requires s.activated
    ensures var g := GiveUpCurrent(s, skipOnly);
      && g.hist.marks == s.hist.marks +
           (if GivesUp(s, skipOnly) then [Mark(s.current.value.id, |s.hist.reports|)] else [])
      && g.dropped == s.dropped + (if GivesUp(s, skipOnly) then {s.current.value.id} else {})
      && (GivesUp(s, skipOnly) ==> g.current.Some?)
  {
  }

  lemma TakingMarksNothing(s: State)
    ensures var t := TryTakeNext(s).s;
      t.hist.marks == s.hist.marks && (s.current.Some? ==> t.dropped == s.dropped)
  {
  }

  lemma SkippingMarksNothing(taken: Taken, skipped: Option<nat>, readyOk: bool, env: Env)
    requires taken.found ==> taken.s.current.Some?
    ensures var t := SkipTo(taken, skipped, readyOk, env).s;
      t.hist.marks == taken.s.hist.marks && t.dropped == taken.s.dropped
  {
    if taken.found {
      var it := taken.s.current.value;
      var u := if !taken.replaced && it.state in {AboutToActivate, ActiveHalfPlaying}
               then taken.s.(current := Some(it.(state := AboutToBeSkipped)))
               else taken.s;
      PlayNextTouches(u, !taken.replaced, AtCurrent, true, false, env);
      hide PlayNext;
    }
  }

  /** In every run, a stream given up by a skip is going to be reported, or has been reported since. */
  lemma SkippedIsTold(states: seq<State>, events: seq<Event>, i: nat, j: nat)
    requires IsRun(states, events) && i < j < |states|
    requires events[i].EvNext? && GivesUp(states[i], events[i].skipOnly)
    ensures var id, t := states[i].current.value.id, states[j];
      || id in t.dropped
      || exists k :: |states[i].hist.reports| <= k < |t.hist.reports| && PlayerInvariant.Lists(t.hist.reports[k], id)
  {
    var s, e := states[i], events[i];
    var mark := Mark(s.current.value.id, |s.hist.reports|);
    assert states[i + 1] == Next(s, e.skipOnly, e.readyOk, e.env).s;
    NextMarks(s, e.skipOnly, e.readyOk, e.env);
    RunKeepsInv(states, events, i + 1, j);
    assert states[i + 1].hist.marks == s.hist.marks + [mark];
    assert states[j].hist.marks[|s.hist.marks|] == mark;
    hide Next, IsRun;
  }

  /** A skip which is only for a player which has not stopped takes nothing from the queue of one which has. */
  lemma SkipOnlyIfNotStopped(s: State, readyOk: bool, env: Env)
    requires s.activated && s.status == Stopped
    ensures var r := Next(s, true, readyOk, env); var left := Left(s.current, true);
      && r.next == None && r.skipped == (if left.Some? then Some(left.value.id) else None)
      && r.s == s.(current := left, dropped := r.s.dropped, hist := r.s.hist)
      && r.s.hist == s.hist.(marks := r.s.hist.marks)
  {
  }

  // ----- clearing the queue -----

  /** What is behind the kept items is removed, and reported together with what was pending. A negative number keeps
      all of them. */
  lemma ClearRemovesTail(s: State, keep: int)
    ensures var t := ClearQueue(s, keep); var n := |s.queue|;
      var k := if 0 <= keep < n then keep else n;
      && t.queue == s.queue[..k] && t.removed == [] && t.dropped == {} && t.current == s.current
      && |t.hist.reports| == |s.hist.reports| + 1 && t.hist.reports[..|s.hist.reports|] == s.hist.reports
      && var report := t.hist.reports[|s.hist.reports|];
      && |report.removed| == |s.removed| + n - k && report.removed[..|s.removed|] == s.removed
      && (forall i :: k <= i < n ==>
            report.removed[|s.removed| + i - k] == Tag(s.queue[i].num, s.queue[i].id))
      && (forall id :: id in s.dropped ==> PlayerInvariant.Lists(report, id))
  {
  }

  // ----- pausing -----

  /** A pause is recorded unless there is nothing to pause. Only a pipeline in its initial state is set up for the next
      stream then, in the way of a start. */
  lemma PausePlaysNext(s: State, buffering: bool, state: GstState, env: Env)
    ensures var t := Pause(s, buffering, state, env); var next := NextItem(s.current, s.queue);
      if !s.activated || s.uri == "" then t == s
      else if buffering || state != Null then t == s.(status := Paused)
      else
        && t.queue == Moved(s.queue, !StaysCurrent(s.current))
        && t.hist.played == s.hist.played + (if TakesHead(s.current, s.queue) then [s.queue[0].num] else [])
        && (TakesHead(s.current, s.queue) ==> t.current.Some? && TagOf(t.current.value) == TagOf(s.queue[0]))
        && (next.Some? ==> IsSetUp(next.value, t.current))
        && t.status == (if s.current == None && s.queue == [] then Stopped else Paused)
        && (if HandsNextOver(s.current, s.queue, env) then HandedOver(t, UriOf(next.value, env))
            else if s.current == None && s.queue == [] then t.uri == ""
            else t.uri == s.uri)
  {
    if s.activated && s.uri != "" && !buffering && state == Null {
      var r := s.(status := Paused);
      NextIsTaken(r);
      var taken := TryTakeNext(r);
      hide TryTakeNext, HandsOver, TakesHead, StaysCurrent, PendingReport;
      if taken.found {
        HeadIsPlayed(taken.s, false, env);
      }
    }
  }

  // ----- an inactive player -----

  /** While the player is not active, requests change nothing, except for activation, and for reporting and removing
      what is queued. */
  lemma InactiveIgnores(s: State, e: Event)
    requires !s.activated && Enabled(s, e)
    requires e.EvPush? || e.EvNext? || e.EvStart? || e.EvPause? || e.EvStop? || e.EvDeactivate?
    ensures Step(s, e) == s
  {
  }

  lemma ActivationIsNoted(s: State)
    ensures Activate(s) == s.(activated := true)
  {
  }

  /** Deactivation stops the pipeline like a stop request: the queue is emptied if the pipeline accepts to rest or rests
      already. What is removed then is reported with the next report. */
  lemma DeactivationStops(s: State, pending: GstState, state: GstState, env: Env)
    requires s.activated
    ensures var t := Deactivate(s, pending, state, env); var empties := StopEmpties(pending, state, env);
      && t == s.(activated := false, status := Stopped, queue := t.queue, removed := t.removed)
      && t.queue == (if empties then [] else s.queue)
      && t.removed == s.removed + (if empties then Tags(s.queue) else [])
  {
    PipelineStops(s.(activated := false), pending, state, env);
    hide StopPipeline, Tags;
  }
}

/** Buffering: playback is paused until the pipeline has definitely paused and the buffer is full. */
module Buffering {
  import opened Base
  import opened Player

  datatype BufferState = NotBuffering | PausedPending | PausedForBuffering | PausedPiggyback

  datatype Level = Full | Medium | Underrun

  datatype LevelChange = NoChange | FullDetected | UnderrunDetected

  datatype LeaveResult = BufferFilled | StillBuffering | WasNotBuffering

  datatype Buffer = Buffer(state: BufferState, level: Level)

  const RESET := Buffer(NotBuffering, Full)

  function LevelFor(b: Buffer, percent: nat): Level {
    if percent >= 100 then Full
    else if percent == 0 || (percent < 15 && b.state == NotBuffering) then Underrun
    else Medium
  }

  function ChangeOf(before: Level, after: Level): LevelChange {
    if before == after || after == Medium then NoChange
    else if after == Full then FullDetected
    else UnderrunDetected
  }

  function PauseEntered(b: Buffer): Buffer {
    if b.state == PausedPending then b.(state := PausedForBuffering) else b
  }

  function TriedToLeave(b: Buffer): (Buffer, LeaveResult) {
    if b.state == NotBuffering then (b, WasNotBuffering)
    else if b.state == PausedPending || b.level != Full then (b, StillBuffering)
    else (b.(state := NotBuffering), BufferFilled)
  }

  class Data {
    var state: BufferState
    var level: Level

    ghost function View(): Buffer
      reads this
    {
      Buffer(state, level)
    }

    constructor ()
      ensures View() == RESET
    {
      state, level := NotBuffering, Full;
    }

    method SetBufferLevel(percent: nat) returns (change: LevelChange)
      modifies this`level
      ensures level == LevelFor(old(View()), percent) && change == ChangeOf(old(level), level)
    {
      if percent >= 100 {
        change := if level != Full then FullDetected else NoChange;
        level := Full;
      } else if percent == 0 || (percent < 15 && state == NotBuffering) {
        change := if level != Underrun then UnderrunDetected else NoChange;
        level := Underrun;
      } else {
        change := NoChange;
        level := Medium;
      }
    }

    method StartBuffering(start: BufferState)
      requires state == NotBuffering
      modifies this`state
      ensures state == start
    {
      state := start;
    }

    method EnteredPause() returns (buffering: bool)
      modifies this`state
      ensures View() == PauseEntered(old(View())) && buffering == (state != NotBuffering)
    {
      match state
      case NotBuffering => buffering := false;
      case PausedPending =>
        state := PausedForBuffering;
        buffering := true;
      case _ => buffering := true;
    }

    method TryLeaveBufferingState() returns (result: LeaveResult)
      modifies this`state
      ensures (View(), result) == TriedToLeave(old(View()))
    {
      match state {
        case NotBuffering => return WasNotBuffering;
        case PausedPending =>
        case _ =>
          if level == Full {
            state := NotBuffering;
            return BufferFilled;
          }
      }
      result := StillBuffering;
    }

    method ResetData()
      modifies this
      ensures View() == RESET
    {
      state, level := NotBuffering, Full;
    }
  }

  // ----- what the handlers of the player do with it -----

  /** `target` is the state last asked of the pipeline, `commands` all the states asked for. */
  datatype Ctl = Ctl(buffer: Buffer, status: PlayStatus, target: GstState, commands: seq<GstState>)

  predicate IsBuffering(s: Ctl) {
    s.buffer.state != NotBuffering
  }

  function Command(s: Ctl, state: GstState): Ctl {
    s.(target := state, commands := s.commands + [state])
  }

  function TryLeave(s: Ctl): Ctl {
    var (b, result) := TriedToLeave(s.buffer);
    var t := s.(buffer := b);
    if result == BufferFilled && s.status == Playing then Command(t, GstPlaying) else t
  }

  /** `current` is the state in which the pipeline is. */
  function HandleUnderrun(s: Ctl, current: GstState): Ctl {
    if IsBuffering(s) then s
    else match s.target
      case GstPlaying =>
        if current != GstPaused then Command(s, GstPaused).(buffer := s.buffer.(state := PausedPending))
        else s.(buffer := s.buffer.(state := PausedForBuffering))
      case GstPaused =>
        s.(buffer := s.buffer.(state := if current == GstPaused then PausedPiggyback else PausedPending))
      case _ => s
  }

  function HandleReport(s: Ctl, percent: int, current: GstState): Ctl {
    if s.status == Stopped || percent < 0 || percent > 100 then s
    else
      var level := LevelFor(s.buffer, percent);
      var t := s.(buffer := s.buffer.(level := level));
      match ChangeOf(s.buffer.level, level)
      case FullDetected => TryLeave(t)
      case UnderrunDetected => HandleUnderrun(t, current)
      case NoChange => t
  }

  /** What is known when a URI is passed to the pipeline: whether it is a network stream, whether the
      pipeline accepts the state asked for, and in which state it is after that. */
  datatype Play = Play(network: bool, accepted: bool, current: GstState)

  function Encouraged(s: Ctl, network: bool, current: GstState): Ctl {
    if network then HandleUnderrun(s.(buffer := s.buffer.(level := Underrun)), current) else s
  }

  function PassUri(s: Ctl, next: GstState, play: Play): Ctl {
    var t := Command(s, next);
    if play.accepted then Encouraged(t, play.network, play.current) else t
  }

  function PipelineChanged(s: Ctl, before: GstState, state: GstState, pending: GstState, stopped: bool): Ctl {
    if state == before && state in {Ready, Null} then s
    else
      var t :=
        if state == GstPaused && before in {Ready, Null} && pending == GstPlaying then
          if s.target != GstPaused then s.(buffer := RESET)
          else TryLeave(s.(buffer := PauseEntered(s.buffer)))
        else s;
      if pending != VoidPending then t
      else if s.target == Ready then if stopped then t.(status := Stopped, buffer := RESET) else t
      else if s.target == GstPaused then TryLeave(t.(buffer := PauseEntered(t.buffer)))
      else t
  }

  function BuiltAnew(s: Ctl): Ctl {
    Command(Command(s, Null), Ready)
  }

  /** A request to play. The pipeline is built anew if it is not running, and a URI may be passed on. */
  function StartPlaying(s: Ctl, pending: GstState, state: GstState, play: Option<Play>): Ctl {
    var t := s.(status := Playing);
    if IsBuffering(s) || pending == GstPlaying then t
    else if pending == GstPaused || state == GstPaused then Command(t, GstPlaying)
    else if state in {Ready, Null} then
      var u := BuiltAnew(t).(buffer := RESET);
      if play.Some? then PassUri(u, GstPlaying, play.value) else u
    else t
  }

  function PausePlaying(s: Ctl, state: GstState, play: Option<Play>): Ctl {
    var t := s.(status := Paused);
    if IsBuffering(s) then t
    else match state
      case Null => if play.Some? then PassUri(t, GstPaused, play.value) else t
      case Ready => Command(t, GstPaused)
      case GstPlaying => Command(t, GstPaused)
      case _ => t
  }

  datatype Event =
    | Filled(percent: int, current: GstState)
    | Changed(before: GstState, state: GstState, pending: GstState, stopped: bool)
    | Start(pending: GstState, state: GstState, play: Option<Play>)
    | Pause(state: GstState, play: Option<Play>)
    | Pass(next: GstState, uri: Play)       // a URI is passed on, for instance after its link was resolved
    | Sought(network: bool, now: GstState)   // a position was sought
    | HasStopped                             // playback has stopped, with or without error
    | Rebuild                                // the pipeline was built anew
    | Ask(state: GstState)                   // other handlers ask for a state
    | GiveUp                                 // a stop request, or no next stream

  function Step(s: Ctl, e: Event): Ctl {
    match e
    case Filled(percent, current) => HandleReport(s, percent, current)
    case Changed(before, state, pending, stopped) => PipelineChanged(s, before, state, pending, stopped)
    case Start(pending, state, play) => StartPlaying(s, pending, state, play)
    case Pause(state, play) => PausePlaying(s, state, play)
    case Pass(next, uri) => PassUri(s, next, uri)
    case Sought(network, now) => Encouraged(s, network, now)
    case HasStopped => s.(status := Stopped, buffer := RESET)
    case Rebuild => BuiltAnew(s)
    case Ask(state) => Command(s, state)
    case GiveUp => s.(status := Stopped)
  }

  function Run(s: Ctl, events: seq<Event>): Ctl {
    if events == [] then s else Step(Run(s, events[..|events| - 1]), events[|events| - 1])
  }

  // ----- the handlers -----

  class Controller {
    const data: Data
    var status: PlayStatus
    var target: GstState
    var commands: seq<GstState>

    ghost function View(): Ctl
      reads this, data
    {
      Ctl(data.View(), status, target, commands)
    }

    constructor ()
      ensures View() == Ctl(RESET, Stopped, Null, []) && fresh(data)
    {
      data := new Data();
      status, target, commands := Stopped, Null, [];
    }

    method SetStreamState(state: GstState)
      modifies this`target, this`commands
      ensures View() == Command(old(View()), state)
    {
      target, commands := state, commands + [state];
    }

    method LeaveIfFilled()
      modifies this`target, this`commands, data
      ensures View() == TryLeave(old(View()))
    {
      var result := data.TryLeaveBufferingState();
      if result == BufferFilled && status == Playing {
        SetStreamState(GstPlaying);
      }
    }

    method OnUnderrun(current: GstState)
      modifies this`target, this`commands, data
      ensures View() == HandleUnderrun(old(View()), current)
    {
      if data.state != NotBuffering {
        return;
      }
      match target
      case GstPlaying =>
        if current != GstPaused {
          SetStreamState(GstPaused);
        }
        data.StartBuffering(if current == GstPaused then PausedForBuffering else PausedPending);
      case GstPaused =>
        data.StartBuffering(if current == GstPaused then PausedPiggyback else PausedPending);
      case _ =>
    }

    method OnReport(percent: int, current: GstState)
      modifies this`target, this`commands, data
      ensures View() == HandleReport(old(View()), percent, current)
    {
      if status == Stopped || percent < 0 || percent > 100 {
        return;
      }
      var change := data.SetBufferLevel(percent);
      match change
      case FullDetected => LeaveIfFilled();
      case UnderrunDetected => OnUnderrun(current);
      case NoChange =>
    }

    method OnUriPassed(next: GstState, play: Play)
      modifies this`target, this`commands, data
      ensures View() == PassUri(old(View()), next, play)
    {
      SetStreamState(next);
      if play.accepted {
        EncourageBuffering(play.network, play.current);
      }
    }

    method EncourageBuffering(network: bool, current: GstState)
      modifies this`target, this`commands, data
      ensures View() == Encouraged(old(View()), network, current)
    {
      if network {
        var _ := data.SetBufferLevel(0);
        OnUnderrun(current);
      }
    }

    method OnStateChanged(before: GstState, state: GstState, pending: GstState, stopped: bool)
      modifies this, data
      ensures View() == PipelineChanged(old(View()), before, state, pending, stopped)
    {
      if state == before && state in {Ready, Null} {
        return;
      }
      var wanted := target;
      if state == GstPaused && before in {Ready, Null} && pending == GstPlaying {
        if wanted != GstPaused {
          data.ResetData();
        } else {
          var buffering := data.EnteredPause();
          if buffering {
            LeaveIfFilled();
          }
        }
      }
      if pending != VoidPending {
        return;
      }
      if wanted == Ready {
        if stopped {
          status := Stopped;
          data.ResetData();
        }
      } else if wanted == GstPaused {
        var buffering := data.EnteredPause();
        if buffering {
          LeaveIfFilled();
        }
      }
    }

    method OnStart(pending: GstState, state: GstState, play: Option<Play>)
      modifies this, data
      ensures View() == StartPlaying(old(View()), pending, state, play)
    {
      status := Playing;
      if data.state != NotBuffering || pending == GstPlaying {
        return;
      }
      if pending == GstPaused || state == GstPaused {
        SetStreamState(GstPlaying);
      } else if state in {Ready, Null} {
        SetStreamState(Null);
        SetStreamState(Ready);
        data.ResetData();
        if play.Some? {
          OnUriPassed(GstPlaying, play.value);
        }
      }
    }

    method OnPause(state: GstState, play: Option<Play>)
      modifies this, data
      ensures View() == PausePlaying(old(View()), state, play)
    {
      status := Paused;
      if data.state != NotBuffering {
        return;
      }
      match state
      case Null =>
        if play.Some? {
          OnUriPassed(GstPaused, play.value);
        }
      case Ready => SetStreamState(GstPaused);
      case GstPlaying => SetStreamState(GstPaused);
      case _ =>
    }
  }

  // ----- buffering never gets stuck -----

  /** Nobody waits for a full buffer while it is full. */
  predicate NotStuck(s: Ctl) {
    s.buffer.state in {PausedForBuffering, PausedPiggyback} ==> s.buffer.level != Full
  }

  lemma {:induction false} NeverStuck(s: Ctl, events: seq<Event>)
    requires NotStuck(s)
    ensures NotStuck(Run(s, events))
  {
    if events != [] {
      NeverStuck(s, events[..|events| - 1]);
    }
  }

  /** Buffering starts at an underrun only, and only if playing or pausing is wanted. */
  lemma StartsAtUnderrun(s: Ctl, e: Event)
    requires !IsBuffering(s) && IsBuffering(Step(s, e))
    ensures var t := Step(s, e);
      && t.buffer.level == Underrun
      && (t.target == GstPaused || (t.target == GstPlaying && t.buffer.state == PausedForBuffering))
  {
  }

  predicate IsWish(e: Event) {
    e.Start? || e.Pause?
  }

  /** Reports, with any wishes of the user between them. */
  predicate Reports(events: seq<Event>) {
    forall i :: 0 <= i < |events| ==> IsWish(events[i]) || (events[i].Filled? && 0 <= events[i].percent <= 100)
  }

  /** The definite pause which was waited for. */
  const SETTLED := Changed(GstPlaying, GstPaused, VoidPending, false)

  /** The last report is that the buffer is full. */
  predicate EndsWithFull(events: seq<Event>) {
    events != [] &&
    var last := events[|events| - 1];
    if last.Filled? then last.percent == 100 else EndsWithFull(events[..|events| - 1])
  }

  lemma {:induction false} PendingStays(s: Ctl, before: seq<Event>)
    requires s.buffer == Buffer(PausedPending, Underrun) && s.status != Stopped && Reports(before)
    ensures var t := Run(s, before);
      && t.buffer.state == PausedPending && (t.buffer.level == Full <==> EndsWithFull(before))
      && t.status != Stopped && t.target == s.target && t.commands == s.commands
  {
    if before != [] {
      PendingStays(s, before[..|before| - 1]);
    }
  }

  predicate AnyFull(events: seq<Event>) {
    exists k :: 0 <= k < |events| && events[k].Filled? && events[k].percent == 100
  }

  /** Whether buffering ends during the given events. */
  ghost predicate Leaves(s: Ctl, events: seq<Event>) {
    exists k :: 0 <= k <= |events| && !IsBuffering(Run(s, events[..k]))
  }

  predicate Waits(s: Ctl) {
    s.buffer.state == PausedForBuffering && s.buffer.level != Full && s.status != Stopped
  }

  lemma {:induction false} WaitsUntilFull(s: Ctl, after: seq<Event>)
    requires Waits(s) && Reports(after) && !AnyFull(after)
    ensures Waits(Run(s, after))
  {
    if after != [] {
      WaitsUntilFull(s, after[..|after| - 1]);
    }
  }

  lemma {:induction false} FullReportEnds(s: Ctl, after: seq<Event>)
    requires Waits(s) && Reports(after) && AnyFull(after)
    ensures Leaves(s, after)
  {
    var init := after[..|after| - 1];
    if AnyFull(init) {
      FullReportEnds(s, init);
      var k :| 0 <= k <= |init| && !IsBuffering(Run(s, init[..k]));
      assert after[..k] == init[..k];
    } else {
      WaitsUntilFull(s, init);
      assert after[|init|].percent == 100;
      assert after[..|after|] == after;
    }
  }

  lemma LeavesOnlyIfFull(s: Ctl, after: seq<Event>)
    requires Waits(s) && Reports(after) && !AnyFull(after)
    ensures !Leaves(s, after)
  {
    forall k | 0 <= k <= |after| ensures IsBuffering(Run(s, after[..k])) {
      WaitsUntilFull(s, after[..k]);
    }
  }

  /** When buffering waits for the pause, any reports and wishes come before it and any after it, buffering ends
      exactly if the buffer is full when the pause comes or reported to be full later. */
  lemma EndsExactlyIfFull(s: Ctl, before: seq<Event>, after: seq<Event>)
    requires s.buffer == Buffer(PausedPending, Underrun) && s.status != Stopped && s.target == GstPaused
    requires Reports(before) && Reports(after)
    ensures var paused := Step(Run(s, before), SETTLED);
      Leaves(paused, after) <==> EndsWithFull(before) || AnyFull(after)
  {
    PendingStays(s, before);
    var paused := Step(Run(s, before), SETTLED);
    if EndsWithFull(before) {
      assert after[..0] == [];
      assert !IsBuffering(Run(paused, after[..0]));
    } else if AnyFull(after) {
      FullReportEnds(paused, after);
    } else {
      LeavesOnlyIfFull(paused, after);
    }
  }

  /** A full buffer which is not full any more when the pause comes does not end buffering. */
  lemma FullThenLessThenPause()
    ensures var s := Ctl(Buffer(PausedPending, Underrun), Playing, GstPaused, []);
      IsBuffering(Run(s, [Filled(100, GstPaused), Filled(50, GstPaused), SETTLED]))
  {
    var s := Ctl(Buffer(PausedPending, Underrun), Playing, GstPaused, []);
    var events := [Filled(100, GstPaused), Filled(50, GstPaused)];
    assert events[..1] == [Filled(100, GstPaused)];
    PendingStays(s, events);
    assert (events + [SETTLED])[..2] == events;
    assert events + [SETTLED] == [Filled(100, GstPaused), Filled(50, GstPaused), SETTLED];
  }

  // ----- what the user wants -----

  /** The last wish, or the status at the beginning. */
  function Wanted(status: PlayStatus, events: seq<Event>): PlayStatus {
    if events == [] then status
    else match events[|events| - 1]
      case Start(_, _, _) => Playing
      case Pause(_, _) => Paused
      case _ => Wanted(status, events[..|events| - 1])
  }

  /** Reports, wishes and messages from the pipeline while buffering goes on. */
  ghost predicate Episode(s: Ctl, events: seq<Event>) {
    && (forall i :: 0 <= i < |events| ==> events[i].Filled? || IsWish(events[i]) || events[i].Changed?)
    && (forall k :: 0 <= k < |events| ==> IsBuffering(Run(s, events[..k])))
  }

  lemma {:induction false} DuringEpisode(s: Ctl, events: seq<Event>)
    requires Episode(s, events) && IsBuffering(Run(s, events))
    ensures var t := Run(s, events);
      t.commands == s.commands && t.target == s.target && t.status == Wanted(s.status, events)
  {
    if events != [] {
      var init := events[..|events| - 1];
      assert forall k :: 0 <= k <= |init| ==> events[..k] == init[..k];
      DuringEpisode(s, init);
    }
  }

  /** Nothing is asked of the pipeline while an episode which has begun with a pause lasts, whatever
      the user wants. When the buffer is filled, playing is asked for exactly if that is the last wish,
      so the pipeline is told what the user wants. */
  lemma WishSurvivesBuffering(s: Ctl, events: seq<Event>)
    requires s.target == GstPaused && IsBuffering(s) && s.status in {Playing, Paused}
    requires events != [] && Episode(s, events) && !IsBuffering(Run(s, events))
    ensures var t := Run(s, events); var wish := Wanted(s.status, events);
      && t.status == wish && wish in {Playing, Paused}
      && t.commands == s.commands + (if wish == Playing then [GstPlaying] else [])
      && t.target == (if wish == Playing then GstPlaying else GstPaused)
  {
    BeforeLast(s, events);
    BufferingEnds(Run(s, events[..|events| - 1]), events[|events| - 1]);
    hide Step, Episode;
  }

  /** What holds when the last event of an episode comes. */
  lemma BeforeLast(s: Ctl, events: seq<Event>)
    requires s.status in {Playing, Paused} && events != [] && Episode(s, events)
    ensures var t := Run(s, events[..|events| - 1]); var wish := Wanted(s.status, events[..|events| - 1]);
      && IsBuffering(t) && t.commands == s.commands && t.target == s.target
      && t.status == wish && wish in {Playing, Paused}
  {
    var init := events[..|events| - 1];
    assert forall k :: 0 <= k <= |init| ==> events[..k] == init[..k];
    DuringEpisode(s, init);
    WantedIsWish(s.status, init);
  }

  lemma BufferingEnds(s: Ctl, e: Event)
    requires IsBuffering(s) && s.status in {Playing, Paused} && !IsBuffering(Step(s, e))
    requires e.Filled? || IsWish(e) || e.Changed?
    ensures var t := Step(s, e);
      && !IsWish(e)
      && (s.target == GstPaused || e.Filled? ==>
            && t.status == s.status && t.target == (if s.status == Playing then GstPlaying else s.target)
            && t.commands == s.commands + (if s.status == Playing then [GstPlaying] else []))
      && (s.target != GstPaused && !e.Filled? ==> t.target == s.target)
  {
  }

  lemma {:induction false} WantedIsWish(status: PlayStatus, events: seq<Event>)
    requires status in {Playing, Paused}
    ensures Wanted(status, events) in {Playing, Paused}
  {
    if events != [] {
      WantedIsWish(status, events[..|events| - 1]);
    }
  }

  /** When buffering ends, whatever was asked of the pipeline before, the pipeline has been told what the
      user wants exactly if buffering has begun with a pause, or if that is to play and the pipeline has been
      asked for it before or is asked now, because the buffer is filled. */
  lemma PipelineFollowsWish(s: Ctl, events: seq<Event>)
    requires IsBuffering(s) && s.status in {Playing, Paused}
    requires events != [] && Episode(s, events) && !IsBuffering(Run(s, events))
    ensures var t := Run(s, events); var wish := Wanted(s.status, events);
      t.target == (if wish == Playing then GstPlaying else GstPaused) <==>
        s.target == GstPaused || (wish == Playing && (s.target == GstPlaying || events[|events| - 1].Filled?))
  {
    BeforeLast(s, events);
    BufferingEnds(Run(s, events[..|events| - 1]), events[|events| - 1]);
    hide Step, Episode;
  }

  /** If the pipeline is about to play but is still paused at the underrun, a pause wanted while
      buffering is lost: the pipeline goes on to play. */
  lemma PauseIsLost()
    ensures var s := HandleReport(Ctl(Buffer(NotBuffering, Medium), Playing, GstPlaying, []), 0, GstPaused);
      var t := Step(Step(s, Pause(GstPaused, None)), Filled(100, GstPaused));
      IsBuffering(s) && !IsBuffering(t) && t.status == Paused && t.target == GstPlaying
  {
  }

  // ----- what reports and wishes do outside of buffering -----

  /** Which reports make buffering begin: those below 15 percent while not buffering, unless the level was found to be
      that low before. The pipeline must be about to play or to pause. */
  lemma ReportStartsBuffering(s: Ctl, percent: int, current: GstState)
    requires !IsBuffering(s)
    ensures IsBuffering(HandleReport(s, percent, current)) <==>
      s.status != Stopped && 0 <= percent < 15 && s.buffer.level != Underrun && s.target in {GstPlaying, GstPaused}
  {
  }

  /** While buffering, a report ends it exactly if it is the first one of a full buffer after the definite pause; lower
      levels, whatever they are, make it go on. */
  lemma ReportEndsBuffering(s: Ctl, percent: int, current: GstState)
    requires IsBuffering(s)
    ensures !IsBuffering(HandleReport(s, percent, current)) <==>
      s.status != Stopped && percent == 100 && s.buffer.level != Full && s.buffer.state != PausedPending
  {
  }

  /** How buffering begins: a pipeline which plays is paused for it, and the pause waited for; one which is paused
      already is just kept from playing. */
  lemma UnderrunPauses(s: Ctl, percent: nat, current: GstState)
    requires !IsBuffering(s) && IsBuffering(HandleReport(s, percent, current))
    ensures var t := HandleReport(s, percent, current);
      && t.commands == s.commands + (if s.target == GstPlaying && current != GstPaused then [GstPaused] else [])
      && t.status == s.status
      && (t.buffer.state == PausedPending <==> current != GstPaused)
      && (t.buffer.state == PausedPiggyback <==> current == GstPaused && s.target == GstPaused)
  {
  }

  /** Outside of buffering, a request to pause asks exactly a pipeline which is ready or playing to pause; one in its
      initial state is only asked if there is something to play. While buffering nothing is asked. */
  lemma PauseAsksToPause(s: Ctl, state: GstState, play: Option<Play>)
    ensures var t := PausePlaying(s, state, play);
      && t.status == Paused
      && (IsBuffering(s) ==> t == s.(status := Paused))
      && (!IsBuffering(s) && state in {Ready, GstPlaying} ==>
            t == s.(status := Paused, target := GstPaused, commands := s.commands + [GstPaused]))
      && (!IsBuffering(s) && (state in {GstPaused, VoidPending} || (state == Null && play == None)) ==>
            t == s.(status := Paused))
      && (!IsBuffering(s) && state == Null && play.Some? ==>
            t.target == GstPaused && t.commands == s.commands + [GstPaused])
  {
  }

  /** Outside of buffering, a request to start asks exactly a pipeline which is paused or about to pause to play.
      One which is not running is built anew, and asked to play if there is something to play; nothing is asked of a
      pipeline which plays or is about to. While buffering nothing is asked. */
  lemma StartAsksToPlay(s: Ctl, pending: GstState, state: GstState, play: Option<Play>)
    ensures var t := StartPlaying(s, pending, state, play);
      && t.status == Playing
      && (IsBuffering(s) || pending == GstPlaying || (pending != GstPaused && state in {GstPlaying, VoidPending}) ==>
            t == s.(status := Playing))
      && (!IsBuffering(s) && (pending == GstPaused || (pending != GstPlaying && state == GstPaused)) ==>
            t == s.(status := Playing, target := GstPlaying, commands := s.commands + [GstPlaying]))
      && (!IsBuffering(s) && pending !in {GstPaused, GstPlaying} && state in {Ready, Null} ==>
            && s.commands + [Null, Ready] + (if play.Some? then [GstPlaying] else []) <= t.commands
            && (play == None ==> t.commands == s.commands + [Null, Ready] && t.buffer == RESET)
            && (play.Some? && !(play.value.accepted && play.value.network) ==>
                  t.commands == s.commands + [Null, Ready, GstPlaying] && t.buffer == RESET)
            && (play.Some? && play.value.accepted && play.value.network ==> IsBuffering(t)))
  {
  }

  /** A wish which the pipeline is asked to follow. */
  predicate IsAsked(e: Event) {
    match e
    case Start(pending, state, play) =>
      pending == GstPaused || (pending != GstPlaying && (state == GstPaused || (state in {Ready, Null} && play.Some?)))
    case Pause(state, play) => state in {Ready, GstPlaying} || (state == Null && play.Some?)
    case _ => false
  }

  /** Over any run of such wishes during which buffering does not begin, what is asked of the pipeline is what the
      user has wished last. */
  lemma {:induction false} TargetIsLastWish(s: Ctl, events: seq<Event>)
    requires events != [] && forall i :: 0 <= i < |events| ==> IsAsked(events[i])
    requires forall k :: 0 <= k <= |events| ==> !IsBuffering(Run(s, events[..k]))
    ensures var t := Run(s, events); var wish := Wanted(s.status, events);
      && t.status == wish && wish in {Playing, Paused}
      && t.target == (if wish == Playing then GstPlaying else GstPaused)
  {
    var init, last := events[..|events| - 1], events[|events| - 1];
    assert IsAsked(last) && events[..|events|] == events;
    assert !IsBuffering(Run(s, init)) && !IsBuffering(Run(s, events));
  }

  /** A report which does not make buffering begin or end asks nothing of the pipeline. Outside of buffering, a full
      buffer is nothing new. */
  lemma ReportAsksNothing(s: Ctl, percent: int, current: GstState)
    requires IsBuffering(s) == IsBuffering(HandleReport(s, percent, current))
    ensures var t := HandleReport(s, percent, current);
      t.commands == s.commands && t.target == s.target && t.status == s.status && t.buffer.state == s.buffer.state
  {
  }

  /** What an attempt to leave answers: that it has succeeded, exactly if the pause is definite and the buffer full, or
      that there was nothing to leave. */
  lemma LeavingAnswers(b: Buffer)
    ensures var (r, result) := TriedToLeave(b);
      && (result == WasNotBuffering <==> b.state == NotBuffering)
      && (result == BufferFilled <==> b.state in {PausedForBuffering, PausedPiggyback} && b.level == Full)
      && r == if result == BufferFilled then RESET else b
  {
  }

  /** The pause asked for is definite: buffering waits for a full buffer only, or ends if it is full already. */
  predicate IsPausedNow(s: Ctl, t: Ctl) {
    if s.buffer.state == NotBuffering then t == s
    else if s.buffer.level != Full then
      t == s.(buffer := Buffer(if s.buffer.state == PausedPending then PausedForBuffering else s.buffer.state,
                               s.buffer.level))
    else if s.status == Playing
    then t == s.(buffer := RESET, target := GstPlaying, commands := s.commands + [GstPlaying])
    else t == s.(buffer := RESET)
  }

  /** What each message from the pipeline about its state means for buffering. A pipeline which pauses for a new stream
      on its way to playing discards it, unless it was asked to pause; a definite pause which was asked for is what
      buffering waits for; a stop which has come to its end discards it. All other messages mean nothing. */
  lemma MessageMeans(s: Ctl, before: GstState, state: GstState, pending: GstState, stopped: bool)
    ensures var t := PipelineChanged(s, before, state, pending, stopped);
      var pausesForNew := state == GstPaused && (before == Ready || before == Null) && pending == GstPlaying;
      var isThere := pending == VoidPending && !(state == before && (state == Ready || state == Null));
      if pausesForNew && s.target != GstPaused then t == s.(buffer := RESET)
      else if (pausesForNew || isThere) && s.target == GstPaused then IsPausedNow(s, t)
      else if isThere && s.target == Ready && stopped then t == s.(status := Stopped, buffer := RESET)
      else t == s
  {
  }

  /** Once the player has stopped or given up, it is not playing, and no report has any effect until it is started or
      paused; buffering is over when it has stopped. */
  lemma {:induction false} ReportsAreIgnored(s: Ctl, e: Event, reports: seq<Event>)
    requires e in {HasStopped, GiveUp} && forall i :: 0 <= i < |reports| ==> reports[i].Filled?
    ensures var t := Step(s, e);
      && Run(t, reports) == t && t.status == Stopped && t.commands == s.commands
      && t.buffer == (if e == HasStopped then RESET else s.buffer)
  {
    if reports != [] {
      ReportsAreIgnored(s, e, reports[..|reports| - 1]);
    }
  }
}

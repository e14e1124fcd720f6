/** Runs in which the player does not do what one might expect of it, beginning with its initial state. What
    happens in general, and exactly when, is stated in `Handover` and `Fallback`. */
module Scenarios {
  import opened Base
  import opened PlayItem
  import opened Player
  import opened PlayerInvariant
  import opened Fallback
  import opened Handover

  /** Links are answered with cookies, and the pipeline accepts all states. */
  const WILLING := Env((loc: Loc, i: nat) => Cookie, true, 0)

  /** Links are broken. */
  const BROKEN := Env((loc: Loc, i: nat) => Fast("", 0), true, 0)

  /** Links are resolved at once. */
  const RESOLVING := Env((loc: Loc, i: nat) => Fast("u", 60), true, 0)

  /** Links are resolved at once, but the pipeline accepts nothing. */
  const REFUSING := Env((loc: Loc, i: nat) => Fast("u", 60), false, 0)

  /** The resolver cannot be asked. */
  const UNREACHABLE := Env((loc: Loc, i: nat) => CallFailed, true, 0)

  function Direct(uri: string): Url {
    DirectUrl(uri, "")
  }

  lemma Extend(states: seq<State>, events: seq<Event>, e: Event) returns (sts: seq<State>, evs: seq<Event>)
    requires IsRun(states, events) && Enabled(states[|events|], e)
    ensures IsRun(sts, evs) && |evs| == |events| + 1 && evs[..|events|] == events && evs[|events|] == e
    ensures |sts| > |evs| && sts[|evs|] == Step(states[|events|], e) && sts[..|states|] == states
  {
    sts, evs := states + [Step(states[|events|], e)], events + [e];
  }

  const NOTHING := Report([], {})

  lemma QuietReport(s: State)
    requires s.removed == [] && s.dropped == {}
    ensures SendReport(s) == s.(hist := s.hist.(reports := s.hist.reports + [NOTHING]))
  {
    assert s.dropped - Ids(s.removed) == {};
  }

  function Pushed1(urls: seq<Url>): State {
    Initial(9).(activated := true, queue := [NewItem(0, 1, urls)],
                hist := History(1, [], [], [], [NOTHING, NOTHING], []))
  }

  lemma FirstPush(urls: seq<Url>)
    ensures Push(Activate(Initial(9)), 1, urls, 0, WILLING) == Pushed1(urls)
  {
    var s := Activate(Initial(9));
    QuietReport(s);
    var t := Append(SendReport(s), 1, urls);
    assert AfterPush(SendReport(s), 1, urls, 0, WILLING) == t;
    QuietReport(t);
    hide SendReport;
  }

  /** The only item has been started, and the pipeline has accepted that or not. */
  function Started1(urls: seq<Url>, accepted: bool): State
    requires urls != []
  {
    var it := NewItem(0, 1, urls);
    Pushed1(urls).(queue := [], status := Playing, current := Some(it.(state := AboutToActivate)),
                   protectedOnce := true, uri := UrlForPlaying(it), asked := [accepted],
                   hist := Pushed1(urls).hist.(played := [0]))
  }

  lemma FirstStart(urls: seq<Url>, env: Env)
    requires urls != [] && !urls[0].isLink && urls[0].direct != ""
    ensures Start(Pushed1(urls), false, VoidPending, Ready, env) == Started1(urls, env.pipelineOk)
  {
    var r := Rebuilt(Pushed1(urls).(status := Playing));
    assert TryTakeNext(r) == Taken(TakeHead(r), true, true);
  }

  lemma RunToStarted(urls: seq<Url>, env: Env) returns (states: seq<State>, events: seq<Event>)
    requires urls != [] && !urls[0].isLink && urls[0].direct != ""
    ensures IsRun(states, events) && |states| > |events| && states[|events|] == Started1(urls, env.pipelineOk)
    ensures events != [] && events[|events| - 1] == EvStart(false, VoidPending, Ready, env)
  {
    states, events := [Initial(9)], [];
    assert IsRun(states, events);
    hide IsRun;
    hide Push, Start;
    states, events := Extend(states, events, EvActivate);
    states, events := Extend(states, events, EvPush(1, urls, 0, WILLING));
    FirstPush(urls);
    states, events := Extend(states, events, EvStart(false, VoidPending, Ready, env));
    FirstStart(urls, env);
  }

  /** The only item with the given URLs is playing. */
  function Playing1(urls: seq<Url>): State
    requires urls != []
  {
    var s := Started1(urls, true);
    s.(current := Some(s.current.value.(state := AboutToPhaseOut)),
       hist := s.hist.(reports := [NOTHING, NOTHING, NOTHING]))
  }

  lemma FirstStreamStart(urls: seq<Url>)
    requires urls != []
    ensures StreamStart(Started1(urls, true), WILLING) == Playing1(urls)
  {
    var s := Started1(urls, true);
    QuietReport(s.(current := Playing1(urls).current));
    hide SendReport;
    assert PickStarted(s) == Some(AtCurrent) && NeedsActivation(s, AtCurrent);
  }

  lemma RunToPlaying(urls: seq<Url>) returns (states: seq<State>, events: seq<Event>)
    requires urls != [] && !urls[0].isLink && urls[0].direct != ""
    ensures IsRun(states, events) && |states| > |events| && states[|events|] == Playing1(urls)
  {
    hide IsRun, StreamStart;
    states, events := RunToStarted(urls, WILLING);
    states, events := Extend(states, events, EvStreamStart(false, WILLING));
    FirstStreamStart(urls);
  }

  /** Another item has been pushed behind the queue. */
  function PushedTo(s: State, id: nat, urls: seq<Url>): State {
    s.(queue := s.queue + [NewItem(s.hist.accepted, id, urls)],
       hist := s.hist.(accepted := s.hist.accepted + 1, reports := s.hist.reports + [NOTHING, NOTHING]))
  }

  lemma AnotherPush(s: State, id: nat, urls: seq<Url>)
    requires s.activated && s.removed == [] && s.dropped == {} && |s.queue| < s.cap <= 9 && s.request == NotRequested
    ensures Push(s, id, urls, 9, WILLING) == PushedTo(s, id, urls)
  {
    QuietReport(s);
    var r := SendReport(s);
    assert AfterPush(r, id, urls, 9, WILLING) == Append(r, id, urls);
    QuietReport(Append(r, id, urls));
    hide SendReport;
  }

  lemma PushOne(states: seq<State>, events: seq<Event>, id: nat, urls: seq<Url>)
    returns (sts: seq<State>, evs: seq<Event>)
    requires IsRun(states, events) && |states| > |events|
    requires var s := states[|events|];
      s.activated && s.removed == [] && s.dropped == {} && |s.queue| < s.cap <= 9 && s.request == NotRequested
    ensures IsRun(sts, evs) && |sts| > |evs| && sts[|evs|] == PushedTo(states[|events|], id, urls)
  {
    hide IsRun, Push;
    AnotherPush(states[|events|], id, urls);
    assert Enabled(states[|events|], EvPush(id, urls, 9, WILLING));
    sts, evs := Extend(states, events, EvPush(id, urls, 9, WILLING));
  }

  /** A second item has been pushed. */
  function Pushed2(urls: seq<Url>, more: seq<Url>): State
    requires urls != []
  {
    PushedTo(Playing1(urls), 2, more)
  }

  lemma RunToSecond(urls: seq<Url>, more: seq<Url>) returns (states: seq<State>, events: seq<Event>)
    requires urls != [] && !urls[0].isLink && urls[0].direct != ""
    ensures IsRun(states, events) && |states| > |events| && states[|events|] == Pushed2(urls, more)
  {
    hide IsRun;
    states, events := RunToPlaying(urls);
    states, events := PushOne(states, events, 2, more);
  }

  /** GStreamer has asked for the second item, whose URI is known. */
  lemma RunToPrefetched(urls: seq<Url>) returns (states: seq<State>, events: seq<Event>)
    requires urls != [] && !urls[0].isLink && urls[0].direct != ""
    ensures IsRun(states, events) && |states| > |events| && states[|events|] == Prefetched2(urls)
  {
    hide IsRun;
    states, events := RunToSecond(urls, [Direct("b")]);
    states, events := Extend(states, events, EvAboutToFinish(WILLING));
    assert states[|events|].queue == [NewItem(1, 2, [Direct("b")]).(state := AboutToActivate)];
  }

  function Prefetched2(urls: seq<Url>): State
    requires urls != []
  {
    Pushed2(urls, [Direct("b")]).(
      queue := [NewItem(1, 2, [Direct("b")]).(state := AboutToActivate)], uri := "b", request := NotRequested)
  }

  /** The stream ends before the one which was handed over begins. The automatic restart makes that one the
      current stream, and the player is said to be playing, but the pipeline has no URI. */
  lemma PrefetchedIsLostByRestart() returns (states: seq<State>, events: seq<Event>)
    ensures IsRun(states, events) && |events| >= 2
    ensures events[|events| - 2] == EvEndOfStream
    ensures events[|events| - 1] == EvStart(false, VoidPending, Ready, WILLING)
    ensures var t := states[|events|]; t.status == Playing && t.uri == "" && t.current.Some? && t.current.value.id == 2
  {
    hide IsRun;
    states, events := RunToPrefetched([Direct("a")]);
    var s := states[|events|];
    states, events := Extend(states, events, EvEndOfStream);
    states, events := Extend(states, events, EvStart(false, VoidPending, Ready, WILLING));
    RestartAfterEnd(s, VoidPending, Ready, WILLING);
    hide Start, EndOfStream;
  }

  /** A request to skip announces the item which was handed over as the next one, but nothing is played any
      more when the pipeline has stopped for it. */
  lemma PrefetchedIsLostByNext() returns (states: seq<State>, events: seq<Event>)
    ensures IsRun(states, events) && |events| >= 2
    ensures events[|events| - 2] == EvNext(true, true, WILLING)
    ensures events[|events| - 1] == EvStateChanged(Reached(GstPlaying, Ready))
    ensures Next(states[|events| - 2], true, true, WILLING).next == Some(2)
    ensures var t := states[|events|]; t.status == Stopped && t.uri == "" && t.queue == []
  {
    hide IsRun, Next, StateChanged;
    states, events := RunToPrefetched([Direct("a")]);
    SkippingLosesIt();
    states, events := Extend(states, events, EvNext(true, true, WILLING));
    var skipped := states;
    states, events := Extend(states, events, EvStateChanged(Reached(GstPlaying, Ready)));
    assert states[|events| - 2] == skipped[|events| - 2];
  }

  lemma SkippingLosesIt()
    ensures var s := Prefetched2([Direct("a")]); var r := Next(s, true, true, WILLING);
      var t := StateChanged(r.s, Reached(GstPlaying, Ready));
      && r.next == Some(2)
      && t.status == Stopped && t.uri == "" && t.queue == []
  {
    var s := Prefetched2([Direct("a")]);
    assert KnowsUri(s.queue[0]) && s.protectedOnce && s.queue[1..] == [];
    hide Next, StateChanged, KnowsUri;
    NextLosesPrefetched(s, true, WILLING, GstPlaying);
  }

  /** GStreamer has asked for the second item, whose link is being resolved. */
  function Awaited2(): State {
    Pushed2([Direct("a")], [LinkUrl("link")]).(
      queue := [NewItem(1, 2, [LinkUrl("link")]).(state := AboutToActivate, resolver := Pending)],
      request := Requested)
  }

  lemma AskedForLink()
    ensures var s := Pushed2([Direct("a")], [LinkUrl("link")]);
      Enabled(s, EvAboutToFinish(WILLING)) && AboutToFinish(s, WILLING) == Awaited2()
  {
    var s := Pushed2([Direct("a")], [LinkUrl("link")]);
    assert AboutToFinish(s, WILLING).queue == Awaited2().queue;
  }

  /** The stream ends while the link of the next one is being resolved. If the answer comes next, the source
      follows a null pointer. */
  lemma AnswerFollowsNullAfterEnd() returns (states: seq<State>, events: seq<Event>)
    ensures IsRun(states, events) && |events| >= 1 && events[|events| - 1] == EvEndOfStream
    ensures !Enabled(states[|events|], EvLinkNotified(2, "uri", 60, true, WILLING))
  {
    hide IsRun, AboutToFinish, Enabled, EndOfStream;
    states, events := RunToSecond([Direct("a")], [LinkUrl("link")]);
    AskedForLink();
    states, events := Extend(states, events, EvAboutToFinish(WILLING));
    assert Enabled(Awaited2(), EvEndOfStream) by { EndIsEnabled(Awaited2()); }
    states, events := Extend(states, events, EvEndOfStream);
    AnswerAfterEnd(Awaited2(), "uri", 60, WILLING);
  }

  lemma EndIsEnabled(s: State)
    ensures Enabled(s, EvEndOfStream)
  {
  }

  /** The stream ends right after the pipeline has paused for it. If the pipeline then says that it is playing, the
      source follows a null pointer. */
  lemma PlayingFollowsNullAfterEnd() returns (states: seq<State>, events: seq<Event>)
    ensures IsRun(states, events) && |events| >= 1 && events[|events| - 1] == EvEndOfStream
    ensures !Enabled(states[|events|], EvStateChanged(Reached(GstPaused, GstPlaying)))
  {
    hide IsRun, EndOfStream, StateChanged;
    states, events := RunToPlaying([Direct("a")]);
    var pausing := Change(false, true, Ready, GstPaused, GstPlaying, GstPlaying, false, false);
    PausedThenEnded(states[|events|], pausing);
    states, events := Extend(states, events, EvStateChanged(pausing));
    states, events := Extend(states, events, EvEndOfStream);
  }

  lemma PausedThenEnded(s: State, c: Change)
    requires HasJustStarted(c) && c.ofPipeline && !c.filled && c.target == GstPlaying
    ensures var t := EndOfStream(StateChanged(s, c)); t.current == None && t.justStarted
  {
    hide EmitStopped;
    assert StateChanged(s, c).justStarted;
    hide StateChanged;
    EndKeepsJustStarted(StateChanged(s, c));
  }

  lemma EndKeepsJustStarted(s: State)
    ensures EndOfStream(s).justStarted == s.justStarted && EndOfStream(s).current == None
  {
    hide PendingReport;
  }

  /** The direct URL of the current stream fails, and the alternative link is broken. The player is said to
      be playing, nothing is reported, and there is nothing left to wait for. */
  lemma ErrorIsNotNoticed() returns (states: seq<State>, events: seq<Event>)
    ensures IsRun(states, events) && |events| >= 1 && events[|events| - 1] == EvError("a", NetIo, BROKEN)
    ensures var s, t := states[|events| - 1], states[|events|];
      && t.status == Playing && t.uri == "" && t.hist == s.hist && t.queue == []
      && t.current.Some? && t.current.value.id == 1 && t.current.value.resolver == NotAsked
  {
    hide IsRun;
    states, events := RunToPlaying([Direct("a"), LinkUrl("link")]);
    HangsAfterError();
    hide *;
    states, events := Extend(states, events, EvError("a", NetIo, BROKEN));
  }

  lemma HangsAfterError()
    ensures var s := Playing1([Direct("a"), LinkUrl("link")]);
      && Enabled(s, EvError("a", NetIo, BROKEN))
      && var t := Step(s, EvError("a", NetIo, BROKEN));
      && t.status == Playing && t.uri == "" && t.hist == s.hist && t.queue == []
      && t.current.Some? && t.current.value.id == 1 && t.current.value.resolver == NotAsked
  {
    var s := Playing1([Direct("a"), LinkUrl("link")]);
    FirstIsBlamed(s);
    NothingIsUsable();
    NothingIsResolved();
    hide WhichFailed, OutcomeOfError, ErrorMessage, Shows;
    ErrorHasOutcome(s, "a", NetIo, BROKEN);
    HangingShows(s, ErrorMessage(s, "a", NetIo, BROKEN));
  }

  lemma FirstIsBlamed(s: State)
    requires s == Playing1([Direct("a"), LinkUrl("link")])
    ensures WhichFailed(s, "a") == CurrentStream(false)
    ensures s.current.Some? && s.current.value.id == 1 && s.queue == [] && s.status == Playing
    ensures Enabled(s, EvError("a", NetIo, BROKEN)) && Enabled(s, EvError("a", NetIo, REFUSING))
  {
  }

  lemma HangingShows(s: State, t: State)
    requires s.current.Some? && Shows(s, t, s.current.value, Hangs)
    ensures t.status == s.status && t.uri == "" && t.hist == s.hist && t.queue == s.queue
    ensures t.current.Some? && t.current.value.id == s.current.value.id
  {
  }

  lemma NothingIsResolved()
    ensures var t := ErrorMessage(Playing1([Direct("a"), LinkUrl("link")]), "a", NetIo, BROKEN);
      t.current.Some? && t.current.value.resolver == NotAsked
  {
    var s := Playing1([Direct("a"), LinkUrl("link")]);
    var next := s.current.value.(selected := 1, state := AboutToActivate);
    var tried := s.(current := Some(next), protectedOnce := true, uri := "");
    assert ErrorMessage(s, "a", NetIo, BROKEN) == ErrorOfCurrent(s, NetIo, BROKEN) by { FirstIsBlamed(s); }
    hide ErrorMessage;
    assert TryAlternative(s, false, BROKEN) == Resolve(tried, AtCurrent, false, BROKEN);
    assert Resolve(tried, AtCurrent, false, BROKEN).1;
    hide Resolve, TryAlternative;
    ResolveFindsFirst(tried, AtCurrent, false, BROKEN);
  }

  lemma NothingIsUsable()
    ensures OutcomeOfError(Playing1([Direct("a"), LinkUrl("link")]).current.value, NetIo, BROKEN) == Hangs
  {
    var it := Playing1([Direct("a"), LinkUrl("link")]).current.value;
    var next := it.(selected := 1);
    assert SelectNextUrl(it, 0) == (next, true);
    assert FirstStop(next.urls, 1, AnswersFor(AtCurrent, BROKEN)) == 2;
  }

  /** The direct URL of the current stream fails. The alternative link is resolved at once, but the pipeline does not
      accept to start. The player is said to be playing, nothing is reported, and nothing is waited for. */
  lemma RefusalIsNotNoticed() returns (states: seq<State>, events: seq<Event>)
    ensures IsRun(states, events) && |events| >= 1 && events[|events| - 1] == EvError("a", NetIo, REFUSING)
    ensures var s, t := states[|events| - 1], states[|events|];
      t.status == Playing && t.uri == "u" && t.hist == s.hist && t.queue == [] && t.asked == s.asked + [false]
  {
    hide IsRun;
    states, events := RunToPlaying([Direct("a"), LinkUrl("link")]);
    RefusedAfterError();
    hide *;
    states, events := Extend(states, events, EvError("a", NetIo, REFUSING));
  }

  lemma RefusedAfterError()
    ensures var s := Playing1([Direct("a"), LinkUrl("link")]);
      && Enabled(s, EvError("a", NetIo, REFUSING))
      && var t := Step(s, EvError("a", NetIo, REFUSING));
      t.status == Playing && t.uri == "u" && t.hist == s.hist && t.queue == [] && t.asked == s.asked + [false]
  {
    var s := Playing1([Direct("a"), LinkUrl("link")]);
    FirstIsBlamed(s);
    LinkIsUsable();
    hide WhichFailed, OutcomeOfError, ErrorMessage, Shows;
    ErrorHasOutcome(s, "a", NetIo, REFUSING);
    RefusalShows(s, ErrorMessage(s, "a", NetIo, REFUSING), "u");
  }

  lemma RefusalShows(s: State, t: State, uri: string)
    requires s.current.Some? && Shows(s, t, s.current.value, IsRefused(uri))
    ensures t.status == s.status && t.uri == uri && t.hist == s.hist && t.queue == s.queue
    ensures t.asked == s.asked + [false]
  {
  }

  lemma LinkIsUsable()
    ensures OutcomeOfError(Playing1([Direct("a"), LinkUrl("link")]).current.value, NetIo, REFUSING) == IsRefused("u")
  {
    var it := Playing1([Direct("a"), LinkUrl("link")]).current.value;
    var next := it.(selected := 1);
    assert SelectNextUrl(it, 0) == (next, true);
    assert FirstStop(next.urls, 1, AnswersFor(AtCurrent, REFUSING)) == 1;
  }

  /** Prefetching the second item fails. It is gone, but the controlling program is never told: the first one is
      set up with its second URL instead. */
  lemma PrefetchErrorIsNotReported() returns (states: seq<State>, events: seq<Event>)
    ensures IsRun(states, events) && |events| >= 1 && events[|events| - 1] == EvError("b", NetIo, WILLING)
    ensures var s, t := states[|events| - 1], states[|events|];
      && s.queue != [] && s.queue[0].id == 2 && t.queue == []
      && t.hist.reports == s.hist.reports && t.hist.blamed == s.hist.blamed && t.removed == [] && t.dropped == {}
      && t.current.Some? && t.current.value.id == 1 && t.uri == "a2"
  {
    hide IsRun;
    states, events := RunToPrefetched([Direct("a"), Direct("a2")]);
    NextIsJustGone();
    hide ErrorMessage;
    states, events := Extend(states, events, EvError("b", NetIo, WILLING));
  }

  lemma NextIsJustGone()
    ensures var s := Prefetched2([Direct("a"), Direct("a2")]);
      && ErrorHasItem(s, "b")
      && var t := ErrorMessage(s, "b", NetIo, WILLING);
      && t.queue == [] && t.removed == [] && t.dropped == {}
      && t.hist.reports == s.hist.reports && t.hist.blamed == s.hist.blamed
      && t.current.Some? && t.current.value.id == 1 && t.uri == "a2"
  {
    var s := Prefetched2([Direct("a"), Direct("a2")]);
    NextIsBlamed(s);
    FirstIsTriedAgain(s);
    hide WhichFailed, ErrorMessage, RetriesCurrent, SelectNextUrl, UriOf, ItemsValid;
    PrefetchError(s, "b", NetIo, WILLING);
  }

  lemma NextIsBlamed(s: State)
    requires s == Prefetched2([Direct("a"), Direct("a2")])
    ensures WhichFailed(s, "b") == GaplessNext(false) && ItemsValid(s)
  {
  }

  lemma FirstIsTriedAgain(s: State)
    requires s == Prefetched2([Direct("a"), Direct("a2")])
    ensures RetriesCurrent(s.current.value, NetIo, WILLING)
    ensures UriOf(SelectNextUrl(s.current.value, 0).0, WILLING) == "a2"
  {
    assert SelectNextUrl(s.current.value, 0) == (s.current.value.(selected := 1), true);
  }

  // ----- skipping and starting while a stream is being activated -----

  /** The user skips while the first stream is being activated. The answer is that there is no next stream, and when
      the pipeline has come to rest, the player has stopped, although the second one waits and was never tried. */
  lemma SkippingStopsWithQueue() returns (states: seq<State>, events: seq<Event>)
    ensures IsRun(states, events) && |events| >= 2
    ensures events[|events| - 2] == EvNext(false, true, WILLING)
    ensures events[|events| - 1] == EvStateChanged(Reached(GstPaused, Ready))
    ensures Next(states[|events| - 2], false, true, WILLING).next == None
    ensures var t := states[|events|];
      && t.status == Stopped && t.uri == "" && t.current.Some? && t.current.value.id == 1
      && t.queue != [] && t.queue[0].id == 2 && t.queue[0].state == InQueue && KnowsUri(t.queue[0])
  {
    hide IsRun, Next, StateChanged;
    states, events := RunToStarted([Direct("a")], WILLING);
    states, events := PushOne(states, events, 2, [Direct("b")]);
    var s := states[|events|];
    assert KnowsUri(s.current.value) && KnowsUri(s.queue[0]);
    hide KnowsUri;
    SkippingActivationStops(s, WILLING, GstPaused);
    states, events := Extend(states, events, EvNext(false, true, WILLING));
    var skipped := states;
    states, events := Extend(states, events, EvStateChanged(Reached(GstPaused, Ready)));
    assert states[|events| - 2] == skipped[|events| - 2];
  }

  /** The pipeline does not accept the first start, and the user tries again. The player is said to be playing, without
      a URI, and this is how it stays (see `Handover.NeverStartsAgain`). */
  lemma SecondStartDoesNothing() returns (states: seq<State>, events: seq<Event>)
    ensures IsRun(states, events) && |events| >= 2
    ensures events[|events| - 2] == EvStart(false, VoidPending, Ready, REFUSING)
    ensures events[|events| - 1] == EvStart(false, VoidPending, Ready, WILLING)
    ensures var t := states[|events|]; t.status == Playing && NeverStarts(t)
  {
    hide IsRun, Start;
    states, events := RunToStarted([Direct("a")], REFUSING);
    var s := Started1([Direct("a")], false);
    StartPlaysNext(s, VoidPending, Ready, WILLING);
    StartAsksForNothing(s, VoidPending, Ready, WILLING);
    states, events := Extend(states, events, EvStart(false, VoidPending, Ready, WILLING));
  }

  lemma StartAsksForNothing(s: State, pending: GstState, state: GstState, env: Env)
    requires s.activated && pending in {VoidPending, Null, Ready} && state in {Ready, Null}
    requires s.current.Some? && s.current.value.state == AboutToActivate && StaysCurrent(s.current)
    ensures NeverStarts(Start(s, false, pending, state, env))
  {
  }

  // ----- requests which are not met -----

  /** GStreamer asks for more while the first stream is being activated. The second item is there, but it is not
      handed over, neither then nor when the first one plays. */
  lemma RequestIsStranded() returns (states: seq<State>, events: seq<Event>)
    ensures IsRun(states, events) && |events| >= 2
    ensures events[|events| - 2] == EvAboutToFinish(WILLING)
    ensures events[|events| - 1] == EvStreamStart(false, WILLING)
    ensures var t := states[|events|];
      && Stranded(t) && t.current.value.state == ActiveNowPlaying && t.uri == "a"
      && t.queue[0].id == 2 && KnowsUri(t.queue[0])
  {
    hide IsRun, AboutToFinish, StreamStart;
    states, events := RunToStarted([Direct("a")], WILLING);
    states, events := PushOne(states, events, 2, [Direct("b")]);
    var s := states[|events|];
    assert KnowsUri(s.queue[0]);
    hide KnowsUri;
    EveryRequestIsMet(s, WILLING);
    states, events := Extend(states, events, EvAboutToFinish(WILLING));
    states, events := StartWhileStranded(states, events);
  }

  lemma StartWhileStranded(states: seq<State>, events: seq<Event>) returns (sts: seq<State>, evs: seq<Event>)
    requires IsRun(states, events) && |states| > |events|
    requires var s := states[|events|]; Stranded(s) && s.current.value.state == AboutToActivate
    ensures IsRun(sts, evs) && |evs| == |events| + 1 && evs[..|events|] == events
    ensures evs[|events|] == EvStreamStart(false, WILLING)
    ensures |sts| > |evs| && SameStranded(states[|events|], sts[|evs|])
    ensures sts[|evs|].current.value.state == ActiveNowPlaying
  {
    hide IsRun, StreamStart;
    StrandedStart(states[|events|], WILLING);
    StartedPlays(states[|events|], WILLING);
    sts, evs := Extend(states, events, EvStreamStart(false, WILLING));
  }

  lemma StartedPlays(s: State, env: Env)
    requires Stranded(s) && s.current.value.state == AboutToActivate
    ensures var t := StreamStart(s, env); t.current.Some? && t.current.value.state == ActiveNowPlaying
  {
    hide QueueFromFifo, PendingReport;
  }

  /** The resolver does not take the request for the second item. It blocks the queue, and when the first stream ends
      the player is still said to be playing, and nothing is reported. */
  lemma FailedCallBlocks() returns (states: seq<State>, events: seq<Event>)
    ensures IsRun(states, events) && |events| >= 2
    ensures events[|events| - 2] == EvAboutToFinish(UNREACHABLE)
    ensures events[|events| - 1] == EvEndOfStream
    ensures var s, t := states[|events| - 1], states[|events|];
      && Blocked(s) && Blocked(t) && t.status == Playing && t.uri == "" && t.current == None && t.hist == s.hist
  {
    hide IsRun, AboutToFinish, EndOfStream, Enabled, Blocked, HasUrl;
    states, events := RunToSecond([Direct("a")], [LinkUrl("link")]);
    CallIsOver();
    states, events := Extend(states, events, EvAboutToFinish(UNREACHABLE));
    states, events := EndWhileBlocked(states, events);
  }

  lemma EndWhileBlocked(states: seq<State>, events: seq<Event>) returns (sts: seq<State>, evs: seq<Event>)
    requires IsRun(states, events) && |states| > |events|
    requires var s := states[|events|]; s.queue != [] && Blocked(s) && s.queue[0].resolver == Over && HasUrl(s.queue[0])
    ensures IsRun(sts, evs) && |evs| == |events| + 1 && evs[..|events|] == events && evs[|events|] == EvEndOfStream
    ensures |sts| > |evs| && sts[|events|] == states[|events|]
    ensures var s, t := states[|events|], sts[|evs|];
      Blocked(t) && t.status == s.status && t.uri == "" && t.current == None && t.hist == s.hist
  {
    hide IsRun, EndOfStream;
    BlockedAtEnd(states[|events|]);
    sts, evs := Extend(states, events, EvEndOfStream);
  }

  lemma CallIsOver()
    ensures var s := Pushed2([Direct("a")], [LinkUrl("link")]);
      && Enabled(s, EvAboutToFinish(UNREACHABLE))
      && var t := AboutToFinish(s, UNREACHABLE);
      && t.queue != [] && Blocked(t) && t.status == Playing && t.queue[0].resolver == Over && HasUrl(t.queue[0])
  {
    var s := Pushed2([Direct("a")], [LinkUrl("link")]);
    assert AboutToFinish(s, UNREACHABLE).queue ==
      [NewItem(1, 2, [LinkUrl("link")]).(state := AboutToActivate, resolver := Over)];
  }

  /** The second item has the ID of the first one. Its link is resolved at once, but the answer is taken for the first
      one, whose URI is handed over once more. */
  lemma AnswerIsMisdirected() returns (states: seq<State>, events: seq<Event>)
    ensures IsRun(states, events) && |events| >= 1 && events[|events| - 1] == EvAboutToFinish(RESOLVING)
    ensures var t := states[|events|];
      && t.uri == "a" && t.request == NotRequested
      && t.queue != [] && t.queue[0].state == AboutToActivate && t.queue[0].resolver == Over
  {
    hide IsRun, AboutToFinish;
    states, events := RunToPlaying([Direct("a")]);
    states, events := PushOne(states, events, 1, [LinkUrl("link")]);
    var s := states[|events|];
    RequestIsServedFromQueue(s, RESOLVING);
    EqualIdsMisdirectAnswer(s.(request := Requested), RESOLVING);
    assert Enabled(s, EvAboutToFinish(RESOLVING)) by { CurrentIsThere(s, RESOLVING); }
    states, events := Extend(states, events, EvAboutToFinish(RESOLVING));
  }

  lemma RequestIsServedFromQueue(s: State, env: Env)
    ensures AboutToFinish(s, env) == QueueFromFifo(s.(request := Requested), env)
  {
  }

  lemma CurrentIsThere(s: State, env: Env)
    requires s.current.Some?
    ensures Enabled(s, EvAboutToFinish(env))
  {
  }

  // ----- a stop which is not reported -----

  /** An item without URLs is skipped to while another one plays. When the player is stopped after that, the third item
      is removed from the queue, but this is not reported, not even when the pipeline has come to rest. */
  lemma StopIsNotReported() returns (states: seq<State>, events: seq<Event>)
    ensures IsRun(states, events) && |events| >= 2
    ensures events[|events| - 2] == EvStop(VoidPending, GstPlaying, GstPlaying, WILLING)
    ensures events[|events| - 1] == EvStateChanged(Reached(GstPlaying, Ready))
    ensures var s, t := states[|events| - 2], states[|events|];
      && s.queue != [] && s.queue[0].id == 3 && s.removed == []
      && t.queue == [] && t.status == Stopped && t.removed == [Tag(2, 3)] && t.hist.reports == s.hist.reports
  {
    hide IsRun, Next, Stop, StateChanged;
    states, events := RunToSecond([Direct("a")], []);
    states, events := PushOne(states, events, 3, [Direct("c")]);
    SkippedToNothing();
    states, events := Extend(states, events, EvNext(false, true, WILLING));
    var s := states[|events|];
    UrlMissing(s);
    states, events := Extend(states, events, EvStop(VoidPending, GstPlaying, GstPlaying, WILLING));
    var stopped := states;
    states, events := Extend(states, events, EvStateChanged(Reached(GstPlaying, Ready)));
    assert states[|events| - 2] == stopped[|events| - 2] == s;
  }

  /** Playing the first item, with the second one as the current stream, which has no URLs. */
  function SkippedTo2(): State {
    var s := PushedTo(Pushed2([Direct("a")], []), 3, [Direct("c")]);
    s.(current := Some(NewItem(1, 2, []).(failed := true)), queue := [NewItem(2, 3, [Direct("c")])], status := Stopped,
       hist := s.hist.(played := [0, 1]))
  }

  lemma SkippedToNothing()
    ensures var s := PushedTo(Pushed2([Direct("a")], []), 3, [Direct("c")]);
      Next(s, false, true, WILLING).s == SkippedTo2()
  {
    var s := PushedTo(Pushed2([Direct("a")], []), 3, [Direct("c")]);
    assert s.queue[1..] == [NewItem(2, 3, [Direct("c")])];
    assert PickNext(s) == Some(AtHead);
  }

  lemma UrlMissing(s: State)
    requires s == SkippedTo2()
    ensures var t := Stop(s, VoidPending, GstPlaying, GstPlaying, WILLING);
      var u := StateChanged(t, Reached(GstPlaying, Ready));
      u.queue == [] && u.status == Stopped && u.removed == [Tag(2, 3)] && u.hist.reports == s.hist.reports
  {
    hide Stop, StateChanged;
    StopReportsExactly(s, VoidPending, GstPlaying, GstPlaying, WILLING, GstPlaying);
    assert Tags(s.queue) == [Tag(2, 3)];
  }
}

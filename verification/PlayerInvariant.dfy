/** What holds in every reachable state of the player, whatever GStreamer, the resolver and the
    controlling program do. */
module PlayerInvariant {
  import opened Base
  import opened PlayItem
  import opened Player

  // ----- runs -----

  datatype Event =
    | EvPush(id: nat, urls: seq<Url>, keep: nat, env: Env)
    | EvClear(keepN: int)
    | EvNext(skipOnly: bool, readyOk: bool, env: Env)
    | EvStart(buffering: bool, pending: GstState, state: GstState, env: Env)
    | EvPause(buffering: bool, state: GstState, env: Env)
    | EvStop(pending: GstState, state: GstState, after: GstState, env: Env)
    | EvActivate
    | EvDeactivate(pending: GstState, state: GstState, env: Env)
    | EvAboutToFinish(env: Env)
    | EvStreamStart(buffering: bool, env: Env)
    | EvStateChanged(change: Change)
    | EvEndOfStream
    | EvError(uri: string, mapped: Reason, env: Env)
    | EvLinkNotified(id: nat, uri: string, valid: nat, prefetch: bool, env: Env)
    | EvSought      // a position was sought

  /** The steps for which the source does not follow a null pointer. That it does for all others is stated by
      `Fallback.HandsOverExactly` for those with which a URI may be handed over; it is plain for the rest. */
  predicate Enabled(s: State, e: Event) {
    match e
    case EvStreamStart(buffering, _) => s.current.Some? || (buffering && s.queue != [])
    case EvStateChanged(c) => ChangeReadsCurrent(s, c) ==> s.current.Some?
    case EvError(uri, _, _) => ErrorHasItem(s, uri)
    case EvAboutToFinish(env) => HeadMayBeHandedOver(s, env)
    case EvSought => s.current.Some?
    case EvLinkNotified(id, uri, _, prefetch, env) =>
      Locate(s, id).Some? ==> !AnswerFollowsNull(s, Locate(s, id).value, uri, prefetch, env)
    case _ => true
  }

  function Step(s: State, e: Event): State
    requires Enabled(s, e)
  {
    match e
    case EvPush(id, urls, keep, env) => Push(s, id, urls, keep, env)
    case EvClear(keep) => ClearQueue(s, keep)
    case EvNext(skipOnly, readyOk, env) => Next(s, skipOnly, readyOk, env).s
    case EvStart(buffering, pending, state, env) => Start(s, buffering, pending, state, env)
    case EvPause(buffering, state, env) => Pause(s, buffering, state, env)
    case EvStop(pending, state, after, env) => Stop(s, pending, state, after, env)
    case EvActivate => Activate(s)
    case EvDeactivate(pending, state, env) => Deactivate(s, pending, state, env)
    case EvAboutToFinish(env) => AboutToFinish(s, env)
    case EvStreamStart(_, env) => StreamStart(s, env)
    case EvStateChanged(c) => StateChanged(s, c)
    case EvEndOfStream => EndOfStream(s)
    case EvError(uri, mapped, env) => ErrorMessage(s, uri, mapped, env)
    case EvLinkNotified(id, uri, valid, prefetch, env) => LinkNotified(s, id, uri, valid, prefetch, env)
    case EvSought => s
  }

  function Initial(cap: nat): State {
    State(cap, false, Stopped, [], [], {}, None, false, NotRequested, false, "", [],
          History(0, [], [], [], [], []))
  }

  /** `states` is a run: each state follows from the one before by an enabled step. */
  ghost predicate IsRun(states: seq<State>, events: seq<Event>) {
    && |states| == |events| + 1
    && states[0] == Initial(states[0].cap)
    && forall i {:trigger events[i]} :: 0 <= i < |events| ==>
         Enabled(states[i], events[i]) && states[i + 1] == Step(states[i], events[i])
  }

  // ----- the invariant -----

  /** Only the head of the queue may be about to be activated. */
  ghost predicate Shape(q: seq<ItemData>) {
    && (q != [] ==> q[0].state in {InQueue, AboutToActivate})
    && forall i :: 1 <= i < |q| ==> q[i].state == InQueue
  }

  ghost predicate Increasing(s: seq<nat>) {
    forall i, j :: 0 <= i < j < |s| ==> s[i] < s[j]
  }

  function Nums(items: seq<ItemData>): seq<nat> {
    seq(|items|, i requires 0 <= i < |items| => items[i].num)
  }

  function TagNums(tags: seq<Tag>): seq<nat> {
    seq(|tags|, i requires 0 <= i < |tags| => tags[i].num)
  }

  /** Items were played in the order of their pushes, the queued ones are next, in their order,
      and the current stream is the last one played. */
  ghost predicate InOrder(s: State) {
    && Increasing(s.hist.played)
    && (forall i, j :: 0 <= i < j < |s.queue| ==> s.queue[i].num < s.queue[j].num)
    && (forall i, j :: 0 <= i < |s.hist.played| && 0 <= j < |s.queue| ==> s.hist.played[i] < s.queue[j].num)
    && (forall i :: 0 <= i < |s.hist.played| ==> s.hist.played[i] < s.hist.accepted)
    && (forall i :: 0 <= i < |s.queue| ==> s.queue[i].num < s.hist.accepted)
    && (s.current.Some? ==>
          s.hist.played != [] && s.hist.played[|s.hist.played| - 1] == s.current.value.num)
  }

  function Reported(reports: seq<Report>): seq<nat> {
    if reports == [] then []
    else Reported(reports[..|reports| - 1]) + TagNums(reports[|reports| - 1].removed)
  }

  function Upto(n: nat): seq<nat> {
    seq(n, i => i)
  }

  /** Every accepted item is in exactly one place. */
  ghost predicate Accounted(s: State) {
    multiset(Nums(s.queue)) + multiset(TagNums(s.removed)) + multiset(Reported(s.hist.reports))
      + multiset(s.hist.played) + multiset(s.hist.failedNext) == multiset(Upto(s.hist.accepted))
  }

  predicate Lists(r: Report, id: nat) {
    id in Ids(r.removed) || id in r.extra
  }

  /** The ID has been reported after it was marked. */
  ghost predicate ReportedSince(reports: seq<Report>, m: Mark) {
    exists i :: m.reportsBefore <= i < |reports| && Lists(reports[i], m.id)
  }

  /** Whenever an ID was marked as dropped, it is either waiting to be reported, or has been reported since. */
  ghost predicate MarksAccounted(s: State) {
    forall k :: 0 <= k < |s.hist.marks| ==>
      && s.hist.marks[k].reportsBefore <= |s.hist.reports|
      && (s.hist.marks[k].id in s.dropped || ReportedSince(s.hist.reports, s.hist.marks[k]))
  }

  predicate IsUnplayed(it: ItemData) {
    !it.failed && !HasPrefailed(it)
  }

  /** Failures are only ever noted for the current stream. */
  ghost predicate ItemsValid(s: State) {
    && (forall i :: 0 <= i < |s.queue| ==> ValidItem(s.queue[i]) && IsUnplayed(s.queue[i]))
    && (s.current.Some? ==> ValidItem(s.current.value))
  }

  /** History is only added to. */
  ghost predicate Grows(h: History, k: History) {
    && h.accepted <= k.accepted && h.played <= k.played && h.failedNext <= k.failedNext
    && h.blamed <= k.blamed && h.reports <= k.reports && h.marks <= k.marks
  }

  /** The invariant of all states, together with the fact that history has grown since `h`. */
  ghost predicate Inv(h: History, s: State) {
    && |s.queue| <= s.cap && Shape(s.queue) && InOrder(s) && Accounted(s) && MarksAccounted(s) && ItemsValid(s)
    && Grows(h, s.hist)
  }

  // ----- steps that touch the contents of the current stream and of the head only -----

  ghost predicate SameItem(a: ItemData, b: ItemData) {
    TagOf(a) == TagOf(b) && (ValidItem(a) ==> ValidItem(b))
  }

  ghost predicate Touches(s: State, t: State) {
    && t.cap == s.cap && t.hist == s.hist && t.removed == s.removed && t.dropped == s.dropped
    && |t.queue| == |s.queue|
    && (forall i :: 1 <= i < |s.queue| ==> t.queue[i] == s.queue[i])
    && (s.queue != [] ==>
          && SameItem(s.queue[0], t.queue[0])
          && t.queue[0].failed == s.queue[0].failed && t.queue[0].prefail == s.queue[0].prefail
          && (|| t.queue[0].state == s.queue[0].state
              || (s.queue[0].state == InQueue && t.queue[0].state == AboutToActivate)))
    && t.current.Some? == s.current.Some?
    && (s.current.Some? ==> SameItem(s.current.value, t.current.value))
  }

  lemma TouchesKeepsInv(h: History, s: State, t: State)
    requires Inv(h, s) && Touches(s, t)
    ensures Inv(h, t)
  {
    hide Accounted, InOrder;
    TouchesAccounted(s, t);
    TouchesInOrder(s, t);
  }

  lemma TouchesAccounted(s: State, t: State)
    requires Accounted(s) && Touches(s, t)
    ensures Accounted(t)
  {
    assert Nums(t.queue) == Nums(s.queue);
  }

  lemma TouchesInOrder(s: State, t: State)
    requires InOrder(s) && Touches(s, t)
    ensures InOrder(t)
  {
  }

  /** Whether a URI is found depends on the URLs still to be looked at only. */
  lemma {:induction false} FindsUriIsLocal(a: seq<Url>, b: seq<Url>, from: nat, answer: nat -> Answer)
    requires |a| == |b| && forall i :: from <= i < |a| ==> a[i] == b[i]
    ensures FindsUri(a, from, answer) == FindsUri(b, from, answer)
    decreases |a| - from
  {
    if from < |a| {
      FindsUriIsLocal(a, b, from + 1, answer);
    }
  }

  /** Resolving a link changes no item state, and nothing but items and what is handed to the pipeline. */
  ghost predicate SameStates(s: State, t: State) {
    && t == s.(queue := t.queue, current := t.current, uri := t.uri, request := t.request, asked := t.asked)
    && |t.queue| == |s.queue| && t.current.Some? == s.current.Some?
    && (s.current.Some? ==> t.current.value.state == s.current.value.state)
    && (s.queue != [] ==> t.queue[0].state == s.queue[0].state)
  }

  lemma TouchesTrans(a: State, b: State, c: State)
    requires Touches(a, b) && Touches(b, c) && SameStates(a, b) && SameStates(b, c)
    ensures Touches(a, c) && SameStates(a, c)
  {
  }

  lemma TouchesItself(s: State)
    ensures Touches(s, s) && SameStates(s, s)
  {
  }

  lemma TouchesButUri(s: State)
    ensures Touches(s, s.(uri := ""))
  {
  }

  lemma PutTouches(s: State, loc: Loc, it: ItemData)
    requires Has(s, loc) && SameItem(Get(s, loc), it)
    requires it.state == Get(s, loc).state
    requires it.failed == Get(s, loc).failed && it.prefail == Get(s, loc).prefail
    ensures Touches(s, Put(s, loc, it)) && SameStates(s, Put(s, loc, it))
  {
  }

  lemma OnLinkResolvedTouches(s: State, loc: Loc, prefetch: bool, env: Env)
    requires Has(s, loc)
    ensures Touches(s, OnLinkResolved(s, loc, prefetch, env).0)
    ensures SameStates(s, OnLinkResolved(s, loc, prefetch, env).0)
  {
  }

  lemma {:induction false} ResolveTouches(s: State, loc: Loc, prefetch: bool, env: Env)
    requires Has(s, loc)
    ensures Touches(s, Resolve(s, loc, prefetch, env).0)
    ensures SameStates(s, Resolve(s, loc, prefetch, env).0)
    decreases Rank(loc), Remaining(Get(s, loc)), 1
  {
    hide Touches, SameStates, LinkAnswered, OnLinkResolved;
    var it := Get(s, loc);
    if SelectedUrlState(it) == KnownAirableLink {
      var answer := env.answer(loc, it.selected);
      var called := it.(resolver := Called(answer));
      var t := Put(s, loc, called);
      PutTouches(s, loc, called);
      if answer.Fast? {
        var found := if t.current.Some? && t.current.value.id == it.id then AtCurrent else loc;
        var u := LinkAnswered(t, found, answer.uri, answer.valid, prefetch, env);
        assert Resolve(s, loc, prefetch, env).0 == u;
        hide Resolve;
        LinkAnsweredTouches(t, found, answer.uri, answer.valid, prefetch, env);
        TouchesTrans(s, t, u);
      }
    } else {
      OnLinkResolvedTouches(s, loc, prefetch, env);
      TouchesItself(s);
    }
  }

  lemma {:induction false} LinkAnsweredTouches(s: State, loc: Loc, uri: string, valid: nat, prefetch: bool, env: Env)
    requires Has(s, loc)
    ensures Touches(s, LinkAnswered(s, loc, uri, valid, prefetch, env))
    ensures SameStates(s, LinkAnswered(s, loc, uri, valid, prefetch, env))
    decreases Rank(loc), Remaining(Get(s, loc)), 0
  {
    hide Touches, SameStates, Resolve, OnLinkResolved;
    var it := ResolverFinish(Get(s, loc), uri, valid, env.now);
    var t := Put(s, loc, it);
    PutTouches(s, loc, it);
    hide ResolverFinish, SelectNextUrl;
    if uri != "" {
      OnLinkResolvedTouches(t, loc, prefetch, env);
      TouchesTrans(s, t, OnLinkResolved(t, loc, prefetch, env).0);
    } else if HasMoreUrls(it) {
      var (next, ok) := SelectNextUrl(it, env.now);
      if ok {
        var u := Put(t, loc, next);
        SelectionIsSame(it, env.now);
        PutTouches(t, loc, next);
        ResolveTouches(u, loc, prefetch, env);
        TouchesTrans(t, u, Resolve(u, loc, prefetch, env).0);
        TouchesTrans(s, t, Resolve(u, loc, prefetch, env).0);
      }
    }
  }

  lemma ActivatingTouches(s: State, replaced: bool, loc: Loc, skipping: bool)
    requires Has(s, loc) && (replaced ==> Has(s, AtCurrent)) && Get(s, loc).state == InQueue
    ensures Touches(s, Activating(s, replaced, loc, skipping))
  {
  }

  lemma TouchesThenSame(a: State, b: State, c: State)
    requires Touches(a, b) && Touches(b, c) && SameStates(b, c)
    ensures Touches(a, c)
  {
  }

  lemma PlayNextTouches(s: State, replaced: bool, loc: Loc, skipping: bool, prefetch: bool, env: Env)
    requires Has(s, loc) && (replaced ==> Has(s, AtCurrent))
    ensures Touches(s, PlayNext(s, replaced, loc, skipping, prefetch, env).0)
  {
    var it := Get(s, loc);
    if it.state == InQueue {
      var u := Activating(s, replaced, loc, skipping);
      ActivatingTouches(s, replaced, loc, skipping);
      ResolveTouches(u, loc, prefetch, env);
      hide Resolve, Touches, SameStates, Activating;
      TouchesThenSame(s, u, Resolve(u, loc, prefetch, env).0);
    } else {
      var t := PlayNext(s, replaced, loc, skipping, prefetch, env).0;
      assert t == s || t == s.(request := Deferred);
      hide PlayNext;
    }
  }

  lemma QueueFromFifoTouches(s: State, env: Env)
    ensures Touches(s, QueueFromFifo(s, env))
  {
    var next := PickNext(s);
    if next.Some? {
      PlayNextTouches(s, next.value.AtCurrent?, next.value, false, true, env);
    }
  }

  lemma SelectionIsSame(it: ItemData, now: int)
    ensures var next := SelectNextUrl(it, now).0;
      SameItem(it, next) && next.state == it.state && next.failed == it.failed && next.prefail == it.prefail
  {
  }

  lemma TryAlternativeTouches(s: State, prefetch: bool, env: Env)
    ensures Touches(s, TryAlternative(s, prefetch, env).0)
  {
    if s.current.Some? {
      var (it, again) := SelectNextUrl(s.current.value, env.now);
      if again {
        var t := s.(current := Some(it.(state := AboutToActivate)), protectedOnce := true, uri := "");
        ResolveTouches(t, AtCurrent, prefetch, env);
        hide Resolve, SelectNextUrl;
        assert Touches(s, t) by { SelectionIsSame(s.current.value, env.now); }
      } else {
        hide SelectNextUrl;
        SelectionIsSame(s.current.value, env.now);
      }
    }
  }

  // ----- steps that move items -----

  lemma TakeHeadAccounted(s: State)
    requires Accounted(s) && s.queue != []
    ensures Accounted(TakeHead(s)) && Accounted(FailHead(s))
  {
    assert Nums(s.queue) == [s.queue[0].num] + Nums(s.queue[1..]);
  }

  lemma SameMarks(s: State, t: State)
    requires MarksAccounted(s) && t.dropped == s.dropped && t.hist.marks == s.hist.marks
    requires t.hist.reports == s.hist.reports
    ensures MarksAccounted(t)
  {
  }

  lemma TakeHeadInOrder(s: State)
    requires InOrder(s) && s.queue != []
    ensures InOrder(TakeHead(s))
  {
    var played := TakeHead(s).hist.played;
    assert forall i :: 0 <= i < |s.hist.played| ==> played[i] == s.hist.played[i];
  }

  lemma FailHeadInOrder(s: State)
    requires InOrder(s) && s.queue != []
    ensures InOrder(FailHead(s))
  {
  }

  lemma TailIsWellFormed(s: State)
    requires Shape(s.queue) && ItemsValid(s) && s.queue != []
    ensures Shape(s.queue[1..]) && ItemsValid(TakeHead(s)) && ItemsValid(FailHead(s))
  {
  }

  lemma TakeHeadKeepsInv(h: History, s: State)
    requires Inv(h, s)
    ensures Inv(h, TakeHead(s))
  {
    hide Accounted, MarksAccounted, InOrder, Shape, ItemsValid;
    if s.queue != [] {
      TakeHeadAccounted(s);
      TakeHeadInOrder(s);
      TailIsWellFormed(s);
      SameMarks(s, TakeHead(s));
    }
  }

  lemma FailHeadKeepsInv(h: History, s: State)
    requires Inv(h, s) && s.queue != []
    ensures Inv(h, FailHead(s))
  {
    hide Accounted, MarksAccounted, InOrder, Shape, ItemsValid;
    TakeHeadAccounted(s);
    FailHeadInOrder(s);
    TailIsWellFormed(s);
    SameMarks(s, FailHead(s));
  }

  lemma PopDropAccounted(s: State)
    requires Accounted(s) && s.queue != []
    ensures Accounted(PopDrop(s))
  {
    var t := PopDrop(s);
    assert Nums(s.queue) == [s.queue[0].num] + Nums(t.queue);
    assert TagNums(t.removed) == TagNums(s.removed) + [s.queue[0].num];
  }

  lemma PopDropKeepsInv(h: History, s: State)
    requires Inv(h, s)
    ensures Inv(h, PopDrop(s))
  {
    hide Accounted, MarksAccounted;
    if s.queue != [] {
      PopDropAccounted(s);
      SameMarks(s, PopDrop(s));
    }
  }

  lemma ClearTailAccounted(s: State, keep: nat)
    requires Accounted(s) && keep < |s.queue|
    ensures Accounted(ClearTail(s, keep))
  {
    var t := ClearTail(s, keep);
    var gone := Nums(s.queue[keep..]);
    assert Nums(s.queue) == Nums(t.queue) + gone;
    assert TagNums(t.removed) == TagNums(s.removed) + gone;
    calc {
      multiset(Nums(s.queue)) + multiset(TagNums(s.removed));
      multiset(Nums(t.queue)) + multiset(gone) + multiset(TagNums(s.removed));
      multiset(Nums(t.queue)) + multiset(TagNums(t.removed));
    }
  }

  lemma ClearTailKeepsInv(h: History, s: State, keep: nat)
    requires Inv(h, s)
    ensures Inv(h, ClearTail(s, keep))
  {
    hide Accounted, MarksAccounted, Tags;
    if keep < |s.queue| {
      ClearTailAccounted(s, keep);
      SameMarks(s, ClearTail(s, keep));
    }
  }

  lemma AppendAccounted(s: State, id: nat, urls: seq<Url>)
    requires Accounted(s)
    ensures Accounted(Append(s, id, urls))
  {
    var t := Append(s, id, urls);
    assert Nums(t.queue) == Nums(s.queue) + [s.hist.accepted];
    assert Upto(t.hist.accepted) == Upto(s.hist.accepted) + [s.hist.accepted];
  }

  lemma AppendKeepsInv(h: History, s: State, id: nat, urls: seq<Url>)
    requires Inv(h, s) && |s.queue| < s.cap
    ensures Inv(h, Append(s, id, urls))
  {
    hide Accounted, MarksAccounted;
    AppendAccounted(s, id, urls);
    SameMarks(s, Append(s, id, urls));
  }

  lemma SendReportAccounted(s: State)
    requires Accounted(s)
    ensures Accounted(SendReport(s))
  {
    var t := SendReport(s);
    assert t.hist.reports[..|t.hist.reports| - 1] == s.hist.reports;
    assert TagNums(t.removed) == [];
    assert Nums(t.queue) == Nums(s.queue);
  }

  lemma SendReportMarks(s: State)
    requires MarksAccounted(s)
    ensures MarksAccounted(SendReport(s))
  {
    var t := SendReport(s);
    forall k | 0 <= k < |t.hist.marks|
      ensures ReportedSince(t.hist.reports, t.hist.marks[k])
    {
      var m := s.hist.marks[k];
      if m.id in s.dropped {
        assert Lists(t.hist.reports[|s.hist.reports|], m.id);
      } else {
        var i :| m.reportsBefore <= i < |s.hist.reports| && Lists(s.hist.reports[i], m.id);
        assert Lists(t.hist.reports[i], m.id);
      }
    }
  }

  lemma SendReportKeepsInv(h: History, s: State)
    requires Inv(h, s)
    ensures Inv(h, SendReport(s))
  {
    hide Accounted, MarksAccounted;
    SendReportAccounted(s);
    SendReportMarks(s);
  }

  /** Nothing is lost when an empty report is not sent. */
  lemma EmitStoppedKeepsInv(h: History, s: State)
    requires Inv(h, s)
    ensures Inv(h, EmitStopped(s))
  {
    hide Inv;
    var t := s.(status := Stopped, uri := "");
    TouchesKeepsInv(h, s, t);
    if t.current == None && IsEmptyReport(PendingReport(t)) {
      assert Drain(t) == t;
    } else {
      SendReportKeepsInv(h, t);
    }
  }

  lemma BlameKeepsInv(h: History, s: State, failed: Option<nat>)
    requires Inv(h, s)
    ensures Inv(h, Blame(s, failed))
  {
    hide Shape;
    if failed.Some? {
      SameMarks(s, Blame(s, failed));
    }
  }

  lemma EmitStoppedWithErrorKeepsInv(h: History, s: State, failed: Option<nat>)
    requires Inv(h, s)
    ensures Inv(h, EmitStoppedWithError(s, failed))
  {
    hide Inv;
    var t := s.(status := Stopped, uri := "");
    TouchesKeepsInv(h, s, t);
    SendReportKeepsInv(h, t);
    BlameKeepsInv(h, SendReport(t), failed);
  }

  lemma NoCurrentKeepsInv(h: History, s: State)
    requires Inv(h, s)
    ensures Inv(h, s.(current := None))
  {
  }

  lemma ErrorRecoveryKeepsInv(h: History, s: State)
    requires Inv(h, s)
    ensures Inv(h, ErrorRecovery(s))
  {
    hide Inv;
    var r := s.(request := NotRequested);
    TouchesKeepsInv(h, s, r);
    EmitStoppedWithErrorKeepsInv(h, r, NumOf(s.current));
    var t := EmitStoppedWithError(r, NumOf(s.current));
    NoCurrentKeepsInv(h, t);
    TouchesKeepsInv(h, t.(current := None), ErrorRecovery(s));
  }

  lemma MarkDroppedKeepsInv(h: History, s: State, id: nat)
    requires Inv(h, s)
    ensures Inv(h, MarkDropped(s, id))
  {
  }

  lemma TryTakeNextKeepsInv(h: History, s: State)
    requires Inv(h, s)
    ensures Inv(h, TryTakeNext(s).s)
  {
    hide Inv;
    var next := PickNext(s);
    if next.Some? && Get(s, next.value).urls != [] {
      TakeHeadKeepsInv(h, s);
    } else if s.current.Some? {
      TakeHeadKeepsInv(h, s);
      var t := TakeHead(s);
      TouchesKeepsInv(h, t, t.(current := Some(t.current.value.(failed := true))));
    } else if s.queue != [] {
      PopDropKeepsInv(h, s);
    } else {
      ErrorRecoveryKeepsInv(h, s);
    }
  }

  lemma TryPlayNextKeepsInv(h: History, s: State, env: Env)
    requires Inv(h, s)
    ensures Inv(h, TryPlayNext(s, env))
  {
    hide Inv;
    TryTakeNextKeepsInv(h, s);
    var t := TryTakeNext(s);
    if t.found {
      PlayNextTouches(t.s, false, AtCurrent, false, false, env);
      TouchesKeepsInv(h, t.s, PlayNext(t.s, false, AtCurrent, false, false, env).0);
    }
  }

  // ----- the events -----

  lemma AfterPushKeepsInv(h: History, s: State, id: nat, urls: seq<Url>, keep: nat, env: Env)
    requires Inv(h, s) && !PushRefused(s, keep)
    ensures Inv(h, AfterPush(s, id, urls, keep, env))
  {
    assert |s.queue| <= s.cap;
    hide Inv;
    ClearTailKeepsInv(h, s, keep);
    AppendKeepsInv(h, ClearTail(s, keep), id, urls);
    var u := Append(ClearTail(s, keep), id, urls);
    QueueFromFifoTouches(u, env);
    TouchesKeepsInv(h, u, QueueFromFifo(u, env));
  }

  lemma PushKeepsInv(h: History, s: State, id: nat, urls: seq<Url>, keep: nat, env: Env)
    requires Inv(h, s)
    ensures Inv(h, Push(s, id, urls, keep, env))
  {
    hide Inv;
    SendReportKeepsInv(h, s);
    if s.activated && !PushRefused(s, keep) {
      AfterPushKeepsInv(h, SendReport(s), id, urls, keep, env);
      SendReportKeepsInv(h, AfterPush(SendReport(s), id, urls, keep, env));
    }
  }

  lemma GiveUpCurrentKeepsInv(h: History, s: State, skipOnly: bool)
    requires Inv(h, s)
    ensures Inv(h, GiveUpCurrent(s, skipOnly))
  {
    hide Inv;
    if skipOnly && s.current.Some? {
      if s.current.value.state in {AboutToActivate, ActiveHalfPlaying} {
        var marked := s.(current := Some(s.current.value.(state := AboutToBeSkipped)));
        TouchesKeepsInv(h, s, marked);
        MarkDroppedKeepsInv(h, marked, s.current.value.id);
      } else {
        NoCurrentKeepsInv(h, s);
      }
    }
  }

  lemma NextKeepsInv(h: History, s: State, skipOnly: bool, readyOk: bool, env: Env)
    requires Inv(h, s)
    ensures Inv(h, Next(s, skipOnly, readyOk, env).s)
  {
    hide Inv;
    if s.activated {
      GiveUpCurrentKeepsInv(h, s, skipOnly);
      var t := GiveUpCurrent(s, skipOnly);
      TryTakeNextKeepsInv(h, t);
      SkipToKeepsInv(h, TryTakeNext(t), None, readyOk, env);
      SkipToKeepsInv(h, TryTakeNext(t), Some(if t.current.Some? then t.current.value.id else 0), readyOk, env);
    }
  }

  lemma SkipToKeepsInv(h: History, taken: Taken, skipped: Option<nat>, readyOk: bool, env: Env)
    requires Inv(h, taken.s) && (taken.found ==> taken.s.current.Some?)
    ensures Inv(h, SkipTo(taken, skipped, readyOk, env).s)
  {
    hide Inv;
    if !taken.found {
      TouchesKeepsInv(h, taken.s, taken.s.(status := Stopped));
    } else {
      var it := taken.s.current.value;
      var u := if !taken.replaced && it.state in {AboutToActivate, ActiveHalfPlaying}
               then taken.s.(current := Some(it.(state := AboutToBeSkipped)))
               else taken.s;
      TouchesKeepsInv(h, taken.s, u);
      if readyOk {
        PlayNextTouches(u, !taken.replaced, AtCurrent, true, false, env);
        TouchesKeepsInv(h, u, PlayNext(u, !taken.replaced, AtCurrent, true, false, env).0);
      }
    }
  }

  lemma StartKeepsInv(h: History, s: State, buffering: bool, pending: GstState, state: GstState, env: Env)
    requires Inv(h, s)
    ensures Inv(h, Start(s, buffering, pending, state, env))
  {
    hide Inv;
    var t := s.(status := Playing);
    TouchesKeepsInv(h, s, t);
    TouchesKeepsInv(h, t, Rebuilt(t));
    TryPlayNextKeepsInv(h, Rebuilt(t), env);
  }

  lemma PauseKeepsInv(h: History, s: State, buffering: bool, state: GstState, env: Env)
    requires Inv(h, s)
    ensures Inv(h, Pause(s, buffering, state, env))
  {
    hide Inv;
    var t := s.(status := Paused);
    TouchesKeepsInv(h, s, t);
    TryPlayNextKeepsInv(h, t, env);
  }

  lemma StopPipelineKeepsInv(h: History, s: State, pending: GstState, state: GstState, env: Env)
    requires Inv(h, s)
    ensures Inv(h, StopPipeline(s, pending, state, env).0)
  {
    hide Inv;
    var t := s.(status := Stopped);
    TouchesKeepsInv(h, s, t);
    ClearTailKeepsInv(h, t, 0);
  }

  lemma StopKeepsInv(h: History, s: State, pending: GstState, state: GstState, after: GstState, env: Env)
    requires Inv(h, s)
    ensures Inv(h, Stop(s, pending, state, after, env))
  {
    hide Inv;
    StopPipelineKeepsInv(h, s, pending, state, env);
    var t := StopPipeline(s, pending, state, env).0;
    EmitStoppedWithErrorKeepsInv(h, t, NumOf(t.current));
    NoCurrentKeepsInv(h, EmitStoppedWithError(t, NumOf(t.current)));
  }

  lemma DeactivateKeepsInv(h: History, s: State, pending: GstState, state: GstState, env: Env)
    requires Inv(h, s)
    ensures Inv(h, Deactivate(s, pending, state, env))
  {
    hide Inv;
    TouchesKeepsInv(h, s, s.(activated := false));
    StopPipelineKeepsInv(h, s.(activated := false), pending, state, env);
  }

  lemma StreamStartKeepsInv(h: History, s: State, env: Env)
    requires Inv(h, s) && (s.current.Some? || s.queue != [])
    ensures Inv(h, StreamStart(s, env))
  {
    hide Inv;
    StartedKeepsInv(h, s);
    var t := Started(s).0;
    TouchesKeepsInv(h, t, t.(request := Requested));
    QueueFromFifoTouches(t.(request := Requested), env);
    TouchesKeepsInv(h, t.(request := Requested), QueueFromFifo(t.(request := Requested), env));
  }

  lemma StartedKeepsInv(h: History, s: State)
    requires Inv(h, s) && (s.current.Some? || s.queue != [])
    ensures Inv(h, Started(s).0)
  {
    hide Inv;
    TakeHeadKeepsInv(h, s);
    var picked := PickStarted(s).value;
    var taken := if picked.AtHead? then TakeHead(s) else s;
    var ready := if NeedsActivation(s, picked)
                 then taken.(current := Some(taken.current.value.(state := ActiveHalfPlaying)))
                 else taken;
    var (t, result) := ActivateStream(ready, 2);
    hide Touches, PickStarted, NeedsActivation, TakeHead;
    ActivationTouches(taken, NeedsActivation(s, picked));
    hide ActivateStream, SendReport;
    TouchesKeepsInv(h, taken, t);
    if result == Activated {
      SendReportKeepsInv(h, t);
    }
  }

  lemma ActivationTouches(s: State, activate: bool)
    requires s.current.Some?
    ensures var ready := if activate then s.(current := Some(s.current.value.(state := ActiveHalfPlaying))) else s;
      Touches(s, ActivateStream(ready, 2).0)
  {
  }

  lemma StateChangedKeepsInv(h: History, s: State, c: Change)
    requires Inv(h, s)
    ensures Inv(h, StateChanged(s, c))
  {
    hide Inv;
    var t := DecoderSeen(s, c);
    var u := if HasJustStarted(c) then t.(justStarted := true) else t;
    TouchesKeepsInv(h, s, t);
    TouchesKeepsInv(h, s, u);
    TargetReachedKeepsInv(h, u, c.target);
    hide Touches, TargetReached;
  }

  lemma TargetReachedKeepsInv(h: History, s: State, target: GstState)
    requires Inv(h, s)
    ensures Inv(h, TargetReached(s, target))
  {
    hide Inv;
    ReachedReadyKeepsInv(h, s);
    ActivationKeepsInv(h, s, s.justStarted);
    ActivationKeepsInv(h, s, false);
    TouchesKeepsInv(h, s, s.(justStarted := false));
    hide Touches, ActivateStream, ReachedReady;
  }

  lemma ActivationKeepsInv(h: History, s: State, justStarted: bool)
    requires Inv(h, s)
    ensures Inv(h, ActivateStream(s, 0).0.(justStarted := justStarted))
    ensures Inv(h, ActivateStream(s, 0).0)
  {
    hide Inv;
    TouchesKeepsInv(h, s, ActivateStream(s, 0).0.(justStarted := justStarted));
    TouchesKeepsInv(h, s, ActivateStream(s, 0).0);
  }

  lemma ReachedReadyKeepsInv(h: History, s: State)
    requires Inv(h, s)
    ensures Inv(h, ReachedReady(s))
  {
    hide Inv;
    var t := s.(uri := "");
    TouchesKeepsInv(h, s, t);
    EmitStoppedKeepsInv(h, t);
    var url := if t.current.Some? then SelectedUrlState(t.current.value) else Broken;
    hide SelectedUrlState, EmitStopped, CurrentReplaced;
    CurrentReplacedKeepsInv(h, if url in {KnownDirectUrl, KnownResolvedUrl} then EmitStopped(t) else t);
  }

  lemma CurrentReplacedKeepsInv(h: History, s: State)
    requires Inv(h, s)
    ensures Inv(h, CurrentReplaced(s))
  {
    hide Inv;
    TakeHeadKeepsInv(h, s);
    NoCurrentKeepsInv(h, s);
    TouchesKeepsInv(h, s, s.(protectedOnce := false));
    var t := if s.protectedOnce then s.(protectedOnce := false)
             else if s.queue == [] then s.(current := None)
             else TakeHead(s);
    TouchesKeepsInv(h, t, t.(justStarted := false));
  }

  lemma EndOfStreamKeepsInv(h: History, s: State)
    requires Inv(h, s)
    ensures Inv(h, EndOfStream(s))
  {
    hide Inv;
    EmitStoppedKeepsInv(h, s);
    var u := if s.queue != [] then Put(s, AtHead, s.queue[0].(startRequired := true)) else s;
    TouchesKeepsInv(h, s, u);
    EmitStoppedKeepsInv(h, u);
    hide EmitStopped, SelectedUrlState, Touches;
    var t :=
      if s.queue == [] then EmitStopped(s)
      else if StartRequiredFor(SelectedUrlState(s.queue[0])) == NotRequired then EmitStopped(u) else u;
    NoCurrentKeepsInv(h, t);
    assert Touches(t.(current := None), t.(current := None, uri := "")) by { TouchesButUri(t.(current := None)); }
    TouchesKeepsInv(h, t.(current := None), t.(current := None, uri := ""));
  }

  lemma CurrentFailedKeepsInv(h: History, s: State)
    requires Inv(h, s)
    ensures Inv(h, CurrentFailed(s))
  {
    hide Inv;
    ErrorRecoveryKeepsInv(h, s);
  }

  lemma PrefetchedFailedKeepsInv(h: History, s: State, item: ItemData)
    requires Inv(h, s)
    ensures Inv(h, PrefetchedFailed(s, item))
  {
    hide Inv;
    var t := if s.current.Some? then MarkDropped(s, s.current.value.id) else s;
    if s.current.Some? {
      MarkDroppedKeepsInv(h, s, s.current.value.id);
    }
    EmitStoppedWithErrorKeepsInv(h, t, Some(item.num));
    var u := EmitStoppedWithError(t, Some(item.num));
    NoCurrentKeepsInv(h, u);
    TouchesKeepsInv(h, u.(current := None), u.(justStarted := false, request := NotRequested, current := None));
  }

  lemma ErrorMessageKeepsInv(h: History, s: State, uri: string, mapped: Reason, env: Env)
    requires Inv(h, s) && ErrorHasItem(s, uri)
    ensures Inv(h, ErrorMessage(s, uri, mapped, env))
  {
    hide Inv;
    var prefetch := WhichFailed(s, uri).GaplessNext?;
    if prefetch {
      FailHeadKeepsInv(h, s);
    }
    var t := if prefetch then FailHead(s) else s;
    TryAlternativeTouches(t, prefetch, env);
    var u := TryAlternative(t, prefetch, env).0;
    TouchesKeepsInv(h, t, u);
    if prefetch {
      PrefetchedFailedKeepsInv(h, t, s.queue[0]);
      PrefetchedFailedKeepsInv(h, u, s.queue[0]);
    } else {
      CurrentFailedKeepsInv(h, t);
      CurrentFailedKeepsInv(h, u);
    }
  }

  lemma StepKeepsInv(h: History, s: State, e: Event)
    requires Inv(h, s) && Enabled(s, e)
    ensures Inv(h, Step(s, e))
  {
    hide Inv;
    match e
    case EvPush(id, urls, keep, env) => PushKeepsInv(h, s, id, urls, keep, env);
    case EvClear(keep) =>
      if keep >= 0 {
        ClearTailKeepsInv(h, s, keep);
        SendReportKeepsInv(h, ClearTail(s, keep));
      }
      SendReportKeepsInv(h, s);
    case EvNext(skipOnly, readyOk, env) => NextKeepsInv(h, s, skipOnly, readyOk, env);
    case EvStart(buffering, pending, state, env) => StartKeepsInv(h, s, buffering, pending, state, env);
    case EvPause(buffering, state, env) => PauseKeepsInv(h, s, buffering, state, env);
    case EvStop(pending, state, after, env) => StopKeepsInv(h, s, pending, state, after, env);
    case EvActivate => TouchesKeepsInv(h, s, Activate(s));
    case EvDeactivate(pending, state, env) => DeactivateKeepsInv(h, s, pending, state, env);
    case EvAboutToFinish(env) =>
      TouchesKeepsInv(h, s, s.(request := Requested));
      QueueFromFifoTouches(s.(request := Requested), env);
      TouchesKeepsInv(h, s.(request := Requested), AboutToFinish(s, env));
    case EvStreamStart(_, env) => StreamStartKeepsInv(h, s, env);
    case EvStateChanged(c) => StateChangedKeepsInv(h, s, c);
    case EvEndOfStream => EndOfStreamKeepsInv(h, s);
    case EvSought =>
    case EvError(uri, mapped, env) => ErrorMessageKeepsInv(h, s, uri, mapped, env);
    case EvLinkNotified(id, uri, valid, prefetch, env) =>
      var loc := Locate(s, id);
      if loc.Some? {
        LinkAnsweredTouches(s, loc.value, uri, valid, prefetch, env);
        TouchesKeepsInv(h, s, LinkAnswered(s, loc.value, uri, valid, prefetch, env));
      }
  }

  /** The invariant holds in all states of a run, and history grows from each state to the later ones. */
  lemma {:induction false} RunKeepsInv(states: seq<State>, events: seq<Event>, i: nat, j: nat)
    requires IsRun(states, events) && i <= j < |states|
    ensures Inv(states[i].hist, states[j])
    decreases j
  {
    if j == 0 {
      var s := states[0];
      assert Nums(s.queue) == [] && Upto(0) == [] && TagNums(s.removed) == [];
    } else if i == j {
      RunKeepsInv(states, events, i - 1, j - 1);
      assert states[j] == Step(states[j - 1], events[j - 1]);
      StepKeepsInv(states[j - 1].hist, states[j - 1], events[j - 1]);
    } else {
      RunKeepsInv(states, events, i, j - 1);
      assert states[j] == Step(states[j - 1], events[j - 1]);
      StepKeepsInv(states[i].hist, states[j - 1], events[j - 1]);
    }
  }
}

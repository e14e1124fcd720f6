/** Alternative URLs: which one a stream ends up with, and how a request for the next stream is
    answered with it. */
module Fallback {
  import opened Base
  import opened PlayItem
  import opened Player
  import opened PlayerInvariant
  import opened Playback

  /** Whether the search for a usable URL does not go past this one: its URI is known, it is an
      unusable direct URL, or it is a link that is not answered at once with "broken". */
  predicate Stops(u: Url, a: Answer) {
    StreamUri(u) != "" || !u.isLink || !a.Fast? || a.uri != ""
  }

  function FirstStop(urls: seq<Url>, from: nat, answer: nat -> Answer): (n: nat)
    requires from <= |urls|
    ensures from <= n <= |urls|
    ensures forall i :: from <= i < n ==> !Stops(urls[i], answer(i))
    ensures n < |urls| ==> Stops(urls[n], answer(n))
    decreases |urls| - from
  {
    if from == |urls| || Stops(urls[from], answer(from)) then from else FirstStop(urls, from + 1, answer)
  }

  lemma {:induction false} FirstStopIsLocal(a: seq<Url>, b: seq<Url>, from: nat, answer: nat -> Answer)
    requires |a| == |b| && from <= |a|
    requires forall i :: from <= i < |a| ==> a[i] == b[i]
    ensures FirstStop(a, from, answer) == FirstStop(b, from, answer)
    decreases |a| - from
  {
    if from < |a| {
      FirstStopIsLocal(a, b, from + 1, answer);
    }
  }

  /** GStreamer has got the URI it asked for. */
  ghost predicate HandedOver(t: State, uri: string) {
    t.uri == uri && t.request == NotRequested
  }

  /** Nothing has been handed over, so the request is still there. */
  ghost predicate StillOpen(s: State, t: State) {
    t.uri == s.uri && t.request == s.request && t.asked == s.asked
  }

  /** The item has this URI, and needs no answer any more. */
  predicate IsItsUri(it: ItemData, uri: string) {
    UrlForPlaying(it) == uri && it.resolver == NotAsked
  }

  /** Where the search for a usable URL ends if it stops at index `f` (or nowhere). */
  ghost predicate EndsAt(s: State, t: State, loc: Loc, urls: seq<Url>, f: nat, answer: nat -> Answer)
    requires urls != [] && f <= |urls|
  {
    && Has(t, loc)
    && var x := Get(t, loc);
    if f == |urls| then x.selected == f - 1 && IsItsUri(x, "") && StillOpen(s, t)
    else
      && x.selected == f
      && if StreamUri(urls[f]) != "" then HandedOver(t, StreamUri(urls[f])) && IsItsUri(x, t.uri)
         else if !urls[f].isLink then StillOpen(s, t) && IsItsUri(x, "")
         else if answer(f).Fast? then HandedOver(t, answer(f).uri) && IsItsUri(x, t.uri)
         else StillOpen(s, t) && x.resolver == Called(answer(f))
  }

  /** The ID of an item tells it from the current stream. */
  predicate NoIdClash(s: State, loc: Loc)
    requires Has(s, loc)
  {
    loc.AtHead? && s.current.Some? ==> s.current.value.id != s.queue[0].id
  }

  /** After a failed URL there is always a next one to advance to. */
  lemma FallbackAdvances(it: ItemData, now: int)
    requires HasMoreUrls(it)
    ensures var failed := ResolverFinish(it, "", 0, now);
      HasMoreUrls(failed) && SelectNextUrl(failed, now) == (failed.(selected := it.selected + 1), true)
  {
  }

  /** The first URL which is direct, known already, or answered with a URI is the one handed to
      GStreamer; links answered with a cookie stop the search until they are answered, and
      without any usable URL the last one stays selected. */
  lemma {:induction false} ResolveFindsFirst(s: State, loc: Loc, prefetch: bool, env: Env)
    requires Has(s, loc) && NoIdClash(s, loc)
    requires HasUrl(Get(s, loc)) && !IsResolving(Get(s, loc))
    ensures var it := Get(s, loc); var answer := AnswersFor(loc, env);
      EndsAt(s, Resolve(s, loc, prefetch, env).0, loc, it.urls, FirstStop(it.urls, it.selected, answer), answer)
    decreases Rank(loc), Remaining(Get(s, loc)), 1
  {
    hide LinkAnswered, Resolve;
    var it := Get(s, loc);
    var answer := AnswersFor(loc, env);
    if SelectedUrlState(it) == KnownAirableLink && answer(it.selected).Fast? {
      var a := answer(it.selected);
      ResolveIsAnswered(s, loc, prefetch, env);
      var u := Put(s, loc, it.(resolver := Over));
      AnswerFindsFirst(u, loc, a.uri, a.valid, prefetch, env);
      EndsAfterLink(s, u, LinkAnswered(u, loc, a.uri, a.valid, prefetch, env), loc, it, answer);
      hide EndsAt, FirstStop, IsItsUri;
    } else {
      ResolveAtOnce(s, loc, prefetch, env);
    }
  }

  lemma ResolveIsAnswered(s: State, loc: Loc, prefetch: bool, env: Env)
    requires Has(s, loc) && NoIdClash(s, loc) && SelectedUrlState(Get(s, loc)) == KnownAirableLink
    requires env.answer(loc, Get(s, loc).selected).Fast?
    ensures var it := Get(s, loc); var a := env.answer(loc, it.selected);
      Resolve(s, loc, prefetch, env).0
      == LinkAnswered(Put(s, loc, it.(resolver := Over)), loc, a.uri, a.valid, prefetch, env)
  {
  }

  /** A link which is answered at once ends the search, or it goes on behind it. */
  lemma EndsAfterLink(s: State, u: State, t: State, loc: Loc, it: ItemData, answer: nat -> Answer)
    requires SelectedUrlState(it) == KnownAirableLink && answer(it.selected).Fast? && StillOpen(s, u)
    requires var uri := answer(it.selected).uri;
      if uri != ""
      then HandedOver(t, uri) && Has(t, loc) && Get(t, loc).selected == it.selected && IsItsUri(Get(t, loc), uri)
      else EndsAt(u, t, loc, it.urls, FirstStop(it.urls, it.selected + 1, answer), answer)
    ensures EndsAt(s, t, loc, it.urls, FirstStop(it.urls, it.selected, answer), answer)
  {
    hide IsItsUri;
  }

  /** Without an answer on the fast path the search ends where it starts. */
  lemma ResolveAtOnce(s: State, loc: Loc, prefetch: bool, env: Env)
    requires Has(s, loc) && HasUrl(Get(s, loc)) && !IsResolving(Get(s, loc))
    requires var it := Get(s, loc);
      SelectedUrlState(it) == KnownAirableLink ==> !env.answer(loc, it.selected).Fast?
    ensures var it := Get(s, loc); var answer := AnswersFor(loc, env);
      && FirstStop(it.urls, it.selected, answer) == it.selected
      && EndsAt(s, Resolve(s, loc, prefetch, env).0, loc, it.urls, it.selected, answer)
  {
  }

  lemma {:induction false} AnswerFindsFirst(s: State, loc: Loc, uri: string, valid: nat, prefetch: bool, env: Env)
    requires Has(s, loc) && NoIdClash(s, loc)
    requires HasUrl(Get(s, loc)) && Get(s, loc).urls[Get(s, loc).selected].isLink
    ensures var it := Get(s, loc); var answer := AnswersFor(loc, env);
      var t := LinkAnswered(s, loc, uri, valid, prefetch, env);
      if uri != ""
      then HandedOver(t, uri) && Has(t, loc) && Get(t, loc).selected == it.selected && IsItsUri(Get(t, loc), uri)
      else EndsAt(s, t, loc, it.urls, FirstStop(it.urls, it.selected + 1, answer), answer)
    decreases Rank(loc), Remaining(Get(s, loc)), 0
  {
    hide LinkAnswered, EndsAt, FirstStop;
    if uri == "" && HasMoreUrls(Get(s, loc)) {
      FailedAnswerMovesOn(s, loc, valid, prefetch, env);
    } else {
      AnswerEndsSearch(s, loc, uri, valid, prefetch, env);
    }
  }

  lemma {:induction false} FailedAnswerMovesOn(s: State, loc: Loc, valid: nat, prefetch: bool, env: Env)
    requires Has(s, loc) && NoIdClash(s, loc) && HasMoreUrls(Get(s, loc))
    ensures var it := Get(s, loc); var answer := AnswersFor(loc, env);
      EndsAt(s, LinkAnswered(s, loc, "", valid, prefetch, env), loc, it.urls,
             FirstStop(it.urls, it.selected + 1, answer), answer)
    decreases Rank(loc), Remaining(Get(s, loc)) - 1, 2
  {
    var it := Get(s, loc);
    var answer := AnswersFor(loc, env);
    AnsweredByNext(s, loc, valid, prefetch, env);
    var failed := ResolverFinish(it, "", 0, env.now);
    var next := failed.(selected := it.selected + 1);
    var u := Put(Put(s, loc, failed), loc, next);
    hide LinkAnswered, Resolve, EndsAt, FirstStop, SelectNextUrl;
    ResolveFindsFirst(u, loc, prefetch, env);
    FirstStopIsLocal(it.urls, next.urls, it.selected + 1, answer);
    EndsAtSame(s, u, Resolve(u, loc, prefetch, env).0, loc, it.urls, next.urls,
               FirstStop(it.urls, it.selected + 1, answer), answer);
  }

  lemma EndsAtSame(s: State, u: State, t: State, loc: Loc, a: seq<Url>, b: seq<Url>, f: nat, answer: nat -> Answer)
    requires |a| == |b| && b != [] && f <= |a| && (f < |a| ==> a[f] == b[f])
    requires StillOpen(s, u)
    requires EndsAt(u, t, loc, b, f, answer)
    ensures EndsAt(s, t, loc, a, f, answer)
  {
  }

  lemma AnswerEndsSearch(s: State, loc: Loc, uri: string, valid: nat, prefetch: bool, env: Env)
    requires Has(s, loc) && HasUrl(Get(s, loc)) && Get(s, loc).urls[Get(s, loc).selected].isLink
    requires uri != "" || !HasMoreUrls(Get(s, loc))
    ensures var it := Get(s, loc);
      var t := LinkAnswered(s, loc, uri, valid, prefetch, env);
      && Has(t, loc) && Get(t, loc).selected == it.selected && IsItsUri(Get(t, loc), uri)
      && if uri != "" then HandedOver(t, uri)
         else var answer := AnswersFor(loc, env);
           EndsAt(s, t, loc, it.urls, FirstStop(it.urls, it.selected + 1, answer), answer)
  {
  }

  lemma AnsweredByNext(s: State, loc: Loc, valid: nat, prefetch: bool, env: Env)
    requires Has(s, loc) && HasMoreUrls(Get(s, loc))
    ensures var failed := ResolverFinish(Get(s, loc), "", 0, env.now);
      LinkAnswered(s, loc, "", valid, prefetch, env)
      == Resolve(Put(Put(s, loc, failed), loc, failed.(selected := failed.selected + 1)), loc, prefetch, env).0
  {
    FallbackAdvances(Get(s, loc), env.now);
  }

  // ----- exactly when a URI is handed over -----

  /** The URI found. */
  function FoundUri(urls: seq<Url>, from: nat, answer: nat -> Answer): (uri: string)
    requires FindsUri(urls, from, answer)
    ensures uri != ""
    decreases |urls| - from
  {
    if StreamUri(urls[from]) != "" then StreamUri(urls[from])
    else if answer(from).uri != "" then answer(from).uri
    else FoundUri(urls, from + 1, answer)
  }

  lemma {:induction false} FirstStopFinds(urls: seq<Url>, from: nat, answer: nat -> Answer)
    requires from <= |urls|
    ensures var f := FirstStop(urls, from, answer);
      && (FindsUri(urls, from, answer) <==>
            f < |urls| && (StreamUri(urls[f]) != "" || (urls[f].isLink && answer(f).Fast?)))
      && (FindsUri(urls, from, answer) ==>
            FoundUri(urls, from, answer) == if StreamUri(urls[f]) != "" then StreamUri(urls[f]) else answer(f).uri)
    decreases |urls| - from
  {
    if from < |urls| && !Stops(urls[from], answer(from)) {
      FirstStopFinds(urls, from + 1, answer);
    }
  }

  /** Resolving an item hands a URI over exactly if one is found among its URLs, and it is this one. With a
      required start the pipeline is asked to play then, and the current stream is read. */
  lemma HandsOverExactly(s: State, loc: Loc, prefetch: bool, env: Env)
    requires Has(s, loc) && NoIdClash(s, loc)
    ensures var it := Get(s, loc); var t := Resolve(s, loc, prefetch, env).0;
      if HandsOver(it, loc, env) then HandedOver(t, FoundUri(it.urls, it.selected, AnswersFor(loc, env)))
      else StillOpen(s, t)
  {
    var it := Get(s, loc);
    if HasUrl(it) && !IsResolving(it) {
      hide Resolve;
      ResolveFindsFirst(s, loc, prefetch, env);
      FirstStopFinds(it.urls, it.selected, AnswersFor(loc, env));
    }
  }

  /** The same for the answer to the selected link. */
  lemma AnswerHandsOverExactly(s: State, loc: Loc, uri: string, valid: nat, prefetch: bool, env: Env)
    requires Has(s, loc) && NoIdClash(s, loc)
    requires HasUrl(Get(s, loc)) && Get(s, loc).urls[Get(s, loc).selected].isLink
    ensures var it := Get(s, loc); var answer := AnswersFor(loc, env);
      var t := LinkAnswered(s, loc, uri, valid, prefetch, env);
      if uri != "" then HandedOver(t, uri)
      else if FindsUri(it.urls, it.selected + 1, answer)
      then HandedOver(t, FoundUri(it.urls, it.selected + 1, answer))
      else StillOpen(s, t)
  {
    hide LinkAnswered;
    AnswerFindsFirst(s, loc, uri, valid, prefetch, env);
    FirstStopFinds(Get(s, loc).urls, Get(s, loc).selected + 1, AnswersFor(loc, env));
  }

  /** An empty answer only makes the search go on, whichever URL it was taken for. */
  lemma EmptyAnswerSearchesOn(s: State, loc: Loc, valid: nat, prefetch: bool, env: Env)
    requires Has(s, loc) && NoIdClash(s, loc)
    ensures var it := Get(s, loc); var answer := AnswersFor(loc, env);
      var t := LinkAnswered(s, loc, "", valid, prefetch, env);
      if FindsUri(it.urls, it.selected + 1, answer)
      then HandedOver(t, FoundUri(it.urls, it.selected + 1, answer))
      else StillOpen(s, t)
  {
    var it := Get(s, loc);
    if HasMoreUrls(it) {
      FailedAnswerMovesOn(s, loc, valid, prefetch, env);
      FirstStopFinds(it.urls, it.selected + 1, AnswersFor(loc, env));
      hide LinkAnswered, FindsUri, FoundUri, FirstStop, IsItsUri;
    } else {
      hide FirstStop, Resolve;
    }
  }

  // ----- exactly when the pipeline is asked for a state -----

  /** The pipeline is asked exactly if a URI is handed over, unless that is done beforehand without a required
      start. What it answers is only looked at if the URI was known from the beginning. */
  lemma {:induction false} ResolveAsks(s: State, loc: Loc, prefetch: bool, env: Env)
    requires Has(s, loc) && NoIdClash(s, loc)
    ensures Resolve(s, loc, prefetch, env).0.asked
      == s.asked + if HandsOver(Get(s, loc), loc, env) && (!prefetch || Get(s, loc).startRequired)
                   then [env.pipelineOk] else []
    decreases Rank(loc), Remaining(Get(s, loc)), 1
  {
    var it := Get(s, loc);
    if SelectedUrlState(it) == KnownAirableLink && env.answer(loc, it.selected).Fast? {
      var a := env.answer(loc, it.selected);
      ResolveIsAnswered(s, loc, prefetch, env);
      FindsAfterLink(it, loc, env);
      AnswerAsks(Put(s, loc, it.(resolver := Over)), loc, a.uri, a.valid, prefetch, env);
      hide Resolve, LinkAnswered, NoIdClash, HandsOver, FindsUri;
    } else {
      ResolveAsksAtOnce(s, loc, prefetch, env);
    }
  }

  lemma FindsAfterLink(it: ItemData, loc: Loc, env: Env)
    requires SelectedUrlState(it) == KnownAirableLink && env.answer(loc, it.selected).Fast?
    ensures HandsOver(it, loc, env) <==>
      env.answer(loc, it.selected).uri != "" || FindsUri(it.urls, it.selected + 1, AnswersFor(loc, env))
  {
    assert AnswersFor(loc, env)(it.selected) == env.answer(loc, it.selected);
  }

  lemma ResolveAsksAtOnce(s: State, loc: Loc, prefetch: bool, env: Env)
    requires Has(s, loc)
    requires var it := Get(s, loc); SelectedUrlState(it) == KnownAirableLink ==> !env.answer(loc, it.selected).Fast?
    ensures Resolve(s, loc, prefetch, env).0.asked
      == s.asked + if HandsOver(Get(s, loc), loc, env) && (!prefetch || Get(s, loc).startRequired)
                   then [env.pipelineOk] else []
  {
    hide LinkAnswered;
  }

  lemma {:induction false} AnswerAsks(s: State, loc: Loc, uri: string, valid: nat, prefetch: bool, env: Env)
    requires Has(s, loc) && NoIdClash(s, loc)
    ensures var it := Get(s, loc);
      var found := uri != "" || FindsUri(it.urls, it.selected + 1, AnswersFor(loc, env));
      LinkAnswered(s, loc, uri, valid, prefetch, env).asked
      == s.asked + if found && (!prefetch || it.startRequired) then [env.pipelineOk] else []
    decreases Rank(loc), Remaining(Get(s, loc)), 0
  {
    var it := Get(s, loc);
    if uri == "" && HasMoreUrls(it) {
      AnsweredByNext(s, loc, valid, prefetch, env);
      FindsBehindFailed(it, loc, env);
      var failed := ResolverFinish(it, "", 0, env.now);
      var u := Put(Put(s, loc, failed), loc, failed.(selected := failed.selected + 1));
      hide LinkAnswered, Resolve, HandsOver, FindsUri, ResolverFinish;
      ResolveAsks(u, loc, prefetch, env);
    } else {
      LastAnswerAsks(s, loc, uri, valid, prefetch, env);
    }
  }

  /** Behind a link which has failed the search goes on with the same URLs, for the same item. */
  lemma FindsBehindFailed(it: ItemData, loc: Loc, env: Env)
    requires HasMoreUrls(it)
    ensures var failed := ResolverFinish(it, "", 0, env.now);
      var next := failed.(selected := failed.selected + 1);
      && next.startRequired == it.startRequired && next.id == it.id && Remaining(next) < Remaining(it)
      && (HandsOver(next, loc, env) <==> FindsUri(it.urls, it.selected + 1, AnswersFor(loc, env)))
  {
    var failed := ResolverFinish(it, "", 0, env.now);
    FindsUriIsLocal(it.urls, failed.urls, it.selected + 1, AnswersFor(loc, env));
    hide FindsUri;
  }

  lemma LastAnswerAsks(s: State, loc: Loc, uri: string, valid: nat, prefetch: bool, env: Env)
    requires Has(s, loc) && (uri != "" || !HasMoreUrls(Get(s, loc)))
    ensures LinkAnswered(s, loc, uri, valid, prefetch, env).asked
      == s.asked + if uri != "" && (!prefetch || Get(s, loc).startRequired) then [env.pipelineOk] else []
  {
    hide Resolve;
  }

  // ----- exactly when a null pointer is followed -----

  /** Resolving follows a null pointer exactly if the pipeline accepts a state asked of it while there is no current
      stream. */
  lemma NullIsFollowedExactly(s: State, loc: Loc, prefetch: bool, env: Env)
    requires Has(s, loc) && NoIdClash(s, loc)
    ensures ResolveFollowsNull(s, loc, prefetch, env) <==>
      s.current == None && Resolve(s, loc, prefetch, env).0.asked == s.asked + [true]
  {
    ResolveAsks(s, loc, prefetch, env);
    IsAppended(s.asked, env.pipelineOk);
    hide HandsOver, Resolve;
  }

  lemma IsAppended(a: seq<bool>, b: bool)
    ensures (a + [b] == a + [true] <==> b) && a + [] != a + [true]
  {
    assert (a + [b])[|a|] == b && |a + []| == |a|;
  }

  lemma NullIsFollowedByAnswer(s: State, loc: Loc, uri: string, valid: nat, prefetch: bool, env: Env)
    requires Has(s, loc) && NoIdClash(s, loc)
    ensures AnswerFollowsNull(s, loc, uri, prefetch, env) <==>
      s.current == None && LinkAnswered(s, loc, uri, valid, prefetch, env).asked == s.asked + [true]
  {
    AnswerAsks(s, loc, uri, valid, prefetch, env);
    IsAppended(s.asked, env.pipelineOk);
    hide FindsUri, LinkAnswered;
  }

  /** The same for a request of GStreamer. */
  lemma NullIsFollowedOnRequest(s: State, env: Env)
    ensures !HeadMayBeHandedOver(s, env) <==> s.current == None && AboutToFinish(s, env).asked == s.asked + [true]
  {
    var r := s.(request := Requested);
    if s.current == None && s.queue != [] && s.queue[0].state == InQueue {
      var t := Put(r, AtHead, s.queue[0].(state := AboutToActivate));
      assert AboutToFinish(s, env) == Resolve(t, AtHead, true, env).0;
      NullIsFollowedExactly(t, AtHead, true, env);
      hide Resolve, AboutToFinish;
      assert HandsOver(t.queue[0], AtHead, env) == HandsOver(s.queue[0], AtHead, env);
      hide HandsOver;
    }
  }

  // ----- requests for the next stream -----

  /** The item is at the head of the queue, on its way to GStreamer: either its URI has been handed over, or its
      link is being resolved, and the answer will come. */
  ghost predicate Served(t: State, it: ItemData) {
    && t.queue != [] && t.queue[0].num == it.num && t.queue[0].state == AboutToActivate
    && (|| (t.request == NotRequested && t.uri != "" && IsItsUri(t.queue[0], t.uri))
        || (t.request == Requested && t.queue[0].resolver == Pending))
  }

  /** The search for a URL stops at a link which is going to be answered later. */
  predicate AwaitsAnswer(it: ItemData, loc: Loc, env: Env) {
    if IsResolving(it) || !HasUrl(it) then it.resolver == Pending
    else
      var answer := AnswersFor(loc, env);
      var f := FirstStop(it.urls, it.selected, answer);
      f < |it.urls| && it.urls[f].isLink && StreamUri(it.urls[f]) == "" && answer(f).Cookie?
  }

  /** The answer for the link of an item comes at once, and is taken for one for the current stream. */
  predicate Misdirected(current: Option<ItemData>, it: ItemData, env: Env) {
    && SelectedUrlState(it) == KnownAirableLink && env.answer(AtHead, it.selected).Fast?
    && current.Some? && current.value.id == it.id
  }

  /** Whether the current stream, or an alternative of it, has a use for such an answer. */
  predicate CurrentTakes(current: ItemData, a: Answer, env: Env)
    requires a.Fast?
  {
    a.uri != "" || FindsUri(current.urls, current.selected + 1, AnswersFor(AtCurrent, env))
  }

  /** GStreamer waits for more, and the head of the queue waits to be handed over. */
  ghost predicate Waiting(s: State) {
    GivesWay(s.current) && s.queue != [] && s.queue[0].state == InQueue && s.request == Requested
  }

  /** A waiting head is served exactly if it is the one which is searched, and a URI is found or an answer will
      come. */
  lemma WaitingItemIsServed(s: State, env: Env)
    requires Waiting(s)
    ensures var it := s.queue[0];
      Served(QueueFromFifo(s, env), it) <==>
        !Misdirected(s.current, it, env) && (HandsOver(it, AtHead, env) || AwaitsAnswer(it, AtHead, env))
  {
    var it := s.queue[0];
    if Misdirected(s.current, it, env) {
      EqualIdsMisdirectAnswer(s, env);
    } else {
      HeadIsSearched(s, env);
    }
  }

  /** What becomes of a waiting head which is searched. */
  lemma HeadIsSearched(s: State, env: Env)
    requires Waiting(s) && !Misdirected(s.current, s.queue[0], env)
    ensures var it := s.queue[0]; var t := QueueFromFifo(s, env);
      && t.queue != [] && TagOf(t.queue[0]) == TagOf(it) && t.queue[0].state == AboutToActivate
      && (if HandsOver(it, AtHead, env)
          then HandedOver(t, FoundUri(it.urls, it.selected, AnswersFor(AtHead, env))) && IsItsUri(t.queue[0], t.uri)
          else t.uri == s.uri && t.request == Requested && !KnowsUri(t.queue[0])
               && (t.queue[0].resolver == Pending <==> AwaitsAnswer(it, AtHead, env)))
  {
    var it := s.queue[0];
    var t := Put(s, AtHead, it.(state := AboutToActivate));
    assert QueueFromFifo(s, env) == Resolve(t, AtHead, true, env).0;
    assert TagOf(t.queue[0]) == TagOf(it);
    hide QueueFromFifo;
    ResolveTouches(t, AtHead, true, env);
    HeadEndsSearch(t, env);
    hide Resolve, HandsOver, AwaitsAnswer, KnowsUri, IsItsUri, FoundUri;
  }

  lemma HeadEndsSearch(s: State, env: Env)
    requires s.queue != [] && !Misdirected(s.current, s.queue[0], env)
    ensures var it := s.queue[0]; var t := Resolve(s, AtHead, true, env).0;
      && t.queue != []
      && if HandsOver(it, AtHead, env)
         then HandedOver(t, FoundUri(it.urls, it.selected, AnswersFor(AtHead, env))) && IsItsUri(t.queue[0], t.uri)
         else t.uri == s.uri && t.request == s.request && !KnowsUri(t.queue[0])
              && (t.queue[0].resolver == Pending <==> AwaitsAnswer(it, AtHead, env))
  {
    var it := s.queue[0];
    if HasUrl(it) && !IsResolving(it) {
      FirstStopFinds(it.urls, it.selected, AnswersFor(AtHead, env));
      if SelectedUrlState(it) == KnownAirableLink && env.answer(AtHead, it.selected).Fast? {
        ResolveFindsFirst(s, AtHead, true, env);
      } else {
        ResolveAtOnce(s, AtHead, true, env);
      }
      hide Resolve, FindsUri, FoundUri;
    }
  }

  /** What is done with the current stream leaves the queue alone. */
  lemma {:induction false} ResolveKeepsQueue(s: State, prefetch: bool, env: Env)
    requires s.current.Some?
    ensures Resolve(s, AtCurrent, prefetch, env).0.queue == s.queue
    decreases Remaining(s.current.value), 1
  {
    var it := s.current.value;
    if SelectedUrlState(it) == KnownAirableLink && env.answer(AtCurrent, it.selected).Fast? {
      var a := env.answer(AtCurrent, it.selected);
      AnswerKeepsQueue(Put(s, AtCurrent, it.(resolver := Over)), a.uri, a.valid, prefetch, env);
    }
  }

  lemma {:induction false} AnswerKeepsQueue(s: State, uri: string, valid: nat, prefetch: bool, env: Env)
    requires s.current.Some?
    ensures LinkAnswered(s, AtCurrent, uri, valid, prefetch, env).queue == s.queue
    decreases Remaining(s.current.value), 0
  {
    hide Resolve;
    var it := ResolverFinish(s.current.value, uri, valid, env.now);
    var t := Put(s, AtCurrent, it);
    if uri == "" && HasMoreUrls(it) {
      var (next, ok) := SelectNextUrl(it, env.now);
      if ok {
        hide ResolverFinish;
        ResolveKeepsQueue(Put(t, AtCurrent, next), prefetch, env);
      }
    }
  }

  /** The answer for the link of the head is processed for the current stream if that has the same ID. The head is
      not served, and no answer for it will come any more. GStreamer is given another URI exactly if the current
      stream takes the answer: the one of the current stream once more, or the answer, if it selects a link. */
  lemma EqualIdsMisdirectAnswer(s: State, env: Env)
    requires Waiting(s) && Misdirected(s.current, s.queue[0], env)
    ensures var t := QueueFromFifo(s, env); var a := env.answer(AtHead, s.queue[0].selected);
      var playing := s.current.value;
      && !Served(t, s.queue[0])
      && t.queue == s.queue[0 := s.queue[0].(state := AboutToActivate, resolver := Over)]
      && (t.request == NotRequested <==> CurrentTakes(playing, a, env))
      && (t.request != NotRequested ==> t.request == Requested && t.uri == s.uri)
      && (a.uri != "" && HasUrl(playing) ==>
            var url := playing.urls[playing.selected]; HandedOver(t, if url.isLink then a.uri else StreamUri(url)))
  {
    var it := s.queue[0];
    var a := env.answer(AtHead, it.selected);
    var u := Put(s, AtHead, it.(state := AboutToActivate, resolver := Over));
    CurrentIsAnswered(s, env);
    hide QueueFromFifo;
    AnswerKeepsQueue(u, a.uri, a.valid, true, env);
    if a.uri != "" {
      AnswerForCurrent(u, a.uri, a.valid, env);
    } else {
      EmptyAnswerSearchesOn(u, AtCurrent, a.valid, true, env);
    }
    hide LinkAnswered, FindsUri;
  }

  lemma CurrentIsAnswered(s: State, env: Env)
    requires Waiting(s) && Misdirected(s.current, s.queue[0], env)
    ensures var it := s.queue[0]; var a := env.answer(AtHead, it.selected);
      var u := Put(s, AtHead, it.(state := AboutToActivate, resolver := Over));
      QueueFromFifo(s, env) == LinkAnswered(u, AtCurrent, a.uri, a.valid, true, env)
  {
    hide LinkAnswered;
    var it := s.queue[0];
    var t := Put(s, AtHead, it.(state := AboutToActivate));
    assert QueueFromFifo(s, env) == Resolve(t, AtHead, true, env).0;
    assert Put(t, AtHead, t.queue[0].(resolver := Over))
        == Put(s, AtHead, it.(state := AboutToActivate, resolver := Over));
    hide QueueFromFifo;
  }

  lemma AnswerForCurrent(u: State, uri: string, valid: nat, env: Env)
    requires u.current.Some? && uri != ""
    ensures var t := LinkAnswered(u, AtCurrent, uri, valid, true, env); var playing := u.current.value;
      && t.request == NotRequested
      && (HasUrl(playing) ==>
            var url := playing.urls[playing.selected]; HandedOver(t, if url.isLink then uri else StreamUri(url)))
  {
  }

  // ----- what becomes of every request -----

  /** Whether a request of GStreamer is answered with a URI in the same step: with the one of the next item, or of
      the current stream if that has not been started yet, or which gets the answer for the next item. */
  predicate IsAnsweredAtOnce(s: State, env: Env) {
    if !GivesWay(s.current) then s.current.value.state == InQueue && HandsOver(s.current.value, AtCurrent, env)
    else
      && s.queue != [] && s.queue[0].state == InQueue
      && if Misdirected(s.current, s.queue[0], env)
         then CurrentTakes(s.current.value, env.answer(AtHead, s.queue[0].selected), env)
         else HandsOver(s.queue[0], AtHead, env)
  }

  /** The request came while the current stream was being activated: it is neither answered nor deferred, and the
      next item waits in the queue. */
  ghost predicate Stranded(s: State) {
    && s.request == Requested && s.queue != [] && s.queue[0].state == InQueue
    && s.current.Some? && s.current.value.state in {AboutToActivate, ActiveHalfPlaying, ActiveNowPlaying}
  }

  /** What becomes of a request, in every state: it is answered at once; it is deferred until the head of the queue
      starts; it is left to the next push, with the last stream phased out; or it is only noted. The last is what
      happens while the current stream is being activated. */
  lemma EveryRequestIsMet(s: State, env: Env)
    requires Shape(s.queue)
    ensures var t := AboutToFinish(s, env);
      && (t.request == NotRequested <==> IsAnsweredAtOnce(s, env))
      && (t.request == Deferred <==>
            GivesWay(s.current) && s.queue != [] && s.queue[0].state == AboutToActivate)
      && (GivesWay(s.current) && s.queue == [] && s.current.Some? ==>
            t == s.(request := Requested, current := Some(s.current.value.(state := AboutToPhaseOut))))
      && (GivesWay(s.current) && s.queue != [] && s.queue[0].state == InQueue ==>
            |t.queue| == |s.queue| && t.queue[0].state == AboutToActivate && t.queue[1..] == s.queue[1..])
      && (s.queue != [] && s.queue[0].state == InQueue ==>
            (Stranded(t) <==> s.current.Some? && s.current.value.state in {AboutToActivate, ActiveHalfPlaying}))
      && (Stranded(t) ==> t == s.(request := Requested))
  {
    var r := s.(request := Requested);
    if GivesWay(s.current) {
      if s.queue != [] && s.queue[0].state == InQueue {
        RequestForHead(r, env);
      }
      hide HandsOver;
    } else if s.current.value.state == InQueue {
      RequestForCurrent(r, env);
      assert AboutToFinish(s, env) == QueueFromFifo(r, env);
      hide QueueFromFifo, HandsOver, AboutToFinish;
    }
  }

  lemma RequestForHead(s: State, env: Env)
    requires Waiting(s)
    ensures var t := QueueFromFifo(s, env);
      && (t.request == NotRequested <==> IsAnsweredAtOnce(s, env))
      && t.request != Deferred && |t.queue| == |s.queue| && t.queue[1..] == s.queue[1..]
      && t.queue[0].state == AboutToActivate
  {
    var it := s.queue[0];
    if Misdirected(s.current, it, env) {
      EqualIdsMisdirectAnswer(s, env);
    } else {
      HeadIsSearched(s, env);
    }
    hide QueueFromFifo, HandsOver, FindsUri;
    QueueFromFifoTouches(s, env);
  }

  /** The current stream is handed over although it is not playing yet, and is marked to be phased out. */
  lemma RequestForCurrent(s: State, env: Env)
    requires s.current.Some? && s.current.value.state == InQueue && s.request == Requested
    ensures var t := QueueFromFifo(s, env);
      && (t.request == NotRequested <==> HandsOver(s.current.value, AtCurrent, env))
      && t.request != Deferred && t.queue == s.queue
      && t.current.Some? && t.current.value.state == AboutToPhaseOut
  {
    var t := s.(current := Some(s.current.value.(state := AboutToPhaseOut)));
    assert QueueFromFifo(s, env) == Resolve(t, AtCurrent, true, env).0;
    hide QueueFromFifo, Resolve;
    HandsOverExactly(t, AtCurrent, true, env);
    hide HandsOver, FindsUri;
    ResolveTouches(t, AtCurrent, true, env);
    ResolveKeepsQueue(t, true, env);
  }

  /** Steps which leave a stranded request alone: the start of the stream which was being activated, state messages
      short of the state of rest, pushes and removals behind the next item, and requests of the user which do not
      concern the pipeline. */
  predicate PassesStranded(s: State, e: Event) {
    match e
    case EvStreamStart(_, _) => s.current.Some? && s.current.value.state in {AboutToActivate, ActiveHalfPlaying}
    case EvStateChanged(c) => c.target != Ready
    case EvPush(_, _, keep, _) => keep > 0
    case EvClear(keep) => keep != 0
    case EvStart(buffering, pending, state, _) =>
      buffering || pending in {GstPlaying, GstPaused} || state !in {Ready, Null}
    case EvPause(buffering, state, _) => buffering || state != Null
    case EvActivate => true
    case EvSought => true
    case _ => false
  }

  /** A stranded request outlives all of them: the next item is not handed over when its time comes, although it is
      there, and however much is pushed. */
  lemma {:induction false} StrandedStaysStranded(states: seq<State>, events: seq<Event>, i: nat, j: nat)
    requires IsRun(states, events) && i <= j < |states| && Stranded(states[i])
    requires forall k {:trigger events[k]} :: i <= k < j ==> PassesStranded(states[k], events[k])
    ensures Stranded(states[j]) && states[j].queue[0] == states[i].queue[0] && states[j].uri == states[i].uri
    decreases j
  {
    if i < j {
      StrandedStaysStranded(states, events, i, j - 1);
      RunKeepsInv(states, events, j - 1, j - 1);
      assert states[j] == Step(states[j - 1], events[j - 1]);
      ShapeOf(states[j - 1]);
      hide IsRun, Inv;
      StrandedStep(states[j - 1], events[j - 1]);
    }
  }

  lemma ShapeOf(s: State)
    requires Inv(s.hist, s)
    ensures Shape(s.queue)
  {
  }

  ghost predicate SameStranded(s: State, t: State) {
    Stranded(s) && Stranded(t) && t.queue[0] == s.queue[0] && t.uri == s.uri
  }

  lemma StrandedStep(s: State, e: Event)
    requires Stranded(s) && Shape(s.queue) && Enabled(s, e) && PassesStranded(s, e)
    ensures SameStranded(s, Step(s, e))
  {
    match e
    case EvStreamStart(_, env) => StrandedStart(s, env);
    case EvStateChanged(c) => StrandedChange(s, c);
    case EvPush(id, urls, keep, env) => StrandedPush(s, id, urls, keep, env);
    case EvClear(keep) =>
    case _ =>
  }

  lemma StrandedStart(s: State, env: Env)
    requires Stranded(s) && s.current.value.state in {AboutToActivate, ActiveHalfPlaying}
    ensures SameStranded(s, StreamStart(s, env))
  {
    hide QueueFromFifo, PendingReport;
  }

  lemma StrandedChange(s: State, c: Change)
    requires Stranded(s) && c.target != Ready
    ensures SameStranded(s, StateChanged(s, c))
  {
    var t := DecoderSeen(s, c);
    var u := if HasJustStarted(c) then t.(justStarted := true) else t;
    assert SameStranded(s, u);
    StrandedTarget(u, c.target);
    hide TargetReached;
  }

  lemma StrandedTarget(s: State, target: GstState)
    requires Stranded(s) && target != Ready
    ensures SameStranded(s, TargetReached(s, target))
  {
  }

  lemma StrandedPush(s: State, id: nat, urls: seq<Url>, keep: nat, env: Env)
    requires Stranded(s) && keep > 0
    ensures SameStranded(s, Push(s, id, urls, keep, env))
  {
    hide QueueFromFifo, PendingReport, Tags;
  }

  /** A request that had to be deferred is answered when the stream it was waiting for is taken
      from the queue and starts; if there is nothing to answer with, it is kept and the
      stream is known to be the last one. */
  lemma DeferredRequestIsServed(s: State, env: Env)
    requires Shape(s.queue) && s.request == Deferred && PickStarted(s) == Some(AtHead)
    ensures var t := StreamStart(s, env);
      && t.current.Some? && t.current.value.num == s.queue[0].num
      && (|s.queue| > 1 ==>
            var it := s.queue[1];
            Served(t, it) <==> !Misdirected(Some(s.queue[0]), it, env)
                               && (HandsOver(it, AtHead, env) || AwaitsAnswer(it, AtHead, env)))
      && (|s.queue| == 1 ==>
            t.queue == [] && t.request == Requested && t.current.value.state == AboutToPhaseOut)
  {
    StartedIsLive(s);
    var t := Started(s).0.(request := Requested);
    hide Started;
    if |s.queue| > 1 {
      WaitingItemIsServed(t, env);
      hide QueueFromFifo, FirstStop, HandsOver, AwaitsAnswer;
      QueueFromFifoTouches(t, env);
      assert Misdirected(t.current, s.queue[1], env) == Misdirected(Some(s.queue[0]), s.queue[1], env);
    } else {
      QueueFromFifoIsLive(t, env);
    }
  }

  /** The same if the current stream is the one which starts. A deferred request is due unless that plays already,
      or was half playing; it is answered from the queue then, or deferred once more if the head is on its way. */
  lemma DeferredRequestIsDue(s: State, env: Env)
    requires Shape(s.queue) && s.request == Deferred && PickStarted(s) == Some(AtCurrent)
    ensures var t := StreamStart(s, env);
      && (s.current.value.state in {ActiveHalfPlaying, ActiveNowPlaying} ==>
            t.request == Deferred && t.uri == s.uri && t.queue == s.queue)
      && (s.current.value.state !in {ActiveHalfPlaying, ActiveNowPlaying} ==>
            if s.queue == [] then t.request == Requested && t.uri == s.uri
            else if s.queue[0].state == AboutToActivate then t.request == Deferred && t.queue == s.queue
            else t.request != Deferred && t.queue != [] && t.queue[0].state == AboutToActivate)
  {
    StartedIsLive(s);
    StartedKeepsRequest(s);
    var t := Started(s).0;
    hide Started;
    RequestWhileLive(t.(request := Requested), env);
    hide QueueFromFifo;
  }

  lemma StartedKeepsRequest(s: State)
    requires s.current.Some? || s.queue != []
    ensures Started(s).0.request == s.request
  {
    hide PendingReport;
  }

  lemma RequestWhileLive(s: State, env: Env)
    requires Live(s) && Shape(s.queue) && s.request == Requested
    ensures var t := QueueFromFifo(s, env);
      if s.queue == [] then t.request == Requested && t.uri == s.uri
      else if s.queue[0].state == AboutToActivate then t.request == Deferred && t.queue == s.queue
      else t.request != Deferred && t.queue != [] && t.queue[0].state == AboutToActivate
  {
    if s.queue != [] && s.queue[0].state == InQueue {
      RequestForHead(s, env);
      hide QueueFromFifo;
    }
  }

  /** The item which is at the head of the queue after an accepted push. */
  function HeadAfterPush(s: State, id: nat, urls: seq<Url>, keep: nat): ItemData {
    if keep == 0 || s.queue == [] then NewItem(s.hist.accepted, id, urls) else s.queue[0]
  }

  /** A request that is still open while the last stream is phased out is answered by the next
      accepted push. If the head of the queue is being activated already, the request is deferred. */
  lemma OpenRequestIsServedByPush(s: State, id: nat, urls: seq<Url>, keep: nat, env: Env)
    requires s.activated && s.request == Requested && Shape(s.queue) && !PushRefused(s, keep)
    requires s.current.Some? && s.current.value.state == AboutToPhaseOut
    ensures var it := HeadAfterPush(s, id, urls, keep); var t := Push(s, id, urls, keep, env);
      if it.state == InQueue then
        Served(t, it) <==> !Misdirected(s.current, it, env)
                           && (HandsOver(it, AtHead, env) || AwaitsAnswer(it, AtHead, env))
      else t.queue != [] && t.queue[0] == it && t.uri == s.uri && t.request == Deferred
  {
    var u := Append(ClearTail(SendReport(s), keep), id, urls);
    var it := HeadAfterPush(s, id, urls, keep);
    assert u.queue[0] == it;
    var t := QueueFromFifo(u, env);
    assert Push(s, id, urls, keep, env) == SendReport(t);
    if it.state == InQueue {
      WaitingItemIsServed(u, env);
      hide QueueFromFifo, SendReport, HandsOver, AwaitsAnswer, IsItsUri, AfterPush;
      ReportKeeps(t);
    }
  }

  // ----- heads which block the queue -----

  /** GStreamer waits for more. The head has no URI, and no answer will come for it, but it is taken for an item
      which is on its way. */
  ghost predicate Blocked(s: State) {
    && GivesWay(s.current) && s.request != NotRequested
    && s.queue != [] && s.queue[0].state == AboutToActivate && s.queue[0].resolver != Pending && !KnowsUri(s.queue[0])
  }

  /** A waiting head blocks the queue exactly if no URI is found for it, and no answer will come; or if its
      answer was taken for the current stream, and that has no use for it. */
  lemma UnusableHeadBlocks(s: State, env: Env)
    requires Waiting(s)
    ensures var it := s.queue[0];
      Blocked(QueueFromFifo(s, env)) <==>
        if Misdirected(s.current, it, env)
        then !CurrentTakes(s.current.value, env.answer(AtHead, it.selected), env)
        else !HandsOver(it, AtHead, env) && !AwaitsAnswer(it, AtHead, env)
  {
    var it := s.queue[0];
    HeadGivesWay(s, env);
    if Misdirected(s.current, it, env) {
      EqualIdsMisdirectAnswer(s, env);
    } else {
      HeadIsSearched(s, env);
    }
    hide QueueFromFifo, HandsOver, AwaitsAnswer, CurrentTakes;
  }

  lemma HeadGivesWay(s: State, env: Env)
    requires Waiting(s)
    ensures GivesWay(QueueFromFifo(s, env).current)
  {
    ResolveTouches(Put(s, AtHead, s.queue[0].(state := AboutToActivate)), AtHead, true, env);
    hide Resolve;
  }

  /** Pushes behind the head, further requests of GStreamer, and ends of streams. */
  predicate PassesBlocked(e: Event) {
    e.EvAboutToFinish? || (e.EvPush? && e.keep > 0) || e.EvEndOfStream?
  }

  /** Neither of these gets past a blocking head, in any number and order. */
  lemma {:induction false} BlockedStaysBlocked(states: seq<State>, events: seq<Event>, i: nat, j: nat)
    requires IsRun(states, events) && i <= j < |states| && Blocked(states[i])
    requires forall k {:trigger events[k]} :: i <= k < j ==> PassesBlocked(events[k])
    ensures Blocked(states[j]) && SameHead(states[i], states[j]) && states[j].uri in {"", states[i].uri}
    decreases j
  {
    if i < j {
      BlockedStaysBlocked(states, events, i, j - 1);
      assert states[j] == Step(states[j - 1], events[j - 1]);
      hide IsRun;
      BlocksStep(states[j - 1], events[j - 1]);
    }
  }

  /** The same item, except that a start may be required for it. */
  predicate SameHead(s: State, t: State) {
    && s.queue != [] && t.queue != []
    && t.queue[0] == s.queue[0].(startRequired := t.queue[0].startRequired)
  }

  lemma BlocksRequest(s: State, env: Env)
    requires Blocked(s) && s.request == Requested
    ensures QueueFromFifo(s, env) == s.(request := Deferred)
  {
  }

  lemma BlocksStep(s: State, e: Event)
    requires Blocked(s) && Enabled(s, e) && PassesBlocked(e)
    ensures var t := Step(s, e); Blocked(t) && SameHead(s, t) && t.uri in {"", s.uri}
  {
    if e.EvPush? {
      hide Push;
      BlocksPush(s, e.id, e.urls, e.keep, e.env);
    } else if e.EvAboutToFinish? {
      BlocksRequest(s.(request := Requested), e.env);
    } else {
      BlockedAtEnd(s);
    }
  }

  lemma BlocksPush(s: State, id: nat, urls: seq<Url>, keep: nat, env: Env)
    requires Blocked(s) && keep > 0
    ensures var t := Push(s, id, urls, keep, env); Blocked(t) && t.queue[0] == s.queue[0] && t.uri == s.uri
  {
    assert SendReport(s).queue == s.queue && Blocked(SendReport(s)) && SendReport(s).uri == s.uri by { ReportKeeps(s); }
    hide SendReport, QueueFromFifo;
    if s.activated && !PushRefused(s, keep) {
      var u := Append(ClearTail(SendReport(s), keep), id, urls);
      assert u.queue[0] == s.queue[0] && Blocked(u) && u.uri == s.uri;
      if u.request == Requested {
        BlocksRequest(u, env);
      }
      ReportKeeps(AfterPush(SendReport(s), id, urls, keep, env));
    }
  }

  /** When the stream before it ends, the player stops and reports, unless the call for the link of the head is over.
      In this case the source waits for an answer which will never come: the player is not stopped, nothing is
      reported, and nothing is played. */
  lemma BlockedAtEnd(s: State)
    requires Blocked(s)
    ensures var t := EndOfStream(s);
      && Blocked(t) && SameHead(s, t) && t.uri == "" && t.current == None
      && if HasUrl(s.queue[0]) && s.queue[0].resolver == Over
         then t.status == s.status && t.hist == s.hist && t.removed == s.removed && t.dropped == s.dropped
         else t.status == Stopped && t.removed == [] && t.dropped == {}
  {
    hide PendingReport;
  }

  lemma ReportKeeps(s: State)
    ensures var t := SendReport(s);
      && t.queue == s.queue && t.current == s.current && t.uri == s.uri && t.request == s.request && t.cap == s.cap
  {
  }
}

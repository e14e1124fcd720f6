/** The transport engine: handlers which update the queue, the items and the pipeline data in
    place. Each does what the corresponding function of module Player says. */
module Streamer {
  import opened Base
  import opened PlayItem
  import opened Player
  import opened PlayerInvariant
  import opened DropReport
  import opened UrlFifo

  ghost function TagSeq(items: seq<Item>): seq<Tag> {
    seq(|items|, i requires 0 <= i < |items| => Tag(items[i].num, items[i].id))
  }

  class Engine {
    const fifo: Queue<Item>
    var current: Item?
    var activated: bool
    var status: PlayStatus
    var protectedOnce: bool
    var request: Request
    var justStarted: bool
    var uri: string
    var emitted: seq<seq<nat>>
    ghost var asked: seq<bool>
    ghost var hist: History

    ghost function Queued(): seq<ItemData>
      reads this, fifo, fifo.queue
    {
      seq(|fifo.queue|, i requires 0 <= i < |fifo.queue| reads this, fifo, fifo.queue => fifo.queue[i].View())
    }

    ghost function Current(): Option<ItemData>
      reads this, current
    {
      if current == null then None else Some(current.View())
    }

    ghost function View(): State
      reads this, fifo, fifo.queue, current
    {
      State(fifo.cap, activated, status, Queued(), TagSeq(fifo.removed), fifo.dropped, Current(),
            protectedOnce, request, justStarted, uri, asked, hist)
    }

    /** No two pointers lead to the same item, all items are well-formed, and the arrays
        emitted so far list the reports. */
    ghost predicate Sound()
      reads this, fifo, fifo.queue, current
    {
      && (forall i, j :: 0 <= i < j < |fifo.queue| ==> fifo.queue[i] != fifo.queue[j])
      && (forall i :: 0 <= i < |fifo.queue| ==> fifo.queue[i] != current && fifo.queue[i].Valid())
      && (current != null ==> current.Valid())
      && |emitted| == |hist.reports|
      && (forall i :: 0 <= i < |emitted| ==> Listing(emitted[i], hist.reports[i]))
    }

    ghost predicate Valid()
      reads this, fifo, fifo.queue, current
    {
      Sound() && Inv(hist, View())
    }

    /** Item pointers lead to the current stream or to the head of the queue. */
    ghost predicate Known(it: Item)
      reads this, fifo
    {
      it == current || (fifo.queue != [] && it == fifo.queue[0])
    }

    ghost function LocOf(it: Item): Loc
      reads this
    {
      if it == current then AtCurrent else AtHead
    }

    constructor (cap: nat)
      ensures Valid() && View() == Initial(cap)
    {
      fifo := new Queue(cap);
      current, activated, status, protectedOnce := null, false, Stopped, false;
      request, justStarted, uri, emitted := NotRequested, false, "", [];
      asked, hist := [], History(0, [], [], [], [], []);
      new;
      assert View() == Initial(cap);
      assert IsRun([Initial(cap)], []);
      RunKeepsInv([Initial(cap)], [], 0, 0);
    }

    /** If only the item pointed to has changed, only that place of the view has. */
    twostate lemma OnlyItemChanged(it: Item)
      requires old(Sound()) && old(Known(it))
      requires fifo.queue == old(fifo.queue) && current == old(current)
      requires emitted == old(emitted) && hist == old(hist)
      requires forall i :: 0 <= i < |fifo.queue| && fifo.queue[i] != it ==>
        fifo.queue[i].View() == old(fifo.queue[i].View())
      requires current != null && current != it ==> current.View() == old(current.View())
      requires it.Valid()
      ensures Sound() && Known(it) && LocOf(it) == old(LocOf(it))
      ensures old(Has(View(), LocOf(it))) && old(Get(View(), LocOf(it))) == old(it.View())
      ensures Queued() == if it == current then old(Queued()) else old(Queued())[0 := it.View()]
      ensures Current() == if it == current then Some(it.View()) else old(Current())
    {
      if it == current {
        assert Queued() == old(Queued());
      } else {
        assert Queued() == old(Queued())[0 := it.View()];
      }
    }

    method SetState(it: Item, state: ItemState)
      requires Sound() && Known(it)
      modifies it`state
      ensures Sound()
      ensures View() == Put(old(View()), LocOf(it), old(it.View()).(state := state))
    {
      it.SetState(state);
      OnlyItemChanged(it);
    }

    method FailCurrent() returns (first: bool)
      requires Sound() && current != null
      modifies current`failed
      ensures Sound() && first == !old(current.failed)
      ensures View() == Put(old(View()), AtCurrent, old(current.View()).(failed := true))
    {
      first := current.Fail();
      OnlyItemChanged(current);
    }

    // ----- the queue and the reports -----

    method TakeHead()
      requires Sound()
      modifies this`current, this`hist, fifo
      ensures Sound() && View() == Player.TakeHead(old(View()))
      ensures old(fifo.queue) != [] ==> current == old(fifo.queue)[0] && fifo.queue == old(fifo.queue)[1..]
      ensures old(fifo.queue) == [] ==> current == old(current) && fifo.queue == []
    {
      var head := fifo.Pop();
      if head.Some? {
        current := head.value;
        hist := hist.(played := hist.played + [current.num]);
      }
      assert Queued() == if old(fifo.queue) == [] then [] else old(Queued())[1..];
    }

    method PopDrop()
      requires Sound()
      modifies fifo
      ensures Sound() && View() == Player.PopDrop(old(View()))
      ensures forall o :: o in fifo.queue ==> o in old(fifo.queue)
    {
      var ok := fifo.PopDrop();
      if ok {
        assert fifo.removed == old(fifo.removed) + [old(fifo.queue)[0]];
        assert Queued() == old(Queued())[1..];
        assert TagSeq(fifo.removed) == old(TagSeq(fifo.removed)) + [TagOf(old(Queued())[0])];
      }
    }

    method ClearTail(keep: nat)
      requires Sound()
      modifies fifo
      ensures Sound() && View() == Player.ClearTail(old(View()), keep)
      ensures current == old(current) && fifo.queue == old(fifo.queue)[..Min(keep, |old(fifo.queue)|)]
    {
      hide Listing;
      var _ := fifo.Clear(keep);
      var k := Min(keep, |old(fifo.queue)|);
      assert Queued() == old(Queued())[..k];
      assert TagSeq(fifo.removed) == old(TagSeq(fifo.removed)) + Tags(old(Queued())[k..]);
    }

    method MarkDropped(id: nat)
      requires Sound()
      modifies this`hist, fifo
      ensures Sound() && View() == Player.MarkDropped(old(View()), id)
      ensures fifo.queue == old(fifo.queue)
    {
      fifo.MarkAsDropped(id);
      hist := hist.(marks := hist.marks + [Mark(id, |hist.reports|)]);
      assert Queued() == old(Queued());
    }

    /** Takes what is to be reported out of the queue. */
    method DrainReport() returns (ids: seq<nat>)
      requires Sound()
      modifies fifo
      ensures Sound() && View() == Drain(old(View()))
      ensures Listing(ids, PendingReport(old(View())))
      ensures fifo.queue == old(fifo.queue)
    {
      var removed := fifo.GetRemoved();
      var dropped := fifo.GetDropped();
      var removedIds := seq(|removed|, i requires 0 <= i < |removed| => removed[i].id);
      assert removedIds == IdsInOrder(TagSeq(removed));
      SameMembers(TagSeq(removed));
      ids := MkIdArray(removedIds, dropped);
      assert Queued() == old(Queued());
    }

    method Emit(ids: seq<nat>, ghost report: Report)
      requires Sound() && Listing(ids, report)
      modifies this`hist, this`emitted
      ensures Sound() && View() == old(View()).(hist := old(hist).(reports := old(hist).reports + [report]))
    {
      hide Listing;
      emitted := emitted + [ids];
      hist := hist.(reports := hist.reports + [report]);
      assert Queued() == old(Queued());
    }

    method SendReport()
      requires Sound()
      modifies this`hist, this`emitted, fifo
      ensures Sound() && View() == Player.SendReport(old(View()))
      ensures fifo.queue == old(fifo.queue)
    {
      hide Listing, PendingReport;
      ghost var report := PendingReport(View());
      var ids := DrainReport();
      Emit(ids, report);
    }

    method EmitStopped()
      requires Sound()
      modifies this`status, this`uri, this`hist, this`emitted, fifo
      ensures Sound() && View() == Player.EmitStopped(old(View()))
      ensures fifo.queue == old(fifo.queue)
    {
      hide Listing;
      status, uri := Stopped, "";
      assert View() == old(View()).(status := Stopped, uri := "") by { assert Queued() == old(Queued()); }
      hide PendingReport;
      ghost var report := PendingReport(View());
      var ids := DrainReport();
      EmptyListing(ids, report);
      if current == null && ids == [] {
        return;
      }
      Emit(ids, report);
    }

    method EmitStoppedWithError(failed: Item?)
      requires Sound()
      modifies this`status, this`uri, this`hist, this`emitted, fifo
      ensures Sound() && fifo.queue == old(fifo.queue)
      ensures View() == Player.EmitStoppedWithError(old(View()), if failed == null then None else Some(failed.num))
    {
      hide Player.SendReport, Listing;
      status, uri := Stopped, "";
      assert View() == old(View()).(status := Stopped, uri := "") by { assert Queued() == old(Queued()); }
      SendReport();
      ghost var sent := View();
      if failed != null {
        hist := hist.(blamed := hist.blamed + [failed.num]);
      }
      assert Queued() == sent.queue;
    }

    method ErrorRecovery()
      requires Sound()
      modifies this, fifo
      ensures Sound() && View() == Player.ErrorRecovery(old(View()))
      ensures fifo.queue == old(fifo.queue) && current == null
    {
      hide Listing, Player.EmitStoppedWithError;
      request := NotRequested;
      assert View() == old(View()).(request := NotRequested) by { assert Queued() == old(Queued()); }
      EmitStoppedWithError(current);
      ghost var stopped := View();
      current := null;
      justStarted := false;
      request := NotRequested;
      assert View() == stopped.(current := None, justStarted := false) by { assert Queued() == stopped.queue; }
    }

    // ----- choosing the next item -----

    method PickNextItem() returns (next: Item?, inFifo: bool)
      requires Sound()
      ensures next == null <==> PickNext(View()) == None
      ensures next != null ==> Known(next) && PickNext(View()) == Some(LocOf(next))
      ensures inFifo == (PickNext(View()) == Some(AtHead))
    {
      if current != null {
        match current.state
        case InQueue => return current, false;
        case AboutToActivate => return current, false;
        case ActiveHalfPlaying => return current, false;
        case ActiveNowPlaying =>
        case AboutToPhaseOut =>
        case AboutToBeSkipped =>
      }
      if fifo.queue == [] {
        return null, false;
      }
      next, inFifo := fifo.queue[0], true;
    }

    method TryTakeNext() returns (next: Item?, replaced: bool, justQueued: bool)
      requires Sound()
      modifies this, fifo, fifo.queue, current
      ensures Sound()
      ensures forall o :: o in fifo.queue ==> o in old(fifo.queue)
      ensures current == null || current == old(current) || current in old(fifo.queue)
      ensures var r := Player.TryTakeNext(old(View()));
        && View() == r.s && (next != null) == r.found && replaced == r.replaced
        && (next != null ==> next == current && justQueued == (next.state == InQueue))
    {
      var inFifo;
      next, inFifo := PickNextItem();
      justQueued := false;
      if next != null && next.urls != [] {
        replaced := inFifo;
        if replaced {
          TakeHead();
          next := current;
        }
        justQueued := current.state == InQueue;
        return;
      }
      next := null;
      replaced := current != null;
      if replaced {
        TakeHead();
        var _ := FailCurrent();
      } else if fifo.queue != [] {
        PopDrop();
      } else {
        ErrorRecovery();
      }
    }

    // ----- resolving links and handing URIs to GStreamer -----

    /** Buffering is encouraged for the current stream, so there must be one if the pipeline accepts to start. */
    method OnLinkResolved(it: Item, prefetch: bool, env: Env) returns (ok: bool)
      requires Sound() && Known(it)
      requires Has(View(), LocOf(it)) && !StartsWithoutCurrent(View(), LocOf(it), prefetch, env)
      modifies this`uri, this`request, this`asked, it`startRequired
      ensures Sound() && (View(), ok) == Player.OnLinkResolved(old(View()), LocOf(it), prefetch, env)
    {
      hide Listing, UrlForPlaying, Player.OnLinkResolved;
      ViewOfKnown(it);
      InOrderOfCalls(View(), LocOf(it), prefetch, env);
      PassUri(it);
      ViewOfKnown(it);
      if prefetch {
        var required := UseUpMark(it);
        if !required {
          return true;
        }
      }
      ok := AskPipeline(env);
    }

    method PassUri(it: Item)
      requires Sound() && Known(it)
      modifies this`uri, this`request
      ensures Sound() && Known(it) && LocOf(it) == old(LocOf(it)) && it.View() == old(it.View())
      ensures View() == old(View()).(uri := UrlForPlaying(it.View()), request := NotRequested)
    {
      hide Listing, UrlForPlaying;
      uri := it.GetUrlForPlaying();
      request := NotRequested;
      assert Queued() == old(Queued());
    }

    lemma InOrderOfCalls(s: State, loc: Loc, prefetch: bool, env: Env)
      requires Has(s, loc)
      ensures var it := Get(s, loc); var t := s.(uri := UrlForPlaying(it), request := NotRequested);
        var u := if prefetch then Put(t, loc, it.(startRequired := false)) else t;
        Player.OnLinkResolved(s, loc, prefetch, env) ==
          if prefetch && !it.startRequired then (u, true)
          else (u.(asked := u.asked + [env.pipelineOk]), env.pipelineOk)
    {
      if prefetch && !Get(s, loc).startRequired && loc.AtHead? {
        assert s.queue[0 := s.queue[0].(startRequired := false)] == s.queue;
      }
    }

    method UseUpMark(it: Item) returns (required: bool)
      requires Sound() && Known(it)
      modifies it`startRequired
      ensures Sound() && required == old(it.startRequired)
      ensures View() == Put(old(View()), LocOf(it), old(it.View()).(startRequired := false))
    {
      required := it.IsPipelineStartRequired();
      OnlyItemChanged(it);
    }

    method AskPipeline(env: Env) returns (ok: bool)
      requires Sound() && (env.pipelineOk ==> current != null)
      modifies this`asked
      ensures Sound() && ok == env.pipelineOk && View() == old(View()).(asked := old(asked) + [ok])
    {
      ok := env.pipelineOk;
      asked := asked + [ok];
      assert Queued() == old(Queued());
      if ok {
        var encouraged: Item := current;
      }
    }

    method FinishResolver(it: Item, uri: string, valid: nat, now: int) returns (r: ResolverResult)
      requires Sound() && Known(it)
      modifies it`urls, it`resolver
      ensures Sound() && View() == Put(old(View()), LocOf(it), ResolverFinish(old(it.View()), uri, valid, now))
      ensures r == if uri != "" then Resolved else if HasMoreUrls(it.View()) then HaveMoreUrls else Failed
    {
      r := it.FinishResolver(uri, valid, now);
      OnlyItemChanged(it);
    }

    method SelectNext(it: Item, now: int) returns (ok: bool)
      requires Sound() && Known(it)
      modifies it`urls, it`selected
      ensures Sound() && ok == SelectNextUrl(old(it.View()), now).1
      ensures View() == Put(old(View()), LocOf(it), SelectNextUrl(old(it.View()), now).0)
    {
      ok := it.SelectNext(now);
      OnlyItemChanged(it);
    }

    method MarkResolving(it: Item, resolver: Resolver)
      requires Sound() && Known(it)
      modifies it`resolver
      ensures Sound() && View() == Put(old(View()), LocOf(it), old(it.View()).(resolver := resolver))
    {
      it.resolver := resolver;
      OnlyItemChanged(it);
    }

    lemma ViewOfKnown(it: Item)
      requires Sound() && Known(it)
      ensures Has(View(), LocOf(it)) && Get(View(), LocOf(it)) == it.View()
    {
    }

    method Resolve(it: Item, prefetch: bool, env: Env) returns (ok: bool)
      requires Sound() && Known(it)
      requires Has(View(), LocOf(it)) && !ResolveFollowsNull(View(), LocOf(it), prefetch, env)
      modifies this`uri, this`request, this`asked, it, current
      ensures Sound() && (View(), ok) == Player.Resolve(old(View()), LocOf(it), prefetch, env)
      decreases Rank(LocOf(it)), Remaining(it.View()), 1
    {
      hide Listing, Player.Resolve, Player.OnLinkResolved, SelectedUrlState, ResolveFollowsNull, StartsWithoutCurrent;
      ViewOfKnown(it);
      UrlIsHandled(View(), LocOf(it), prefetch, env);
      var s := it.GetSelectedUrlState();
      match s
      case KnownDirectUrl => ok := OnLinkResolved(it, prefetch, env);
      case KnownResolvedUrl => ok := OnLinkResolved(it, prefetch, env);
      case ResolvingLink => ok := true;
      case Broken => ok := false;
      case KnownAirableLink => ok := ResolveLink(it, prefetch, env);
    }

    lemma UrlIsHandled(s: State, loc: Loc, prefetch: bool, env: Env)
      requires Has(s, loc)
      ensures var it := Get(s, loc); var r := Player.Resolve(s, loc, prefetch, env);
        match SelectedUrlState(it) {
          case ResolvingLink => r == (s, true)
          case Broken => r == (s, false)
          case KnownAirableLink => true
          case _ =>
            && r == Player.OnLinkResolved(s, loc, prefetch, env)
            && (ResolveFollowsNull(s, loc, prefetch, env) <==> StartsWithoutCurrent(s, loc, prefetch, env))
        }
    {
      hide Player.OnLinkResolved, Player.LinkAnswered;
    }

    /** The request for a link; an answer may come before it returns. */
    method ResolveLink(it: Item, prefetch: bool, env: Env) returns (ok: bool)
      requires Sound() && Known(it) && SelectedUrlState(it.View()) == KnownAirableLink
      requires Has(View(), LocOf(it)) && !ResolveFollowsNull(View(), LocOf(it), prefetch, env)
      modifies this`uri, this`request, this`asked, it, current
      ensures Sound() && (View(), ok) == Player.Resolve(old(View()), LocOf(it), prefetch, env)
      decreases Rank(LocOf(it)), Remaining(it.View()), 0, 1
    {
      hide Listing, Player.Resolve, Player.LinkAnswered, SelectedUrlState, ResolveFollowsNull, AnswerFollowsNull;
      ViewOfKnown(it);
      LinkIsRequested(View(), LocOf(it), prefetch, env);
      var answer := env.answer(if it == current then AtCurrent else AtHead, it.selected);
      MarkResolving(it, Called(answer));
      ok := true;
      match answer
      case Cookie =>
      case CallFailed =>
      case Fast(uri, valid) =>
        var found := if current != null && current.id == it.id then current else it;
        LinkAnswered(found, uri, valid, prefetch, env);
    }

    lemma LinkIsRequested(s: State, loc: Loc, prefetch: bool, env: Env)
      requires Has(s, loc) && SelectedUrlState(Get(s, loc)) == KnownAirableLink
      ensures var it := Get(s, loc); var t := Put(s, loc, it.(resolver := Called(env.answer(loc, it.selected))));
        var found := if t.current.Some? && t.current.value.id == it.id then AtCurrent else loc;
        match env.answer(loc, it.selected) {
          case Fast(uri, valid) =>
            && Player.Resolve(s, loc, prefetch, env) == (Player.LinkAnswered(t, found, uri, valid, prefetch, env), true)
            && (AnswerFollowsNull(t, found, uri, prefetch, env) ==> ResolveFollowsNull(s, loc, prefetch, env))
          case _ => Player.Resolve(s, loc, prefetch, env) == (t, true)
        }
    {
      hide Player.LinkAnswered;
    }

    method LinkAnswered(it: Item, uri: string, valid: nat, prefetch: bool, env: Env)
      requires Sound() && Known(it)
      requires Has(View(), LocOf(it)) && !AnswerFollowsNull(View(), LocOf(it), uri, prefetch, env)
      modifies this`uri, this`request, this`asked, it, current
      ensures Sound() && View() == Player.LinkAnswered(old(View()), LocOf(it), uri, valid, prefetch, env)
      decreases Rank(LocOf(it)), Remaining(it.View()), 0, 0
    {
      hide Listing, Player.Resolve, Player.LinkAnswered, Player.OnLinkResolved, SelectNextUrl, ResolverFinish, FindsUri;
      hide AnswerFollowsNull, StartsWithoutCurrent;
      ViewOfKnown(it);
      AnswerLeadsOn(View(), LocOf(it), uri, valid, prefetch, env);
      var result := FinishResolver(it, uri, valid, env.now);
      ViewOfKnown(it);
      match result
      case Resolved =>
        var _ := OnLinkResolved(it, prefetch, env);
      case HaveMoreUrls =>
        TryNextUrl(it, prefetch, env);
      case Failed =>
    }

    /** What the answer is followed by, and that the source follows no null pointer then if it does not before. */
    lemma AnswerLeadsOn(s: State, loc: Loc, uri: string, valid: nat, prefetch: bool, env: Env)
      requires Has(s, loc)
      ensures var it := ResolverFinish(Get(s, loc), uri, valid, env.now); var t := Put(s, loc, it);
        var r := Player.LinkAnswered(s, loc, uri, valid, prefetch, env);
        var fine := !AnswerFollowsNull(s, loc, uri, prefetch, env);
        if uri != "" then
          r == Player.OnLinkResolved(t, loc, prefetch, env).0 && (fine ==> !StartsWithoutCurrent(t, loc, prefetch, env))
        else if !HasMoreUrls(it) then r == t
        else
          var next := it.(selected := it.selected + 1);
          && SelectNextUrl(it, env.now) == (next, true) && Remaining(it) == Remaining(Get(s, loc))
          && r == Player.Resolve(Put(t, loc, next), loc, prefetch, env).0
          && (fine && StartsWithoutCurrent(t, loc, prefetch, env) ==>
                !FindsUri(it.urls, it.selected + 1, AnswersFor(loc, env)))
    {
      hide Player.Resolve, Player.OnLinkResolved, FindsUri;
      var it := ResolverFinish(Get(s, loc), uri, valid, env.now);
      FindsUriIsLocal(it.urls, Get(s, loc).urls, it.selected + 1, AnswersFor(loc, env));
    }

    /** The selection never fails here, as there are more URLs. */
    method TryNextUrl(it: Item, prefetch: bool, env: Env)
      requires Sound() && Known(it)
      requires SelectNextUrl(it.View(), env.now) == (it.View().(selected := it.selected + 1), true)
      requires HasMoreUrls(it.View()) && Has(View(), LocOf(it))
      requires StartsWithoutCurrent(View(), LocOf(it), prefetch, env) ==>
        it.resolver != NotAsked || !FindsUri(it.urls, it.selected + 1, AnswersFor(LocOf(it), env))
      modifies this`uri, this`request, this`asked, it, current
      ensures Sound()
      ensures View() == Player.Resolve(Put(old(View()), LocOf(it), old(it.View()).(selected := old(it.selected) + 1)),
                                       LocOf(it), prefetch, env).0
      decreases Rank(LocOf(it)), Remaining(it.View()) - 1, 2
    {
      ViewOfKnown(it);
      hide Player.Resolve, SelectNextUrl;
      var ok := SelectNext(it, env.now);
      ViewOfKnown(it);
      if !ok {
        assert false;
      }
      var _ := Resolve(it, prefetch, env);
    }

    // ----- playing -----

    method PlayNextStream(replaced: Item?, next: Item, skipping: bool, prefetch: bool, env: Env) returns (ok: bool)
      requires Sound() && Known(next) && (replaced != null ==> replaced == current)
      requires Has(View(), LocOf(next))
      requires next.state == InQueue ==> !ResolveFollowsNull(View(), LocOf(next), prefetch, env)
      modifies this`uri, this`request, this`asked, next, replaced, current
      ensures Sound()
      ensures (View(), ok) == PlayNext(old(View()), replaced != null, LocOf(next), skipping, prefetch, env)
    {
      hide Player.Resolve, Listing;
      ViewOfKnown(next);
      match next.state
      case ActiveHalfPlaying => ok := false;
      case ActiveNowPlaying => ok := false;
      case AboutToPhaseOut => ok := false;
      case AboutToBeSkipped => ok := false;
      case AboutToActivate =>
        if replaced == null && request == Requested {
          request := Deferred;
          assert Queued() == old(Queued());
        }
        ok := true;
      case InQueue =>
        ghost var taken := Activating(View(), replaced != null, LocOf(next), skipping);
        PrepareToPlay(replaced, next, skipping);
        ok := Resolve(next, prefetch, env);
        assert (View(), ok) == Player.Resolve(taken, LocOf(next), prefetch, env);
    }

    method PrepareToPlay(replaced: Item?, next: Item, skipping: bool)
      requires Sound() && Known(next) && (replaced != null ==> replaced == current)
      modifies next`state, replaced
      ensures Sound() && Has(View(), LocOf(next))
      ensures View() == Activating(old(View()), replaced != null, LocOf(next), skipping)
    {
      ViewOfKnown(next);
      SetState(next, AboutToActivate);
      ViewOfKnown(next);
      if replaced != null {
        SetState(replaced, if skipping then AboutToBeSkipped else AboutToPhaseOut);
      }
    }

    method QueueStreamFromFifo(env: Env)
      requires Sound() && HeadMayBeHandedOver(View(), env)
      modifies this`uri, this`request, this`asked, fifo.queue, current
      ensures Sound() && View() == QueueFromFifo(old(View()), env)
    {
      hide PlayNext;
      var next, inFifo := PickNextItem();
      if next == null {
        if current != null {
          SetState(current, AboutToPhaseOut);
        }
        return;
      }
      var _ := PlayNextStream(if inFifo then null else current, next, false, true, env);
    }

    method TryPlayNextStream(env: Env)
      requires Sound()
      modifies this, fifo, fifo.queue, current
      ensures Sound() && View() == TryPlayNext(old(View()), env)
    {
      hide PlayNext, Player.TryTakeNext;
      var next, isCurrent, justQueued := TryTakeNext();
      if next != null && (isCurrent || justQueued) {
        var _ := PlayNextStream(null, next, false, false, env);
      }
    }

    method ActivateStream(phase: nat) returns (result: Activation)
      requires Sound()
      modifies current
      ensures Sound() && (View(), result) == Player.ActivateStream(old(View()), phase)
    {
      if current == null {
        return InvalidItem;
      }
      ViewOfKnown(current);
      match current.state
      case ActiveHalfPlaying =>
        if phase <= 1 {
          return AlreadyActive;
        }
        if phase == 2 {
          SetState(current, if fifo.queue == [] then AboutToPhaseOut else ActiveNowPlaying);
          return Activated;
        }
        result := InvalidState;
      case ActiveNowPlaying =>
        result := if phase == 0 || phase == 2 then AlreadyActive else InvalidState;
      case AboutToPhaseOut =>
        result := if phase == 0 || phase == 2 then AlreadyActive else InvalidState;
      case InQueue =>
        SetState(current, AboutToBeSkipped);
        result := InvalidState;
      case AboutToBeSkipped =>
        result := InvalidState;
      case AboutToActivate =>
        if phase <= 1 {
          SetState(current, ActiveHalfPlaying);
          return Activated;
        }
        if phase == 2 {
          SetState(current, ActiveNowPlaying);
          return Activated;
        }
        result := InvalidState;
    }

    // ----- handlers -----

    lemma Settled(h: History, s: State, e: Event)
      requires Sound() && Inv(h, s) && Enabled(s, e) && View() == Step(s, e)
      ensures Valid()
    {
      hide Step, Accounted, MarksAccounted, InOrder, Shape, ItemsValid;
      StepKeepsInv(h, s, e);
    }

    method AboutToFinish(env: Env)
      requires Valid() && Enabled(View(), EvAboutToFinish(env))
      modifies this`uri, this`request, this`asked, fifo.queue, current
      ensures Valid() && View() == Player.AboutToFinish(old(View()), env)
    {
      hide Inv, QueueFromFifo;
      request := Requested;
      assert Queued() == old(Queued());
      QueueStreamFromFifo(env);
      Settled(old(hist), old(View()), EvAboutToFinish(env));
    }

    method EndOfStream() returns (restart: bool)
      requires Valid()
      modifies this, fifo, fifo.queue
      ensures Valid() && View() == Player.EndOfStream(old(View()))
      ensures restart == (old(View()).queue != [] && KnowsUri(old(View()).queue[0]))
    {
      hide Inv;
      restart := FinishStream();
      hide Player.EndOfStream, KnowsUri;
      Settled(old(hist), old(View()), EvEndOfStream);
    }

    method FinishStream() returns (restart: bool)
      requires Sound()
      modifies this, fifo, fifo.queue
      ensures Sound() && View() == Player.EndOfStream(old(View()))
      ensures restart == (old(View()).queue != [] && KnowsUri(old(View()).queue[0]))
    {
      hide Listing, Player.EmitStopped, SelectedUrlState, KnowsUri;
      restart := StopUnlessMoreToPlay();
      ghost var ended := View();
      current := null;
      uri := "";
      assert Queued() == ended.queue;
    }

    method StopUnlessMoreToPlay() returns (restart: bool)
      requires Sound()
      modifies this`status, this`uri, this`hist, this`emitted, fifo, fifo.queue
      ensures Sound()
      ensures View() ==
        if old(fifo.queue) == [] then Player.EmitStopped(old(View()))
        else
          var u := Put(old(View()), AtHead, old(View()).queue[0].(startRequired := true));
          if StartRequiredFor(SelectedUrlState(old(View()).queue[0])) == NotRequired then Player.EmitStopped(u) else u
      ensures restart == (old(View()).queue != [] && KnowsUri(old(View()).queue[0]))
    {
      restart := false;
      if fifo.queue == [] {
        EmitStopped();
      } else {
        ViewOfKnown(fifo.queue[0]);
        var required := RequireStart(fifo.queue[0]);
        match required
        case NotRequired => EmitStopped();
        case StartNow => restart := true;
        case WhenReady =>
      }
    }

    method RequireStart(it: Item) returns (r: StartRequired)
      requires Sound() && Known(it)
      modifies it`startRequired
      ensures Sound() && View() == Put(old(View()), LocOf(it), old(it.View()).(startRequired := true))
      ensures r == StartRequiredFor(SelectedUrlState(old(it.View())))
    {
      r := it.PipelineStartRequiredWhenReady();
      OnlyItemChanged(it);
    }

    /** Only the first stream of the queue may be on its way to GStreamer, hence no other state is
        ever found there. */
    method StreamStart(buffering: bool, env: Env)
      requires Valid()
      requires current != null || (buffering && fifo.queue != [])
      modifies this, fifo, fifo.queue, current
      ensures Valid() && View() == Player.StreamStart(old(View()), env)
    {
      hide Inv, Shape, Player.StreamStart;
      ShapeOf(hist, View());
      StartStream(env);
      Settled(old(hist), old(View()), EvStreamStart(buffering, env));
    }

    method StartStream(env: Env)
      requires Sound() && Shape(Queued()) && (current != null || fifo.queue != [])
      modifies this, fifo, fifo.queue, current
      ensures Sound() && View() == Player.StreamStart(old(View()), env)
    {
      hide QueueFromFifo, Started, PushesDeferred;
      var push := StartPicked();
      if push {
        ghost var started := View();
        request := Requested;
        assert Queued() == started.queue;
        QueueStreamFromFifo(env);
      }
    }

    lemma ShapeOf(h: History, s: State)
      requires Inv(h, s)
      ensures Shape(s.queue)
    {
    }

    /** Puts the stream that has started into place; tells whether there is a request to be
        answered now. */
    method StartPicked() returns (push: bool)
      requires Sound() && Shape(Queued()) && (current != null || fifo.queue != [])
      modifies this, fifo, fifo.queue, current
      ensures Sound() && View() == Started(old(View())).0
      ensures || (fifo.queue == old(fifo.queue) && current == old(current))
              || (old(fifo.queue) != [] && fifo.queue == old(fifo.queue)[1..] && current == old(fifo.queue)[0])
      ensures push == PushesDeferred(old(View()), PickStarted(old(View())).value)
      ensures current != null
    {
      hide Listing, PickStarted, Shape, Inv, StartedAs, NeedsActivation;
      var picked, inFifo := PickStartedItem();
      ViewOfKnown(picked);
      push := picked.state in {InQueue, AboutToBeSkipped, AboutToPhaseOut, AboutToActivate} && request == Deferred;
      var activate := NeedsToActivate(picked);
      assert Started(old(View())).0 == StartedAs(old(View()), inFifo, activate).0;
      hide Started;
      ActivatePicked(inFifo, activate);
    }

    method PickStartedItem() returns (picked: Item, inFifo: bool)
      requires Sound() && (current != null || fifo.queue != [])
      ensures Known(picked) && PickStarted(View()) == Some(LocOf(picked)) && inFifo == LocOf(picked).AtHead?
    {
      hide Listing;
      var next;
      next, inFifo := PickNextItem();
      picked := if next != null then next else current;
    }

    method NeedsToActivate(picked: Item) returns (activate: bool)
      requires Sound() && Shape(Queued()) && Known(picked)
      ensures Has(View(), LocOf(picked)) && activate == NeedsActivation(View(), LocOf(picked))
    {
      ViewOfKnown(picked);
      activate := true;
      match picked.state
      case InQueue =>
      case AboutToBeSkipped =>
      case AboutToPhaseOut =>
      case AboutToActivate =>
      case ActiveNowPlaying => activate := false;
      case ActiveHalfPlaying =>
        if fifo.queue == [] {
          return false;
        }
        assert fifo.queue[0].View() == Queued()[0];
        match fifo.queue[0].state {
          case AboutToActivate =>
          case InQueue => activate := false;
          case _ => assert false;
        }
    }

    method ActivatePicked(inFifo: bool, activate: bool)
      requires Sound() && (if inFifo then fifo.queue != [] else current != null)
      modifies this, fifo, fifo.queue, current
      ensures Sound()
      ensures fifo.queue == if inFifo then old(fifo.queue)[1..] else old(fifo.queue)
      ensures current == if inFifo then old(fifo.queue)[0] else old(current)
      ensures View() == StartedAs(old(View()), inFifo, activate).0
    {
      if inFifo {
        TakeHead();
      }
      if activate {
        SetState(current, ActiveHalfPlaying);
      }
      var result := ActivateStream(2);
      if result == Activated {
        SendReport();
      }
    }

    method StateChanged(c: Change)
      requires Valid() && Enabled(View(), EvStateChanged(c))
      modifies this, fifo, current
      ensures Valid() && View() == Player.StateChanged(old(View()), c)
    {
      hide Inv;
      ChangeState(c);
      hide Player.StateChanged;
      Settled(old(hist), old(View()), EvStateChanged(c));
    }

    /** The source reads the current stream when it is told that playback goes on, and when buffering ends. */
    method ChangeState(c: Change)
      requires Sound() && (ChangeReadsCurrent(View(), c) ==> current != null)
      modifies this, fifo, current
      ensures Sound() && View() == Player.StateChanged(old(View()), c)
    {
      hide Player.TargetReached;
      if c.ofDecoder && c.state in {GstPaused, GstPlaying, Ready} && current != null {
        PrefailCurrent();
      }
      if !c.ofPipeline || (c.state == c.before && c.state in {Ready, Null}) {
        return;
      }
      ghost var seen := View();
      if c.state == GstPaused && c.before in {Ready, Null} && c.pending == GstPlaying {
        justStarted := true;
        if c.filled && c.target == GstPaused {
          var filled: Item := current;
        }
      }
      assert Queued() == seen.queue;
      if c.pending == VoidPending {
        if justStarted && c.target == GstPlaying && !c.buffering {
          var told: Item := current;
        }
        TargetReached(c.target);
        if c.filled && c.target == GstPaused {
          var filled: Item := current;
        }
      }
    }

    method TargetReached(target: GstState)
      requires Sound()
      modifies this, fifo, current
      ensures Sound() && View() == Player.TargetReached(old(View()), target)
      ensures target == GstPaused ==> current == old(current)
    {
      hide Player.ActivateStream, Player.ReachedReady;
      match target
      case Ready => ReachedReady();
      case GstPaused => var _ := ActivateStream(0);
      case GstPlaying =>
        if !justStarted {
          var _ := ActivateStream(0);
        }
        ghost var now := View();
        justStarted := false;
        assert Queued() == now.queue;
      case VoidPending =>
      case Null =>
    }

    method PrefailCurrent()
      requires Sound() && current != null
      modifies current`prefail
      ensures Sound() && View() == Put(old(View()), AtCurrent, Prefailed(old(current.View()), WrongType))
    {
      var _ := current.Prefail(WrongType);
      OnlyItemChanged(current);
    }

    method ReachedReady()
      requires Sound()
      modifies this, fifo
      ensures Sound() && View() == Player.ReachedReady(old(View()))
    {
      hide Player.EmitStopped, Player.CurrentReplaced, Listing, SelectedUrlState;
      uri := "";
      assert View() == old(View()).(uri := "") by { assert Queued() == old(Queued()); }
      var waits := StopIfKnown();
      if !waits {
        ReplaceCurrent();
      }
    }

    /** Tells whether the current stream is a link without a URI. */
    method StopIfKnown() returns (waits: bool)
      requires Sound()
      modifies this`status, this`uri, this`hist, this`emitted, fifo
      ensures Sound()
      ensures var url := if current == null then Broken else SelectedUrlState(old(current.View()));
        && waits == (url in {KnownAirableLink, ResolvingLink})
        && View() == if url in {KnownDirectUrl, KnownResolvedUrl} then Player.EmitStopped(old(View())) else old(View())
    {
      hide Player.EmitStopped, Listing, SelectedUrlState;
      waits := false;
      if current != null {
        var s := current.GetSelectedUrlState();
        match s
        case KnownDirectUrl => EmitStopped();
        case KnownResolvedUrl => EmitStopped();
        case KnownAirableLink => waits := true;
        case ResolvingLink => waits := true;
        case Broken =>
      }
    }

    method ReplaceCurrent()
      requires Sound()
      modifies this, fifo
      ensures Sound() && View() == Player.CurrentReplaced(old(View()))
    {
      hide Listing;
      if protectedOnce {
        protectedOnce := false;
      } else if fifo.queue == [] {
        current := null;
      } else {
        TakeHead();
      }
      ghost var replaced := View();
      assert old(protectedOnce) || old(fifo.queue) == [] ==> Queued() == old(Queued());
      justStarted := false;
      assert Queued() == replaced.queue;
    }

    // ----- errors -----

    /** The stream is already known to fail, or has the URI in question. */
    ghost predicate Suspected(it: Item?, uri: string)
      reads it
    {
      it != null && (HasPrefailed(it.View()) || UrlForPlaying(it.View()) == uri)
    }

    method DetermineFailedStream(failing: string) returns (which: FailedStream)
      requires Sound()
      ensures which == WhichFailed(View(), failing)
      ensures which.CurrentStream? <==> failing != "" && Suspected(current, failing)
      ensures which.GaplessNext? <==>
        if failing == "" then current != null && HasPrefailed(current.View())
        else !Suspected(current, failing) && fifo.queue != [] && UrlForPlaying(fifo.queue[0].View()) == failing
      ensures which != Unknown ==> (which.hasReason <==> current != null && HasPrefailed(current.View()))
    {
      if current != null && current.prefail != UnknownReason {
        return if failing == "" then GaplessNext(true) else CurrentStream(true);
      }
      if failing == "" {
        return Unknown;
      }
      if current != null {
        var playing := current.GetUrlForPlaying();
        if playing == failing {
          return CurrentStream(false);
        }
      }
      if fifo.queue != [] {
        assert fifo.queue[0].View() == Queued()[0];
        var next := fifo.queue[0].GetUrlForPlaying();
        if next == failing {
          return GaplessNext(false);
        }
      }
      which := Unknown;
    }

    method TryAlternative(prefetch: bool, env: Env) returns (ok: bool)
      requires Sound()
      modifies this`protectedOnce, this`uri, this`request, this`asked, current
      ensures Sound() && (View(), ok) == Player.TryAlternative(old(View()), prefetch, env)
    {
      hide Player.Resolve, SelectNextUrl, Listing;
      if current == null {
        return false;
      }
      ViewOfKnown(current);
      var again := SelectNext(current, env.now);
      if !again {
        return false;
      }
      ViewOfKnown(current);
      SetState(current, AboutToActivate);
      ghost var ready := View();
      protectedOnce, uri := true, "";
      assert Queued() == ready.queue;
      ok := Resolve(current, prefetch, env);
    }

    method CurrentFailed()
      requires Sound() && current != null
      modifies this, fifo, current
      ensures Sound() && View() == Player.CurrentFailed(old(View()))
    {
      var first := FailCurrent();
      if first {
        ErrorRecovery();
      } else {
        assert current.View() == old(current.View());
      }
    }

    /** An item which is neither queued nor the current stream any more. */
    method FailOther(item: Item) returns (first: bool)
      requires Sound() && item != current && item !in fifo.queue
      modifies item`failed
      ensures Sound() && View() == old(View()) && first == !old(item.failed)
    {
      hide Listing;
      first := item.Fail();
      assert Queued() == old(Queued());
    }

    method PrefetchedFailed(item: Item)
      requires Sound()
      modifies this, fifo, item`failed
      requires item != current && item !in fifo.queue
      ensures Sound() && View() == Player.PrefetchedFailed(old(View()), old(item.View()))
    {
      hide Player.EmitStoppedWithError, Listing;
      if current != null {
        MarkDropped(current.id);
      }
      var first := FailOther(item);
      if first {
        EmitStoppedWithError(item);
        ForgetCurrent();
      }
    }

    method ForgetCurrent()
      requires Sound()
      modifies this`justStarted, this`request, this`current
      ensures Sound() && View() == old(View()).(justStarted := false, request := NotRequested, current := None)
    {
      hide Listing;
      justStarted, request, current := false, NotRequested, null;
      assert Queued() == old(Queued());
    }

    method TakeFailedHead() returns (item: Item)
      requires Sound() && fifo.queue != []
      modifies this`hist, fifo
      ensures Sound() && View() == FailHead(old(View()))
      ensures item == old(fifo.queue)[0] && fifo.queue == old(fifo.queue)[1..] && item.View() == old(View()).queue[0]
      ensures item != current && item !in fifo.queue
    {
      var head := fifo.Pop();
      item := head.value;
      hist := hist.(failedNext := hist.failedNext + [item.num]);
      assert Queued() == old(Queued())[1..];
    }

    method ErrorMessage(failing: string, mapped: Reason, env: Env)
      requires Valid() && ErrorHasItem(View(), failing)
      modifies this, fifo, fifo.queue, current
      ensures Valid() && View() == Player.ErrorMessage(old(View()), failing, mapped, env)
    {
      hide Inv;
      HandleError(failing, mapped, env);
      hide Player.ErrorMessage;
      Settled(old(hist), old(View()), EvError(failing, mapped, env));
    }

    method HandleError(failing: string, mapped: Reason, env: Env)
      requires Sound() && ErrorHasItem(View(), failing)
      modifies this, fifo, fifo.queue, current
      ensures Sound() && View() == Player.ErrorMessage(old(View()), failing, mapped, env)
    {
      hide ErrorOfCurrent, ErrorOfNext, WhichFailed, HasPrefailed, UrlForPlaying, Listing;
      var which := DetermineFailedStream(failing);
      match which
      case Unknown =>
      case CurrentStream(hasReason) =>
        HandleErrorOfCurrent(if hasReason then current.prefail else mapped, env);
      case GaplessNext(hasReason) =>
        HandleErrorOfHead(hasReason, mapped, env);
    }

    method HandleErrorOfHead(hasReason: bool, mapped: Reason, env: Env)
      requires Sound() && current != null && fifo.queue != []
      modifies this, fifo, fifo.queue, current
      ensures Sound()
      ensures var s := old(View());
        View() == ErrorOfNext(FailHead(s), s.queue[0], ReasonFor(s.queue[0], hasReason, mapped), env)
    {
      hide Listing, ErrorOfNext, FailHead;
      var item := TakeFailedHead();
      HandleErrorOfNext(item, if hasReason then item.prefail else mapped, env);
    }

    method HandleErrorOfCurrent(reason: Reason, env: Env)
      requires Sound() && current != null
      modifies this, fifo, current
      ensures Sound() && View() == ErrorOfCurrent(old(View()), reason, env)
    {
      hide Player.TryAlternative, Player.CurrentFailed;
      if WorthRetry(reason) {
        var ok := TryAlternative(false, env);
        if ok {
          return;
        }
      }
      CurrentFailed();
    }

    method HandleErrorOfNext(item: Item, reason: Reason, env: Env)
      requires Sound() && item != current && item !in fifo.queue
      modifies this, fifo, current, item`failed
      ensures Sound() && View() == ErrorOfNext(old(View()), old(item.View()), reason, env)
    {
      hide Player.TryAlternative, Player.PrefetchedFailed;
      if WorthRetry(reason) {
        var ok := TryAlternative(true, env);
        if ok {
          return;
        }
      }
      PrefetchedFailed(item);
    }

    // ----- answers from the resolver -----

    method LinkNotified(id: nat, uri: string, valid: nat, prefetch: bool, env: Env)
      requires Valid() && Enabled(View(), EvLinkNotified(id, uri, valid, prefetch, env))
      modifies this`uri, this`request, this`asked, fifo.queue, current
      ensures Valid() && View() == Player.LinkNotified(old(View()), id, uri, valid, prefetch, env)
    {
      hide Inv, Player.LinkAnswered;
      if current != null && current.id == id {
        LinkAnswered(current, uri, valid, prefetch, env);
      } else if fifo.queue != [] && fifo.queue[0].id == id {
        assert fifo.queue[0].View() == Queued()[0];
        LinkAnswered(fifo.queue[0], uri, valid, prefetch, env);
      } else {
        assert fifo.queue != [] ==> fifo.queue[0].View() == Queued()[0];
      }
      Settled(old(hist), old(View()), EvLinkNotified(id, uri, valid, prefetch, env));
    }

    // ----- requests of the controlling program -----

    method Push(id: nat, urls: seq<Url>, keep: nat, env: Env) returns (ok: bool)
      requires Valid()
      modifies this, fifo, fifo.queue, current
      ensures Valid() && View() == Player.Push(old(View()), id, urls, keep, env)
      ensures ok == (old(activated) && !PushRefused(old(View()), keep))
    {
      hide Inv;
      ok := activated;
      if ok {
        SendReport();
        assert |fifo.queue| == |old(View()).queue|;
        ok := PushActivated(id, urls, keep, env);
      }
      hide Player.SendReport, QueueFromFifo, Player.ClearTail;
      Settled(old(hist), old(View()), EvPush(id, urls, keep, env));
    }

    method PushActivated(id: nat, urls: seq<Url>, keep: nat, env: Env) returns (ok: bool)
      requires Sound()
      modifies this, fifo, fifo.queue, current
      ensures Sound() && ok == !PushRefused(old(View()), keep)
      ensures View() == if ok then Player.SendReport(AfterPush(old(View()), id, urls, keep, env)) else old(View())
    {
      hide QueueFromFifo;
      var item := new Item(hist.accepted, id, urls);
      assert View() == old(View()) by { assert Queued() == old(Queued()); }
      ok := Enqueue(item, keep);
      if !ok {
        return;
      }
      ViewOfCurrent();
      if request == Requested && current != null && current.state == AboutToPhaseOut {
        QueueStreamFromFifo(env);
      }
      SendReport();
    }

    lemma ViewOfCurrent()
      ensures current != null ==> Current() == Some(current.View())
    {
    }

    /** The item is appended to what is kept of the queue, unless it is refused. */
    method Enqueue(item: Item, keep: nat) returns (ok: bool)
      requires Sound() && item.Valid() && item.num == hist.accepted
      requires item != current && item !in fifo.queue
      requires item.View() == NewItem(item.num, item.id, item.urls)
      modifies this`hist, fifo
      ensures Sound() && ok == !PushRefused(old(View()), keep)
      ensures View() == if ok then Append(Player.ClearTail(old(View()), keep), item.id, item.urls) else old(View())
      ensures forall i :: 0 <= i < |fifo.queue| ==> fifo.queue[i] == item || fifo.queue[i] in old(fifo.queue)
    {
      hide NewItem, Tags, TagSeq, Player.ClearTail;
      TailIsCleared(View(), keep);
      ok := EnqueueItem(item, keep);
      ghost var queued := Queued();
      if ok {
        hist := hist.(accepted := hist.accepted + 1);
      }
      assert Queued() == queued;
    }

    lemma TailIsCleared(s: State, keep: nat)
      ensures var k := Min(keep, |s.queue|);
        Player.ClearTail(s, keep) == s.(queue := s.queue[..k], removed := s.removed + Tags(s.queue[k..]))
    {
      if keep >= |s.queue| {
        assert s.queue[|s.queue|..] == [] && Tags([]) == [];
        assert s.queue[..|s.queue|] == s.queue;
      }
    }

    method EnqueueItem(item: Item, keep: nat) returns (ok: bool)
      requires Sound() && item.Valid()
      requires item != current && item !in fifo.queue
      modifies fifo
      ensures Sound() && ok == !(keep >= |old(fifo.queue)| && |old(fifo.queue)| >= fifo.cap)
      ensures forall i :: 0 <= i < |fifo.queue| ==> fifo.queue[i] == item || fifo.queue[i] in old(fifo.queue)
      ensures fifo.dropped == old(fifo.dropped)
      ensures !ok ==> Queued() == old(Queued()) && TagSeq(fifo.removed) == old(TagSeq(fifo.removed))
      ensures var k := Min(keep, |old(fifo.queue)|); ok ==>
        && Queued() == old(Queued())[..k] + [item.View()]
        && TagSeq(fifo.removed) == old(TagSeq(fifo.removed)) + Tags(old(Queued())[k..])
    {
      hide Listing, Sound;
      ok := PushItem(item, keep);
    }

    method PushItem(item: Item, keep: nat) returns (ok: bool)
      requires Sound() && item.Valid()
      requires item != current && item !in fifo.queue
      modifies fifo
      ensures Sound() && ok == !(keep >= |old(fifo.queue)| && |old(fifo.queue)| >= fifo.cap)
      ensures forall i :: 0 <= i < |fifo.queue| ==> fifo.queue[i] == item || fifo.queue[i] in old(fifo.queue)
      ensures fifo.dropped == old(fifo.dropped)
      ensures !ok ==> fifo.queue == old(fifo.queue) && fifo.removed == old(fifo.removed)
      ensures var k := Min(keep, |old(fifo.queue)|); ok ==>
        fifo.queue == old(fifo.queue)[..k] + [item] && fifo.removed == old(fifo.removed) + old(fifo.queue)[k..]
    {
      hide Listing;
      var size := fifo.Push(item, keep);
      ok := size != 0;
    }

    method ClearQueue(keep: int) returns (queued: seq<nat>)
      requires Valid()
      modifies this`hist, this`emitted, fifo
      ensures Valid() && View() == Player.ClearQueue(old(View()), keep)
      ensures |queued| == |View().queue|
      ensures forall i :: 0 <= i < |queued| ==> queued[i] == View().queue[i].id
    {
      hide Inv, Player.ClearTail, Player.SendReport;
      if keep >= 0 {
        ClearTail(keep);
      }
      SendReport();
      queued := QueuedIds();
      Settled(old(hist), old(View()), EvClear(keep));
    }

    method QueuedIds() returns (ids: seq<nat>)
      ensures |ids| == |Queued()| && forall i :: 0 <= i < |ids| ==> ids[i] == Queued()[i].id
    {
      ids := [];
      for i := 0 to |fifo.queue|
        invariant |ids| == i
        invariant forall j :: 0 <= j < i ==> ids[j] == fifo.queue[j].id
      {
        ids := ids + [fifo.queue[i].id];
      }
    }

    method Start(buffering: bool, pending: GstState, state: GstState, env: Env) returns (ok: bool)
      requires Valid()
      modifies this, fifo, fifo.queue, current
      ensures Valid() && View() == Player.Start(old(View()), buffering, pending, state, env)
      ensures ok == (old(activated) && (buffering || pending in {GstPlaying, GstPaused} || state != VoidPending))
    {
      hide Inv;
      ok := StartPlaying(buffering, pending, state, env);
      hide Player.Start;
      Settled(old(hist), old(View()), EvStart(buffering, pending, state, env));
    }

    method StartPlaying(buffering: bool, pending: GstState, state: GstState, env: Env) returns (ok: bool)
      requires Sound()
      modifies this, fifo, fifo.queue, current
      ensures Sound() && View() == Player.Start(old(View()), buffering, pending, state, env)
      ensures ok == (old(activated) && (buffering || pending in {GstPlaying, GstPaused} || state != VoidPending))
    {
      hide Listing, TryPlayNext, Rebuilt;
      ok := activated;
      if activated {
        status := Playing;
        assert View() == old(View()).(status := Playing) by { assert Queued() == old(Queued()); }
        if !buffering && pending != GstPlaying && pending != GstPaused {
          match state
          case GstPlaying =>
          case GstPaused =>
          case VoidPending => ok := false;
          case Ready => StartAnew(env);
          case Null => StartAnew(env);
        }
      }
    }

    method StartAnew(env: Env)
      requires Sound()
      modifies this, fifo, fifo.queue, current
      ensures Sound() && View() == TryPlayNext(Rebuilt(old(View())), env)
    {
      hide TryPlayNext;
      protectedOnce, justStarted, request, uri := true, false, NotRequested, "";
      assert View() == Rebuilt(old(View())) by { assert Queued() == old(Queued()); }
      TryPlayNextStream(env);
    }

    method Pause(buffering: bool, state: GstState, env: Env) returns (ok: bool)
      requires Valid()
      modifies this, fifo, fifo.queue, current
      ensures Valid() && View() == Player.Pause(old(View()), buffering, state, env)
      ensures ok == (old(activated) && old(uri) != "" && (buffering || state != VoidPending))
    {
      hide Inv;
      ok := PausePlaying(buffering, state, env);
      hide Player.Pause;
      Settled(old(hist), old(View()), EvPause(buffering, state, env));
    }

    method PausePlaying(buffering: bool, state: GstState, env: Env) returns (ok: bool)
      requires Sound()
      modifies this, fifo, fifo.queue, current
      ensures Sound() && View() == Player.Pause(old(View()), buffering, state, env)
      ensures ok == (old(activated) && old(uri) != "" && (buffering || state != VoidPending))
    {
      hide Listing, TryPlayNext;
      ok := activated && uri != "";
      if ok {
        status := Paused;
        assert View() == old(View()).(status := Paused) by { assert Queued() == old(Queued()); }
        if !buffering {
          match state
          case Null => TryPlayNextStream(env);
          case VoidPending => ok := false;
          case Ready =>
          case GstPaused =>
          case GstPlaying =>
        }
      }
    }

    method StopPipeline(pending: GstState, state: GstState, env: Env) returns (still: bool, failedHard: bool)
      requires Sound()
      modifies this`status, fifo
      ensures Sound() && (View(), still) == Player.StopPipeline(old(View()), pending, state, env)
      ensures failedHard == (pending == VoidPending && state == VoidPending)
    {
      failedHard := false;
      hide Player.ClearTail;
      status := Stopped;
      assert View() == old(View()).(status := Stopped) by { assert Queued() == old(Queued()); }
      match if pending == VoidPending then state else pending
      case GstPlaying =>
        still := !env.pipelineOk;
        if env.pipelineOk {
          ClearTail(0);
        }
      case GstPaused =>
        still := !env.pipelineOk;
        if env.pipelineOk {
          ClearTail(0);
        }
      case Ready =>
        ClearTail(0);
        still := true;
      case Null =>
        ClearTail(0);
        still := true;
      case VoidPending =>
        still, failedHard := true, true;
    }

    /** The answer is true only if the pipeline has no proper state; false says nothing. */
    method Stop(pending: GstState, state: GstState, after: GstState, env: Env) returns (failedHard: bool)
      requires Valid()
      modifies this, fifo
      ensures Valid() && View() == Player.Stop(old(View()), pending, state, after, env)
      ensures failedHard == (old(activated) && old(uri) != "" && pending == VoidPending && state == VoidPending)
    {
      hide Inv;
      failedHard := StopPlaying(pending, state, after, env);
      hide Player.Stop;
      Settled(old(hist), old(View()), EvStop(pending, state, after, env));
    }

    method StopPlaying(pending: GstState, state: GstState, after: GstState, env: Env) returns (failedHard: bool)
      requires Sound()
      modifies this, fifo
      ensures Sound() && View() == Player.Stop(old(View()), pending, state, after, env)
      ensures failedHard == (old(activated) && old(uri) != "" && pending == VoidPending && state == VoidPending)
    {
      hide Listing, Player.StopPipeline, Player.EmitStoppedWithError;
      failedHard := false;
      if activated && uri != "" {
        var still;
        still, failedHard := StopPipeline(pending, state, env);
        if still && after in {Ready, Null} && pending == VoidPending {
          EmitStoppedWithError(current);
          ghost var stopped := View();
          current := null;
          assert Queued() == stopped.queue;
        }
      }
    }

    method Activate()
      requires Valid()
      modifies this`activated
      ensures Valid() && View() == Player.Activate(old(View()))
    {
      hide Inv;
      activated := true;
      assert Queued() == old(Queued());
      Settled(hist, old(View()), EvActivate);
    }

    method Deactivate(pending: GstState, state: GstState, env: Env)
      requires Valid()
      modifies this, fifo
      ensures Valid() && View() == Player.Deactivate(old(View()), pending, state, env)
    {
      hide Inv, Player.StopPipeline;
      if activated {
        activated := false;
        assert View() == old(View()).(activated := false) by { assert Queued() == old(Queued()); }
        var _, _ := StopPipeline(pending, state, env);
      }
      Settled(old(hist), old(View()), EvDeactivate(pending, state, env));
    }

    method GiveUpCurrent(skipOnly: bool)
      requires Sound()
      modifies this`current, this`hist, fifo, current
      ensures Sound() && View() == Player.GiveUpCurrent(old(View()), skipOnly)
      ensures fifo.queue == old(fifo.queue) && (current == old(current) || current == null)
    {
      if skipOnly && current != null {
        ViewOfKnown(current);
        match current.state {
          case AboutToActivate =>
            SetState(current, AboutToBeSkipped);
            MarkDropped(current.id);
          case ActiveHalfPlaying =>
            SetState(current, AboutToBeSkipped);
            MarkDropped(current.id);
          case _ =>
            current := null;
            assert Queued() == old(Queued());
        }
      }
    }

    method Next(skipOnly: bool, readyOk: bool, env: Env)
      returns (skipped: Option<nat>, next: Option<nat>)
      requires Valid()
      modifies this, fifo, fifo.queue, current
      ensures Valid() && NextReply(View(), skipped, next) == Player.Next(old(View()), skipOnly, readyOk, env)
    {
      hide Inv;
      skipped, next := SkipToNext(skipOnly, readyOk, env);
      hide Player.Next;
      Settled(old(hist), old(View()), EvNext(skipOnly, readyOk, env));
    }

    method SkipToNext(skipOnly: bool, readyOk: bool, env: Env)
      returns (skipped: Option<nat>, next: Option<nat>)
      requires Sound()
      modifies this, fifo, fifo.queue, current
      ensures Sound() && NextReply(View(), skipped, next) == Player.Next(old(View()), skipOnly, readyOk, env)
    {
      hide Player.GiveUpCurrent, Player.TryTakeNext, Player.SkipTo;
      skipped, next := None, None;
      if !activated {
        return;
      }
      GiveUpCurrent(skipOnly);
      ViewOfCurrent();
      if current != null {
        skipped := Some(current.id);
      }
      if status == Stopped && skipOnly {
        return;
      }
      var item, replaced, _ := TryTakeNext();
      next := SkipTo(item, replaced, skipped, readyOk, env);
    }

    method SkipTo(item: Item?, replaced: bool, ghost skipped: Option<nat>, readyOk: bool, env: Env)
      returns (next: Option<nat>)
      requires Sound() && (item != null ==> item == current)
      modifies this`status, this`uri, this`request, this`asked, item, current
      ensures Sound()
      ensures NextReply(View(), skipped, next)
           == Player.SkipTo(Taken(old(View()), item != null, replaced), skipped, readyOk, env)
    {
      hide PlayNext;
      next := None;
      if item == null {
        status := Stopped;
        assert Queued() == old(Queued());
        return;
      }
      ViewOfKnown(item);
      if !replaced && item.state in {AboutToActivate, ActiveHalfPlaying} {
        SetState(item, AboutToBeSkipped);
      }
      if readyOk {
        var ok := PlayNextStream(if replaced then null else current, item, true, false, env);
        next := if ok then Some(item.id) else None;
      }
    }
  }
}

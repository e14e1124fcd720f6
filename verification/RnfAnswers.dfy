/** What readers get from a call, and what an abort answers and prevents. */
module RnfAnswers {
  import opened Base
  import opened Rnf
  import opened RnfProtocol

  // ----- where the contents of the promise come from -----

  /** Tasks which fetch the result once it is ready. */
  predicate Fetches(task: Task) {
    task in {FetchAndTell, Fetch, FetchBlocking}
  }

  /** What a step puts into an empty promise: a result which comes at once, or one fetched from the peer, or an
      exception if the peer does not answer. */
  function PutBy(s: Sys, a: Action): Promise {
    if !a.Run? || a.t >= |s.pcs| || !s.pcs[a.t].In? then Empty
    else
      var task := s.pcs[a.t].task;
      if task.Issue? then if a.reply.FastPath? || (a.reply.Throws? && a.yes) then Value else Empty
      else if task == Register(Throws) then Exception
      else if Fetches(task) && s.call.state == ReadyToFetch then if a.yes then Value else Exception
      else Empty
  }

  /** Only these steps satisfy the promise, and nothing changes it after that. */
  lemma PromiseIsPut(s: Sys, a: Action)
    requires Inv(s) && Enabled(s, a)
    ensures Next(s, a).call.promise == if s.call.promise != Empty then s.call.promise else PutBy(s, a)
  {
    if a.Run? && s.pcs[a.t].In? {
      var task := s.pcs[a.t].task;
      hide Good, RequestEffect, SignalEffect, ClientEffect;
      if IsRequestTask(task) {
        RequestPuts(s, task, a.reply, a.yes, Signaller(s));
      } else if IsSignalTask(task) {
        SignalPuts(s, task, a.yes);
      } else {
        ClientPuts(s, task, a.yes);
      }
    }
  }

  lemma RequestPuts(s: Sys, task: Task, reply: Reply, yes: bool, signaller: Pc)
    requires IsRequestTask(task) && Good(s, In(task), signaller)
    ensures RequestEffect(s, task, reply, yes).0.call.promise ==
      if s.call.promise != Empty then s.call.promise
      else if task.Issue? then if reply.FastPath? || (reply.Throws? && yes) then Value else Empty
      else if task == Register(Throws) then Exception else Empty
  {
    hide Delivered, Places;
  }

  lemma SignalPuts(s: Sys, task: Task, yes: bool)
    requires IsSignalTask(task)
    ensures SignalEffect(s, task, yes).0.call.promise ==
      if s.call.promise != Empty then s.call.promise
      else if Fetches(task) && s.call.state == ReadyToFetch then if yes then Value else Exception
      else Empty
  {
  }

  lemma ClientPuts(s: Sys, task: Task, yes: bool)
    requires !IsRequestTask(task) && !IsSignalTask(task)
    ensures ClientEffect(s, task, yes).0.call.promise ==
      if s.call.promise != Empty then s.call.promise
      else if Fetches(task) && s.call.state == ReadyToFetch then if yes then Value else Exception
      else Empty
  {
  }

  lemma StepOfRun(states: seq<Sys>, actions: seq<Action>, k: nat)
    requires IsRun(states, actions) && k < |actions|
    ensures Inv(states[k]) && Enabled(states[k], actions[k]) && states[k + 1] == Next(states[k], actions[k])
  {
    RunKeepsInv(states, actions, k);
    hide Inv, Next, Enabled;
  }

  lemma {:induction false} PromiseStays(states: seq<Sys>, actions: seq<Action>, i: nat, j: nat)
    requires IsRun(states, actions) && i <= j < |states| && states[i].call.promise != Empty
    ensures states[j].call.promise == states[i].call.promise
  {
    assert |states| == |actions| + 1;
    hide IsRun, Inv, Next, Enabled, PutBy;
    if i < j {
      PromiseStays(states, actions, i, j - 1);
      StepOfRun(states, actions, j - 1);
      PromiseIsPut(states[j - 1], actions[j - 1]);
    }
  }

  // ----- what is read -----

  predicate Delivers(a: Answer) {
    a in {TheResult, TheException}
  }

  ghost predicate WasRead(answers: seq<Answer>) {
    exists k :: 0 <= k < |answers| && Delivers(answers[k])
  }

  /** A thread reads the result. */
  predicate Reads(s: Sys, a: Action) {
    a.Run? && a.t < |s.pcs| && s.pcs[a.t] == In(Read)
  }

  lemma {:induction false} DeliveriesMeansRead(answers: seq<Answer>)
    ensures Deliveries(answers) > 0 <==> WasRead(answers)
  {
    if answers != [] {
      var init := answers[..|answers| - 1];
      DeliveriesMeansRead(init);
      if WasRead(init) {
        var k :| 0 <= k < |init| && Delivers(init[k]);
        assert Delivers(answers[k]);
      }
      assert forall k :: 0 <= k < |answers| ==> k == |init| || answers[k] == init[k];
    }
  }

  /** In every run, a reader is told that there is nothing to read yet, or that the call was aborted, or that it has
      been read already, or gets what is in the promise: the result if there is a value, otherwise the exception. */
  lemma ReadIsAnswered(states: seq<Sys>, actions: seq<Action>, i: nat)
    requires IsRun(states, actions) && i < |actions| && Reads(states[i], actions[i])
    ensures var s, t := states[i], states[i + 1];
      t.log.answers == s.log.answers +
        [if s.call.state in {Aborting, AbortedByPeer} then AbortedError
         else if s.call.state !in {ResultFetched, Failed} then BadStateError
         else if s.call.abortedAfterDone then AbortedError
         else if WasRead(s.log.answers) then NoResultError
         else if s.call.promise == Value then TheResult
         else TheException]
  {
    RunKeepsInv(states, actions, i);
    DeliveriesMeansRead(states[i].log.answers);
    hide Deliveries, WasRead, Locked, NoWindowBeforeRequest, Places;
  }

  /** Nothing but reading is answered. */
  lemma OthersAnswerNothing(s: Sys, a: Action)
    requires Enabled(s, a) && !Reads(s, a)
    ensures Next(s, a).log.answers == s.log.answers
  {
    if a.Run? {
      EffectAnswersNothing(s, s.pcs[a.t], a.reply, a.yes);
      hide Effect;
    }
  }

  lemma EffectAnswersNothing(s: Sys, pc: Pc, reply: Reply, yes: bool)
    requires pc != In(Read)
    ensures Effect(s, pc, reply, yes).0.log.answers == s.log.answers
  {
  }

  ghost predicate AnswersMatch(s: Sys) {
    && (TheResult in s.log.answers ==> s.call.promise == Value)
    && (TheException in s.log.answers ==> s.call.promise == Exception)
  }

  /** In every run, the result is only delivered if the promise has a value, and an exception only if it has an
      exception. */
  lemma {:induction false} AnswersMatchPromise(states: seq<Sys>, actions: seq<Action>, i: nat)
    requires IsRun(states, actions) && i < |states|
    ensures AnswersMatch(states[i])
  {
    if i > 0 {
      var s, a := states[i - 1], actions[i - 1];
      hide Inv, Next, Enabled, Init, WasRead;
      AnswersMatchPromise(states, actions, i - 1);
      StepOfRun(states, actions, i - 1);
      DeliveryNeedsPromise(s);
      PromiseIsPut(s, a);
      if Reads(s, a) {
        ReadIsAnswered(states, actions, i - 1);
        hide IsRun, AnswersMatch;
        var answers := states[i].log.answers;
        MatchGrows(s, states[i], answers[|answers| - 1]);
      } else {
        hide IsRun;
        OthersAnswerNothing(s, a);
        MatchStays(s, states[i]);
      }
    } else {
      assert states[0].log.answers == [];
    }
  }

  lemma MatchStays(s: Sys, r: Sys)
    requires AnswersMatch(s) && r.log.answers == s.log.answers
    requires s.call.promise != Empty ==> r.call.promise == s.call.promise
    ensures AnswersMatch(r)
  {
  }

  lemma MatchGrows(s: Sys, r: Sys, x: Answer)
    requires AnswersMatch(s) && r.log.answers == s.log.answers + [x] && r.call.promise == s.call.promise
    requires x == TheResult ==> s.call.promise == Value
    requires x == TheException ==> s.call.promise == Exception
    ensures AnswersMatch(r)
  {
  }

  lemma DeliveryNeedsPromise(s: Sys)
    requires Inv(s)
    ensures WasRead(s.log.answers) ==> s.call.promise != Empty
    ensures s.call.state in {ResultFetched, Failed} ==> s.call.promise != Empty
  {
    DeliveriesMeansRead(s.log.answers);
    hide Deliveries, WasRead;
  }

  /** A result which was answered at once or fetched is what is read, however much later, unless it was read or aborted
      before; an error of the peer is read as an exception. */
  lemma PutIsRead(states: seq<Sys>, actions: seq<Action>, i: nat, j: nat)
    requires IsRun(states, actions) && i < j < |actions| && Reads(states[j], actions[j])
    requires states[i].call.promise == Empty && PutBy(states[i], actions[i]) != Empty
    requires states[j].call.state in {ResultFetched, Failed}
    requires !states[j].call.abortedAfterDone && !WasRead(states[j].log.answers)
    ensures states[j + 1].log.answers == states[j].log.answers +
      [if PutBy(states[i], actions[i]) == Value then TheResult else TheException]
  {
    RunKeepsInv(states, actions, i);
    assert Enabled(states[i], actions[i]) && states[i + 1] == Next(states[i], actions[i]);
    PromiseIsPut(states[i], actions[i]);
    hide Inv, Next, Enabled;
    PromiseStays(states, actions, i + 1, j);
    ReadIsAnswered(states, actions, j);
  }

  // ----- what contexts are told -----

  /** The context is told about a result which comes at once, and about the state of the call when its signal has been
      handled, unless there is no such state. */
  lemma ContextIsTold(s: Sys, a: Action)
    requires Inv(s) && Enabled(s, a)
    ensures var r := Next(s, a).call;
      r.told == s.call.told +
        if !a.Run? then []
        else if s.pcs[a.t] == In(RunFastPath) then [ResultFetched]
        else if s.pcs[a.t] == In(FetchAndTell) && s.call.state !in {Initialized, WaitForNotification} then [r.state]
        else []
  {
    if a.Run? && s.pcs[a.t].In? {
      var task := s.pcs[a.t].task;
      hide Good, RequestEffect, SignalEffect, ClientEffect;
      if IsRequestTask(task) {
        RequestTells(s, task, a.reply, a.yes, Signaller(s));
      } else if IsSignalTask(task) {
        SignalTells(s, task, a.yes, Holder(s));
      } else {
        ClientTells(s, task, a.yes);
      }
    }
  }

  lemma RequestTells(s: Sys, task: Task, reply: Reply, yes: bool, signaller: Pc)
    requires IsRequestTask(task) && Good(s, In(task), signaller)
    ensures RequestEffect(s, task, reply, yes).0.call.told
         == s.call.told + if task.RunFastPath? then [ResultFetched] else []
  {
    hide Delivered, Places;
  }

  lemma SignalTells(s: Sys, task: Task, yes: bool, holder: Pc)
    requires IsSignalTask(task) && Good(s, holder, In(task))
    ensures var r := SignalEffect(s, task, yes).0.call;
      r.told == s.call.told +
        if task.FetchAndTell? && s.call.state !in {Initialized, WaitForNotification} then [r.state] else []
  {
    hide Delivered, Places;
  }

  lemma ClientTells(s: Sys, task: Task, yes: bool)
    requires !IsRequestTask(task) && !IsSignalTask(task)
    ensures ClientEffect(s, task, yes).0.call.told == s.call.told
  {
  }

  /** A call which has got a cookie only fails with an exception, and a call with a result has a value. */
  predicate FailsWithException(s: Sys) {
    && (s.log.issued.Some? && s.call.state == Failed ==> s.call.promise == Exception)
    && (s.call.state == ResultFetched ==> s.call.promise == Value)
  }

  lemma EffectFailsWithException(s: Sys, pc: Pc, reply: Reply, yes: bool, holder: Pc, signaller: Pc)
    requires Good(s, holder, signaller) && FailsWithException(s)
    requires (Holds(pc, CallLock) ==> holder == pc) && (IsSignal(pc) ==> signaller == pc)
    ensures FailsWithException(Effect(s, pc, reply, yes).0)
  {
    hide Delivered;
    if pc.In? {
      hide RequestEffect, SignalEffect, ClientEffect, Good, FailsWithException;
      if IsRequestTask(pc.task) {
        RequestFailsWithException(s, pc.task, reply, yes, signaller);
      } else if IsSignalTask(pc.task) {
        SignalFailsWithException(s, pc.task, yes, holder);
      } else {
        ClientFailsWithException(s, pc.task, yes, signaller);
      }
    }
  }

  lemma RequestFailsWithException(s: Sys, task: Task, reply: Reply, yes: bool, signaller: Pc)
    requires IsRequestTask(task) && Good(s, In(task), signaller) && FailsWithException(s)
    ensures FailsWithException(RequestEffect(s, task, reply, yes).0)
  {
    hide Delivered, Places;
  }

  lemma SignalFailsWithException(s: Sys, task: Task, yes: bool, holder: Pc)
    requires IsSignalTask(task) && Good(s, holder, In(task)) && FailsWithException(s)
    ensures FailsWithException(SignalEffect(s, task, yes).0)
  {
    hide Delivered, Places;
  }

  lemma ClientFailsWithException(s: Sys, task: Task, yes: bool, signaller: Pc)
    requires !IsRequestTask(task) && !IsSignalTask(task) && Good(s, In(task), signaller) && FailsWithException(s)
    ensures FailsWithException(ClientEffect(s, task, yes).0)
  {
    hide Delivered, Places;
  }

  ghost predicate ToldTruly(s: Sys) {
    && (ResultFetched in s.call.told ==> s.call.promise == Value)
    && (Failed in s.call.told ==> s.call.promise == Exception)
  }

  /** In every run, a context which was told that there is a result can rely on it, and one which was told about a
      failure finds an exception, unless an abort prevents that. */
  lemma {:induction false} ContextIsToldTruly(states: seq<Sys>, actions: seq<Action>, i: nat)
    requires IsRun(states, actions) && i < |states|
    ensures FailsWithException(states[i]) && ToldTruly(states[i])
  {
    if i > 0 {
      hide Inv, Next, Enabled, FailsWithException, ToldTruly;
      ContextIsToldTruly(states, actions, i - 1);
      StepOfRun(states, actions, i - 1);
      hide IsRun;
      StepToldTruly(states[i - 1], actions[i - 1]);
    }
  }

  lemma StepToldTruly(s: Sys, a: Action)
    requires Inv(s) && Enabled(s, a) && FailsWithException(s) && ToldTruly(s)
    ensures FailsWithException(Next(s, a)) && ToldTruly(Next(s, a))
  {
    if a.Run? {
      var pc := s.pcs[a.t];
      EffectFailsWithException(s, pc, a.reply, a.yes, Holder(s), Signaller(s));
      ContextIsTold(s, a);
      PromiseIsPut(s, a);
      ToldHasPromise(s, pc);
      hide Good, Effect, Locked;
    }
  }

  /** Whoever was told something or is told it now finds the promise satisfied, and a call which tells its state after a
      signal has a cookie. */
  lemma ToldHasPromise(s: Sys, pc: Pc)
    requires Inv(s) && ToldTruly(s)
    ensures IsSignal(pc) && pc == Signaller(s) && pc.task.FetchAndTell? ==> s.log.issued.Some?
  {
    hide Delivered, Locked;
  }

  // ----- aborts -----

  lemma AbortStays(s: Sys, a: Action)
    requires Enabled(s, a) && s.call.abortedAfterDone
    ensures Next(s, a).call.abortedAfterDone
  {
    if a.Run? {
      EffectKeepsAbort(s, s.pcs[a.t], a.reply, a.yes);
      hide Effect;
    }
  }

  lemma EffectKeepsAbort(s: Sys, pc: Pc, reply: Reply, yes: bool)
    requires s.call.abortedAfterDone
    ensures Effect(s, pc, reply, yes).0.call.abortedAfterDone
  {
    hide Signaller;
    if pc.In? && IsRequestTask(pc.task) {
      hide SignalEffect, ClientEffect;
    } else if pc.In? && IsSignalTask(pc.task) {
      hide RequestEffect, ClientEffect;
    } else {
      hide RequestEffect, SignalEffect;
    }
  }

  /** Once a finished call has been aborted, no reader gets anything from it any more. */
  lemma {:induction false} AbortedIsNotDelivered(states: seq<Sys>, actions: seq<Action>, i: nat, j: nat)
    requires IsRun(states, actions) && i <= j < |states| && states[i].call.abortedAfterDone
    ensures var before, after := states[i].log.answers, states[j].log.answers;
      && states[j].call.abortedAfterDone && before <= after
      && forall k :: |before| <= k < |after| ==> !Delivers(after[k])
  {
    if i < j {
      var s, a := states[j - 1], actions[j - 1];
      AbortedIsNotDelivered(states, actions, i, j - 1);
      assert Enabled(s, a) && states[j] == Next(s, a);
      hide Next, Enabled;
      AbortStays(s, a);
      if Reads(s, a) {
        ReadIsAnswered(states, actions, j - 1);
      } else {
        OthersAnswerNothing(s, a);
      }
    }
  }

  /** An abort nobody interferes with. */
  function Aborted(d: CallData, accepted: bool): (CallData, bool) {
    var (e, decision) := AbortBegun(d);
    match decision
    case Return(ok) => (e, ok)
    case CallOut(_) => if accepted then (AbortEnded(e), true) else (e, false)
  }

  /** An abort is accepted exactly for a finished call which was not aborted before, for an unfinished one with a
      cookie if the peer agrees, and for one without a cookie. After that nothing can be read, and no further abort
      is accepted. An abort which is not accepted changes nothing but the cookie. */
  lemma AbortIsAcceptedOnce(d: CallData, accepted: bool, again: bool)
    requires d.state != AboutToDestroy
    ensures var (e, ok) := Aborted(d, accepted);
      && (ok <==>
            if d.state in {ResultFetched, Failed} then !d.abortedAfterDone
            else d.state !in {Aborting, AbortedByPeer} && (d.cookie == 0 || accepted))
      && (ok ==> GetResult(e).1 == AbortedError && !Aborted(e, again).1)
      && (!ok ==> e.(cookie := d.cookie, cleared := d.cleared) == d)
      && e.promise == d.promise && e.told == d.told
  {
  }

  /** The peer is asked exactly for unfinished calls with a cookie, by this cookie, which is kept as the one cleared
      last so that a signal which comes late still finds the call. */
  lemma AbortAsksPeer(d: CallData)
    ensures var (e, decision) := AbortBegun(d);
      && (decision.CallOut? <==> d.state in {Initialized, WaitForNotification, ReadyToFetch} && d.cookie != 0)
      && (decision.CallOut? ==>
            && decision.cookie == d.cookie && e.state == d.state
            && (d.state == WaitForNotification ==> Notified(e, d.cookie, ReadyToFetch).state == ReadyToFetch))
  {
  }

  // ----- signals -----

  /** A signal is for the call exactly if it names the cookie of the call, or the one cleared last. Only while the call
      waits or has been aborted it has an effect, and only on the state. */
  lemma SignalIsForCall(d: CallData, c: nat, failed: bool)
    ensures var e := Notified(d, c, SignalState(failed));
      var concerns := c != 0 && (c == d.cookie || c == d.cleared) && d.state in {WaitForNotification, Aborting};
      e == if concerns then d.(state := if failed then AbortedByPeer else ReadyToFetch) else d
  {
  }

  /** The first registration for a cookie stays, until it is used up. Those for other cookies are left alone. */
  lemma FirstRegistrationStays<V>(m: map<nat, V>, key: nat, first: V, second: V, other: nat)
    ensures var r := Emplaced(m, key, first);
      && r == Emplaced(r, key, second) && key in r
      && (key !in m ==> r[key] == first) && (key in m ==> r == m)
      && (other != key ==> (other in r <==> other in m) && (other in m ==> r[other] == m[other]))
  {
  }

  /** A call which is about to be destroyed is left alone by everything but the object itself. */
  lemma DestroyedIsDead(d: CallData, answered: bool)
    requires d.state == AboutToDestroy
    ensures GetResult(d) == (d, BadStateError) && FetchedAndTold(d, answered) == d
    ensures AbortBegun(d) == (d, Return(true))
  {
  }

  /** Reading takes what is in the promise, once, and an exception fails the call. */
  lemma ReadingTakesPromise(d: CallData)
    requires d.state in {ResultFetched, Failed} && !d.abortedAfterDone && !d.retrieved
    ensures var (e, answer) := GetResult(d);
      && (d.promise == Value ==> answer == TheResult && e == d.(retrieved := true))
      && (d.promise == Exception ==> answer == TheException && e == d.(retrieved := true, state := Failed))
      && (d.promise == Empty ==> answer == BlocksForever && e == d)
  {
  }

  // ----- where threads go -----

  /** A blocking fetch goes on waiting exactly as long as the signal has not come, and leaves the call alone
      meanwhile. */
  lemma BlockingFetchWaits(s: Sys, a: Action)
    requires Enabled(s, a) && a.Run? && s.pcs[a.t] == In(FetchBlocking)
    ensures var r := Next(s, a);
      && (s.call.state == WaitForNotification ==>
            r.pcs[a.t] == Wants(FetchBlocking) && r.call == s.call && r.log == s.log)
      && (s.call.state != WaitForNotification ==> r.pcs[a.t] == Idle)
      && (s.call.state == ReadyToFetch ==>
            r.call.state == if a.yes && s.call.promise == Empty then ResultFetched else Failed)
  {
  }

  /** An abort which has called the peer goes on exactly if the peer agrees; otherwise the call stays as it was left. */
  lemma AbortNeedsConsent(s: Sys, a: Action)
    requires Enabled(s, a) && a.Run? && s.pcs[a.t].CallsPeer?
    ensures var r := Next(s, a);
      r.call == s.call && r.pcs[a.t] == if a.yes then Wants(EndAbort) else Idle
  {
  }

  /** The lookup for a signal takes the function registered for the cookie, whoever has registered it. */
  lemma LookUpUsesFunctionUp(s: Sys, a: Action)
    requires Enabled(s, a) && a.Run? && s.pcs[a.t].In? && s.pcs[a.t].task.LookUp?
    ensures var r := Next(s, a); var sig := s.pcs[a.t].task.signal;
      if s.notifyFn == Registered && s.log.issued == Some(sig.cookie)
      then r == Move(s.(notifyFn := Taken), a.t, Wants(Notify(sig)))
      else r == Move(s.(othersNotify := s.othersNotify - {sig.cookie}), a.t, Wants(LookUpFetch(sig.cookie)))
  {
  }

  /** Other calls come and go in the table as they like, as long as they do not take a place which is taken. */
  lemma OthersComeAndGo(s: Sys, notify: set<nat>, fetch: set<nat>)
    requires s.tableLock == None && s.log.issued.Some? && s.notifyFn == Registered && s.fetchFn == Registered
    ensures var a := OthersChange(notify, fetch); var c := s.log.issued.value;
      && (Enabled(s, a) <==> c !in notify && c !in fetch)
      && (Enabled(s, a) ==> Next(s, a) == s.(othersNotify := notify, othersFetch := fetch))
  {
  }

  /** An idle thread may begin any of the things callers do with a call; signals are handled one by one. */
  lemma CallersMayStart(s: Sys, t: nat, signal: Signal)
    requires t < |s.pcs| && s.pcs[t] == Idle
    ensures Enabled(s, Start(t, Request)) && Enabled(s, Start(t, BeginAbort)) && Enabled(s, Start(t, Read))
    ensures Enabled(s, Start(t, Fetch)) && Enabled(s, Start(t, FetchBlocking))
    ensures Enabled(s, Start(t, LookUp(signal))) <==> s.signaller == None
  {
  }
}

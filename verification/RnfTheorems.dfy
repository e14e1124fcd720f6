/** What callers may rely on, whatever the threads do, and what they may rely on if aborts are
    absent or not interfered with. */
module RnfTheorems {
  import opened Base
  import opened Rnf
  import opened RnfProtocol

  // ----- every interleaving -----

  /** A finished call has something to be read, so that reading never blocks, and it is read once. */
  lemma PromiseBacksState(states: seq<Sys>, actions: seq<Action>, i: nat)
    requires IsRun(states, actions) && i < |states|
    ensures states[i].call.state in {ResultFetched, Failed} ==> states[i].call.promise != Empty
    ensures GetResult(states[i].call).1 != BlocksForever
    ensures BlocksForever !in states[i].log.answers && Deliveries(states[i].log.answers) <= 1
    ensures states[i].call.retrieved ==> GetResult(states[i].call).1 !in {TheResult, TheException}
  {
    RunKeepsInv(states, actions, i);
  }

  /** What has been told, fetched and read is never taken back. */
  lemma HistoryGrows(s: Sys, a: Action)
    requires Enabled(s, a)
    ensures Grows(s, Next(s, a))
  {
    if a.Run? {
      EffectGrows(s, s.pcs[a.t], a.reply, a.yes);
      hide Effect, Grows;
    }
  }

  predicate Grows(s: Sys, r: Sys) {
    s.call.told <= r.call.told && s.log.fetches <= r.log.fetches && s.log.answers <= r.log.answers
  }

  lemma EffectGrows(s: Sys, pc: Pc, reply: Reply, yes: bool)
    ensures Grows(s, Effect(s, pc, reply, yes).0)
  {
    if pc.In? {
      hide RequestEffect, SignalEffect, ClientEffect, Grows;
      if IsRequestTask(pc.task) {
        RequestGrows(s, pc.task, reply, yes);
      } else if IsSignalTask(pc.task) {
        SignalGrows(s, pc.task, yes);
      } else {
        ClientGrows(s, pc.task, yes);
      }
    }
  }

  lemma RequestGrows(s: Sys, task: Task, reply: Reply, yes: bool)
    requires IsRequestTask(task)
    ensures Grows(s, RequestEffect(s, task, reply, yes).0)
  {
  }

  lemma SignalGrows(s: Sys, task: Task, yes: bool)
    requires IsSignalTask(task)
    ensures Grows(s, SignalEffect(s, task, yes).0)
  {
  }

  lemma ClientGrows(s: Sys, task: Task, yes: bool)
    requires !IsRequestTask(task) && !IsSignalTask(task)
    ensures Grows(s, ClientEffect(s, task, yes).0)
  {
  }

  /** The context is told at most once, about a definite state; at most one fetch is made. */
  lemma ToldAtMostOnce(states: seq<Sys>, actions: seq<Action>, i: nat)
    requires IsRun(states, actions) && i < |states|
    ensures |states[i].call.told| <= 1 && |states[i].log.fetches| <= 1
    ensures forall st :: st in states[i].call.told ==> st in {ResultFetched, Failed, Aborting, AbortedByPeer}
  {
    RunKeepsInv(states, actions, i);
  }

  // ----- locks -----

  /** Whoever waits for a lock waits for a thread which can go on, or which waits for the table
      lock only, whose owner can go on. Nobody waits for the call lock while holding the table lock. */
  lemma OwnersGoOn(states: seq<Sys>, actions: seq<Action>, i: nat, t: nat)
    requires IsRun(states, actions) && i < |states|
    requires t < |states[i].pcs| && states[i].pcs[t].Wants?
    ensures var s, lock := states[i], Needed(states[i].pcs[t].task);
      && (lock.CallLock? ==> s.tableLock != Some(t))
      && (Owner(s, lock).Some? ==>
            var h := Owner(s, lock).value;
            && h != t && h < |s.pcs|
            && (s.pcs[h].In? || (lock.CallLock? && s.pcs[h] == Wants(Issue)))
            && (s.pcs[h].Wants? && s.tableLock.Some? ==>
                  s.tableLock.value < |s.pcs| && s.tableLock.value != h && s.pcs[s.tableLock.value].In?))
  {
    RunKeepsInv(states, actions, i);
  }

  /** As long as a thread is not idle, some thread which is not idle can do something. */
  lemma SomeThreadGoesOn(states: seq<Sys>, actions: seq<Action>, i: nat, t: nat) returns (a: Action)
    requires IsRun(states, actions) && i < |states|
    requires t < |states[i].pcs| && states[i].pcs[t] != Idle
    ensures Enabled(states[i], a) && (a.Acquire? || a.Run?) && states[i].pcs[a.t] != Idle
  {
    RunKeepsInv(states, actions, i);
    var s := states[i];
    if s.pcs[t].Wants? {
      OwnersGoOn(states, actions, i, t);
      var lock := Needed(s.pcs[t].task);
      if Owner(s, lock) == None {
        a := Acquire(t);
      } else if s.pcs[Owner(s, lock).value].In? {
        a := Run(Owner(s, lock).value, Throws, false);
      } else if s.tableLock == None {
        a := Acquire(Owner(s, lock).value);
      } else {
        a := Run(s.tableLock.value, Throws, false);
      }
    } else {
      a := Run(t, Throws, false);
    }
  }

  // ----- without aborts -----

  /** From registration to the end: the functions for a new cookie are in the table until the signal
      comes, and then in the hands of the thread which handles it. */
  predicate LifeCycle(s: Sys, c: nat, signaller: Pc) {
    && s.notifyFn != Nowhere && s.fetchFn != Nowhere
    && (s.notifyFn in {Registered, Taken} ==> s.call.state == WaitForNotification && s.fetchFn == Registered)
    && (s.notifyFn == Spent ==> s.call.state != WaitForNotification)
    && (PastLookUp(signaller, c) ==> s.notifyFn == Spent)
    && (s.notifyFn == Spent && s.fetchFn == Registered ==> PastLookUp(signaller, c))
    && (s.fetchFn == Spent ==> |s.call.told| == 1)
  }

  predicate NoAbort(s: Sys, signaller: Pc) {
    && s.call.state != Aborting && !s.call.abortedAfterDone
    && (s.log.issued.Some? ==> s.log.issued.value != 0)
    && (s.call.state in {WaitForNotification, ReadyToFetch} ==> s.log.issued == Some(s.call.cookie))
    && (s.log.fetches != [] ==> s.log.issued == Some(s.log.fetches[0]))
    && (forall st :: st in s.call.told ==> st != Aborting)
    && (s.log.issued.Some? && s.log.isNew ==>
          var c := s.log.issued.value;
          if s.call.state == Initialized
          then c !in s.othersNotify && c !in s.othersFetch && !PastLookUp(signaller, c)
          else LifeCycle(s, c, signaller))
  }

  ghost predicate AbortFree(s: Sys) {
    s.log.aborts == 0 ==>
      NoAbort(s, Signaller(s)) && forall t :: 0 <= t < |s.pcs| ==> !InWindow(s.pcs[t])
  }

  lemma RequestKeepsNoAbort(s: Sys, task: Task, reply: Reply, yes: bool)
    requires IsRequestTask(task) && Good(s, In(task), Signaller(s)) && NoAbort(s, Signaller(s))
    requires reply.Slow? ==> reply.cookie != 0
    ensures var (r, next) := RequestEffect(s, task, reply, yes); NoAbort(r, Signaller(s)) && !InWindow(next)
  {
    hide Deliveries;
  }

  lemma SignalKeepsNoAbort(s: Sys, task: Task, yes: bool, holder: Pc)
    requires IsSignalTask(task) && Good(s, holder, In(task)) && NoAbort(s, In(task))
    requires Holds(In(task), CallLock) ==> holder == In(task)
    requires Holds(In(task), TableLock) ==> !Holds(holder, TableLock)
    ensures var (r, next) := SignalEffect(s, task, yes);
      NoAbort(r, SignallerAfter(In(task), next, In(task))) && !InWindow(next)
  {
    hide Deliveries;
  }

  lemma ClientKeepsNoAbort(s: Sys, task: Task, yes: bool, signaller: Pc)
    requires task in {Fetch, FetchBlocking, Read} && Good(s, In(task), signaller) && NoAbort(s, signaller)
    ensures var (r, next) := ClientEffect(s, task, yes); NoAbort(r, signaller) && !InWindow(next) && !IsSignal(next)
  {
    hide Deliveries;
  }

  lemma EffectKeepsNoAbort(s: Sys, pc: Pc, reply: Reply, yes: bool, holder: Pc)
    requires Good(s, holder, Signaller(s)) && NoAbort(s, Signaller(s))
    requires pc.In? && pc != In(BeginAbort) && !InWindow(pc)
    requires Holds(pc, CallLock) ==> holder == pc
    requires IsSignal(pc) ==> Signaller(s) == pc && (Holds(pc, TableLock) ==> !Holds(holder, TableLock))
    requires reply.Slow? ==> reply.cookie != 0
    ensures var (r, next) := Effect(s, pc, reply, yes);
      NoAbort(r, SignallerAfter(pc, next, Signaller(s))) && !InWindow(next)
  {
    hide Good, NoAbort, RequestEffect, SignalEffect, ClientEffect, Signaller;
    if IsRequestTask(pc.task) {
      RequestMoves(s, pc.task, reply, yes);
      RequestKeepsNoAbort(s, pc.task, reply, yes);
    } else if IsSignalTask(pc.task) {
      SignalKeepsNoAbort(s, pc.task, yes, holder);
    } else {
      ClientKeepsNoAbort(s, pc.task, yes, Signaller(s));
    }
  }

  lemma CountsAborts(s: Sys, pc: Pc, reply: Reply, yes: bool)
    ensures Effect(s, pc, reply, yes).0.log.aborts == s.log.aborts + if pc == In(BeginAbort) then 1 else 0
  {
  }

  lemma RunningKeepsAbortFree(s: Sys, t: nat, reply: Reply, yes: bool)
    requires Inv(s) && AbortFree(s) && Enabled(s, Run(t, reply, yes))
    ensures AbortFree(Next(s, Run(t, reply, yes)))
  {
    var pc := s.pcs[t];
    var (r, next) := Effect(s, pc, reply, yes);
    CountsAborts(s, pc, reply, yes);
    if r.log.aborts == 0 {
      EffectMoves(s, pc, reply, yes);
      EffectKeepsNoAbort(s, pc, reply, yes, Holder(s));
      hide Good, NoAbort, Effect;
      assert Locked(r) && Signaller(r) == Signaller(s);
      Moved(r, t, next);
      MovedNoAbort(r, t, next, SignallerAfter(pc, next, Signaller(s)));
    }
  }

  /** Where threads are does not matter otherwise. */
  lemma MovedNoAbort(r: Sys, t: nat, next: Pc, signaller: Pc)
    requires t < |r.pcs| && NoAbort(r, signaller)
    ensures NoAbort(Move(r, t, next), signaller)
  {
  }

  lemma EnteringKeepsAbortFree(s: Sys, a: Action)
    requires Inv(s) && AbortFree(s) && Enabled(s, a) && (a.Start? || a.Acquire?)
    ensures AbortFree(Next(s, a))
  {
    var pc := if a.Start? then Wants(a.task) else In(s.pcs[a.t].task);
    Moved(s, a.t, pc);
    hide Good, Locked, MayMove, Signaller, Holder;
  }

  lemma NextKeepsAbortFree(s: Sys, a: Action)
    requires Inv(s) && AbortFree(s) && Enabled(s, a)
    ensures AbortFree(Next(s, a))
  {
    match a
    case Run(t, reply, yes) => RunningKeepsAbortFree(s, t, reply, yes);
    case OthersChange(_, _) => OthersKeepAbortFree(s, a);
    case _ => EnteringKeepsAbortFree(s, a);
  }

  lemma OthersKeepAbortFree(s: Sys, a: Action)
    requires Inv(s) && AbortFree(s) && Enabled(s, a) && a.OthersChange?
    ensures AbortFree(Next(s, a))
  {
  }

  lemma {:induction false} RunKeepsAbortFree(states: seq<Sys>, actions: seq<Action>, i: nat)
    requires IsRun(states, actions) && i < |states|
    ensures Inv(states[i]) && AbortFree(states[i])
  {
    hide Inv, AbortFree, Next, Enabled, Init;
    RunKeepsInv(states, actions, i);
    if i > 0 {
      RunKeepsAbortFree(states, actions, i - 1);
      NextKeepsAbortFree(states[i - 1], actions[i - 1]);
    } else {
      InitIsAbortFree(|states[0].pcs|);
    }
  }

  lemma InitIsAbortFree(n: nat)
    ensures AbortFree(Init(n))
  {
    hide Deliveries;
  }

  /** No wake-up is lost: a call which waits for its new cookie has its function in the table, or in
      the hands of the thread which handles the signal; what this thread does wakes the call up. */
  lemma WaitingCallIsRegistered(states: seq<Sys>, actions: seq<Action>, i: nat)
    requires IsRun(states, actions) && i < |states| && states[i].log.aborts == 0
    requires states[i].log.isNew && states[i].call.state == WaitForNotification
    ensures states[i].log.issued == Some(states[i].call.cookie) && states[i].fetchFn == Registered
    ensures states[i].notifyFn == Registered || (states[i].notifyFn == Taken && states[i].signaller.Some?)
  {
    RunKeepsAbortFree(states, actions, i);
  }

  /** The lookup done for the first signal finds the call, unless the cookie has not been issued. */
  lemma LookUpFindsCall(states: seq<Sys>, actions: seq<Action>, i: nat, t: nat, sig: Signal)
    requires IsRun(states, actions) && i < |states| && states[i].log.aborts == 0
    requires t < |states[i].pcs| && states[i].pcs[t] == In(LookUp(sig))
    requires states[i].log.issued == Some(sig.cookie) && states[i].log.isNew
    ensures states[i].call.state == WaitForNotification ==>
      SignalEffect(states[i], LookUp(sig), true).1 == Wants(Notify(sig))
    ensures states[i].call.state != WaitForNotification ==> states[i].notifyFn == Spent
  {
    RunKeepsAbortFree(states, actions, i);
  }

  lemma SignalWakesCall(states: seq<Sys>, actions: seq<Action>, i: nat, t: nat, sig: Signal)
    requires IsRun(states, actions) && i < |states| && states[i].log.aborts == 0 && states[i].log.isNew
    requires t < |states[i].pcs| && states[i].pcs[t] == In(Notify(sig))
    ensures states[i].call.state == WaitForNotification
    ensures SignalEffect(states[i], Notify(sig), true).0.call.state == SignalState(sig.failed)
  {
    RunKeepsAbortFree(states, actions, i);
  }

  /** When everybody is idle, a call with a new cookie either still waits for its first signal, or its
      context has been told the outcome exactly once. */
  lemma IdleMeansWaitingOrTold(states: seq<Sys>, actions: seq<Action>, i: nat)
    requires IsRun(states, actions) && i < |states| && states[i].log.aborts == 0
    requires states[i].log.issued.Some? && states[i].log.isNew
    requires forall t :: 0 <= t < |states[i].pcs| ==> states[i].pcs[t] == Idle
    ensures
      var s := states[i];
      || (s.call.state == WaitForNotification && s.notifyFn == Registered && s.fetchFn == Registered)
      || exists st :: st in {ResultFetched, Failed, AbortedByPeer} && s.call.told == [st]
  {
    RunKeepsAbortFree(states, actions, i);
    var s := states[i];
    assert Holder(s) == Idle && Signaller(s) == Idle;
    if s.notifyFn != Registered {
      assert |s.call.told| == 1;
      assert s.call.told == [s.call.told[0]] && s.call.told[0] in s.call.told;
    }
  }

  /** Without aborts the one fetch is made with the cookie issued, which is not zero. */
  lemma FetchUsesIssuedCookie(states: seq<Sys>, actions: seq<Action>, i: nat)
    requires IsRun(states, actions) && i < |states| && states[i].log.aborts == 0
    ensures var log := states[i].log;
      log.fetches != [] ==> log.issued.Some? && log.issued.value != 0 && log.fetches == [log.issued.value]
  {
    RunKeepsAbortFree(states, actions, i);
  }

  // ----- cookies which are not new -----

  ghost predicate Unregistered(s: Sys) {
    s.log.issued.Some? && s.notifyFn == Nowhere && s.call.state != Initialized
  }

  lemma RequestStaysUnregistered(s: Sys, task: Task, reply: Reply, yes: bool, signaller: Pc)
    requires IsRequestTask(task) && Good(s, In(task), signaller) && Unregistered(s)
    ensures Unregistered(RequestEffect(s, task, reply, yes).0)
  {
    hide Delivered;
  }

  lemma SignalStaysUnregistered(s: Sys, task: Task, yes: bool, holder: Pc)
    requires IsSignalTask(task) && Good(s, holder, In(task)) && Unregistered(s)
    ensures Unregistered(SignalEffect(s, task, yes).0)
  {
    hide Delivered;
  }

  lemma ClientStaysUnregistered(s: Sys, task: Task, yes: bool)
    requires !IsRequestTask(task) && !IsSignalTask(task) && Unregistered(s)
    ensures Unregistered(ClientEffect(s, task, yes).0)
  {
  }

  lemma EffectStaysUnregistered(s: Sys, pc: Pc, reply: Reply, yes: bool, holder: Pc, signaller: Pc)
    requires Good(s, holder, signaller) && Unregistered(s)
    requires (Holds(pc, CallLock) ==> holder == pc) && (IsSignal(pc) ==> signaller == pc)
    ensures Unregistered(Effect(s, pc, reply, yes).0)
  {
    hide RequestEffect, SignalEffect, ClientEffect, Good, Unregistered;
    if pc.In? {
      if IsRequestTask(pc.task) {
        RequestStaysUnregistered(s, pc.task, reply, yes, signaller);
      } else if IsSignalTask(pc.task) {
        SignalStaysUnregistered(s, pc.task, yes, holder);
      } else {
        ClientStaysUnregistered(s, pc.task, yes);
      }
    }
  }

  lemma StaysUnregistered(s: Sys, a: Action)
    requires Inv(s) && Enabled(s, a) && Unregistered(s)
    ensures Unregistered(Next(s, a))
  {
    hide Good, Effect;
    if a.Run? {
      EffectStaysUnregistered(s, s.pcs[a.t], a.reply, a.yes, Holder(s), Signaller(s));
    }
  }

  lemma UnregisteredIsUnserved(s: Sys)
    requires Inv(s) && Unregistered(s)
    ensures s.call.state !in {ReadyToFetch, ResultFetched, Failed}
  {
    hide Locked, Delivered, Places, NoWindowBeforeRequest;
  }

  lemma {:induction false} UnregisteredIsNeverServed(states: seq<Sys>, actions: seq<Action>, i: nat, j: nat)
    requires IsRun(states, actions) && i <= j < |states| && Unregistered(states[i])
    ensures Unregistered(states[j]) && states[j].call.state !in {ReadyToFetch, ResultFetched, Failed}
  {
    hide Inv, Unregistered, Next, Enabled;
    if i < j {
      UnregisteredIsNeverServed(states, actions, i, j - 1);
      RunKeepsInv(states, actions, j - 1);
      StaysUnregistered(states[j - 1], actions[j - 1]);
    }
    RunKeepsInv(states, actions, j);
    UnregisteredIsUnserved(states[j]);
  }

  /** If another call has registered the same cookie, the call is never served, whatever signals come. */
  lemma DuplicateCookieIsNeverServed(states: seq<Sys>, actions: seq<Action>, i: nat, j: nat, t: nat, c: nat)
    requires IsRun(states, actions) && i < j < |states| && c in states[i].othersNotify
    requires actions[i].Run? && actions[i].t == t && states[i].pcs[t] == In(Register(Slow(c)))
    ensures states[j].call.state !in {ReadyToFetch, ResultFetched, Failed}
  {
    hide Inv, Unregistered, Enabled, Next;
    RunKeepsInv(states, actions, i);
    assert actions[i] == Run(t, actions[i].reply, actions[i].yes);
    IsLeftOut(states[i], t, c, actions[i].reply, actions[i].yes);
    UnregisteredIsNeverServed(states, actions, i + 1, j);
  }

  lemma IsLeftOut(s: Sys, t: nat, c: nat, reply: Reply, yes: bool)
    requires Inv(s) && c in s.othersNotify && Enabled(s, Run(t, reply, yes)) && s.pcs[t] == In(Register(Slow(c)))
    ensures Unregistered(Next(s, Run(t, reply, yes)))
  {
    assert Holder(s) == s.pcs[t];
    hide Locked, Delivered, Places, NoWindowBeforeRequest;
  }

  /** A cookie which is not new was in the table for another call, or an earlier signal for it was being handled
      when it was issued. */
  predicate WasTaken(s: Sys, c: nat, signaller: Pc) {
    c in s.othersNotify || c in s.othersFetch || PastLookUp(signaller, c)
  }

  /** One of the two functions has never been registered, or the fetch function is used up before the call
      is woken. */
  predicate OutOfStep(s: Sys, c: nat, signaller: Pc) {
    || s.notifyFn == Nowhere || s.fetchFn in {Nowhere, Spent}
    || (s.notifyFn == Registered && (s.fetchFn == Taken || PastLookUp(signaller, c)))
  }

  predicate ToldAborts(call: CallData) {
    forall st :: st in call.told ==> st in {Aborting, AbortedByPeer}
  }

  predicate Stale(s: Sys, signaller: Pc) {
    s.log.issued.Some? && !s.log.isNew ==>
      && ToldAborts(s.call)
      && if s.call.state == Initialized then WasTaken(s, s.log.issued.value, signaller)
         else OutOfStep(s, s.log.issued.value, signaller)
  }

  lemma RequestKeepsStale(s: Sys, task: Task, reply: Reply, yes: bool)
    requires IsRequestTask(task) && Good(s, In(task), Signaller(s)) && Stale(s, Signaller(s))
    ensures Stale(RequestEffect(s, task, reply, yes).0, Signaller(s))
  {
    hide Deliveries;
  }

  lemma SignalKeepsStale(s: Sys, task: Task, yes: bool, holder: Pc)
    requires IsSignalTask(task) && Good(s, holder, In(task)) && Stale(s, In(task))
    requires Holds(In(task), CallLock) ==> holder == In(task)
    requires Holds(In(task), TableLock) ==> !Holds(holder, TableLock)
    ensures var (r, next) := SignalEffect(s, task, yes); Stale(r, SignallerAfter(In(task), next, In(task)))
  {
    hide Deliveries;
  }

  lemma ClientKeepsStale(s: Sys, task: Task, yes: bool, signaller: Pc)
    requires !IsRequestTask(task) && !IsSignalTask(task) && Good(s, In(task), signaller) && Stale(s, signaller)
    requires InWindow(In(task)) ==> s.call.state != Initialized
    ensures Stale(ClientEffect(s, task, yes).0, signaller)
  {
    hide Deliveries;
  }

  lemma EffectKeepsStale(s: Sys, pc: Pc, reply: Reply, yes: bool, holder: Pc)
    requires Good(s, holder, Signaller(s)) && Stale(s, Signaller(s)) && (pc.In? || pc.CallsPeer?)
    requires InWindow(pc) ==> s.call.state != Initialized
    requires Holds(pc, CallLock) ==> holder == pc
    requires IsSignal(pc) ==> Signaller(s) == pc && (Holds(pc, TableLock) ==> !Holds(holder, TableLock))
    ensures var (r, next) := Effect(s, pc, reply, yes); Stale(r, SignallerAfter(pc, next, Signaller(s)))
  {
    EffectMoves(s, pc, reply, yes);
    hide Good, Stale, RequestEffect, SignalEffect, ClientEffect, Signaller;
    if pc.In? {
      if IsRequestTask(pc.task) {
        RequestKeepsStale(s, pc.task, reply, yes);
      } else if IsSignalTask(pc.task) {
        SignalKeepsStale(s, pc.task, yes, holder);
      } else {
        ClientKeepsStale(s, pc.task, yes, Signaller(s));
      }
    }
  }

  lemma RunningKeepsStale(s: Sys, t: nat, reply: Reply, yes: bool)
    requires Inv(s) && Stale(s, Signaller(s)) && Enabled(s, Run(t, reply, yes))
    ensures var r := Next(s, Run(t, reply, yes)); Stale(r, Signaller(r))
  {
    var pc := s.pcs[t];
    var (r, next) := Effect(s, pc, reply, yes);
    EffectMoves(s, pc, reply, yes);
    EffectKeepsStale(s, pc, reply, yes, Holder(s));
    hide Good, Stale, Effect;
    assert Locked(r) && Signaller(r) == Signaller(s);
    Moved(r, t, next);
    MovedStale(r, t, next, SignallerAfter(pc, next, Signaller(s)));
  }

  lemma MovedStale(r: Sys, t: nat, next: Pc, signaller: Pc)
    requires t < |r.pcs| && Stale(r, signaller)
    ensures Stale(Move(r, t, next), signaller)
  {
  }

  lemma NextKeepsStale(s: Sys, a: Action)
    requires Inv(s) && Stale(s, Signaller(s)) && Enabled(s, a)
    ensures Stale(Next(s, a), Signaller(Next(s, a)))
  {
    match a
    case Run(t, reply, yes) => RunningKeepsStale(s, t, reply, yes);
    case OthersChange(_, _) => OthersKeepStale(s, a);
    case _ => EnteringKeepsStale(s, a);
  }

  lemma OthersKeepStale(s: Sys, a: Action)
    requires Inv(s) && Stale(s, Signaller(s)) && Enabled(s, a) && a.OthersChange?
    ensures Stale(Next(s, a), Signaller(Next(s, a)))
  {
    assert Registering(Holder(s)) ==> s.callLock.Some? && Holds(s.pcs[s.callLock.value], TableLock);
    hide Delivered, Places;
  }

  lemma EnteringKeepsStale(s: Sys, a: Action)
    requires Inv(s) && Stale(s, Signaller(s)) && Enabled(s, a) && (a.Start? || a.Acquire?)
    ensures Stale(Next(s, a), Signaller(Next(s, a)))
  {
    var pc := if a.Start? then Wants(a.task) else In(s.pcs[a.t].task);
    Moved(s, a.t, pc);
    MovedStale(s, a.t, pc, Signaller(s));
    hide Good, Locked, MayMove, Signaller, Holder;
  }

  /** If the cookie issued is not new, whatever the reason, the context is never told about a result or a failure,
      only about an abort. */
  lemma {:induction false} StaleCookieTellsNothing(states: seq<Sys>, actions: seq<Action>, i: nat)
    requires IsRun(states, actions) && i < |states|
    ensures Stale(states[i], Signaller(states[i]))
    ensures states[i].log.issued.Some? && !states[i].log.isNew ==> ToldAborts(states[i].call)
  {
    if i > 0 {
      StaleCookieTellsNothing(states, actions, i - 1);
      RunKeepsInv(states, actions, i - 1);
      hide Inv, Stale, Next, Enabled, Signaller;
      NextKeepsStale(states[i - 1], actions[i - 1]);
    }
    hide Signaller;
  }

  // ----- aborts which nobody interferes with -----

  /** While a thread is between the two halves of an abort, nobody else does anything. */
  ghost predicate Undisturbed(s: Sys, a: Action) {
    forall t :: 0 <= t < |s.pcs| && InWindow(s.pcs[t]) ==> !a.OthersChange? && a.t == t
  }

  /** `window` tells whether an abort is half done. */
  predicate AtomicAborts(s: Sys, window: bool) {
    && (s.call.promise != Empty ==> s.call.state in {Initialized, ResultFetched, Failed})
    && (window ==> s.call.state in {WaitForNotification, ReadyToFetch})
  }

  /** Threads which are in the middle of an abort. */
  ghost predicate Atomic(s: Sys) {
    && (forall t, u :: 0 <= t < |s.pcs| && 0 <= u < |s.pcs| && InWindow(s.pcs[t]) && InWindow(s.pcs[u]) ==> t == u)
    && AtomicAborts(s, exists t :: 0 <= t < |s.pcs| && InWindow(s.pcs[t]))
  }

  lemma RequestIsAtomic(s: Sys, task: Task, reply: Reply, yes: bool, signaller: Pc)
    requires IsRequestTask(task) && Good(s, In(task), signaller) && AtomicAborts(s, false)
    ensures var (r, _) := RequestEffect(s, task, reply, yes);
      AtomicAborts(r, false) && KeepsOutcome(s.call.state, r.call.state, task == RunFastPath && yes)
  {
    hide Deliveries;
  }

  lemma SignalIsAtomic(s: Sys, task: Task, yes: bool, holder: Pc)
    requires IsSignalTask(task) && Good(s, holder, In(task)) && AtomicAborts(s, false)
    ensures var (r, _) := SignalEffect(s, task, yes);
      AtomicAborts(r, false) && KeepsOutcome(s.call.state, r.call.state, false)
  {
    hide Deliveries;
  }

  lemma ClientIsAtomic(s: Sys, task: Task, yes: bool, signaller: Pc)
    requires !IsRequestTask(task) && !IsSignalTask(task) && Good(s, In(task), signaller)
    requires AtomicAborts(s, InWindow(In(task)))
    ensures var (r, next) := ClientEffect(s, task, yes);
      AtomicAborts(r, InWindow(next)) && KeepsOutcome(s.call.state, r.call.state, false)
  {
    hide Deliveries;
  }

  /** An outcome stays, except that a context which throws on the fast path makes the call fail. */
  predicate KeepsOutcome(before: CallState, after: CallState, contextThrows: bool) {
    before in {ResultFetched, Failed, AbortedByPeer} ==>
      after == before || (contextThrows && before == ResultFetched && after == Failed)
  }

  lemma EffectIsAtomic(s: Sys, pc: Pc, reply: Reply, yes: bool, holder: Pc, signaller: Pc)
    requires Good(s, holder, signaller) && AtomicAborts(s, InWindow(pc)) && (pc.In? || pc.CallsPeer?)
    requires (Holds(pc, CallLock) ==> holder == pc) && (IsSignal(pc) ==> signaller == pc)
    ensures var (r, next) := Effect(s, pc, reply, yes);
      AtomicAborts(r, InWindow(next)) && KeepsOutcome(s.call.state, r.call.state, pc == In(RunFastPath) && yes)
  {
    if pc.In? {
      hide Good, RequestEffect, SignalEffect, ClientEffect;
      if IsRequestTask(pc.task) {
        RequestMoves(s, pc.task, reply, yes);
        RequestIsAtomic(s, pc.task, reply, yes, signaller);
      } else if IsSignalTask(pc.task) {
        SignalMoves(s, pc.task, yes);
        SignalIsAtomic(s, pc.task, yes, holder);
      } else {
        ClientIsAtomic(s, pc.task, yes, signaller);
      }
    }
  }

  lemma RunningIsAtomic(s: Sys, a: Action)
    requires Inv(s) && Atomic(s) && Enabled(s, a) && Undisturbed(s, a) && a.Run?
    ensures Atomic(Next(s, a))
    ensures KeepsOutcome(s.call.state, Next(s, a).call.state, s.pcs[a.t] == In(RunFastPath) && a.yes)
  {
    var pc := s.pcs[a.t];
    var (r, next) := Effect(s, pc, a.reply, a.yes);
    EffectIsAtomic(s, pc, a.reply, a.yes, Holder(s), Signaller(s));
    EffectMoves(s, pc, a.reply, a.yes);
    hide Good, Effect;
    if InWindow(next) {
      assert Move(r, a.t, next).pcs[a.t] == next;
    }
  }

  lemma NextIsAtomic(s: Sys, a: Action)
    requires Inv(s) && Atomic(s) && Enabled(s, a) && Undisturbed(s, a)
    ensures Atomic(Next(s, a))
    ensures KeepsOutcome(s.call.state, Next(s, a).call.state, a.Run? && s.pcs[a.t] == In(RunFastPath) && a.yes)
  {
    if a.Run? {
      RunningIsAtomic(s, a);
    } else {
      hide Good;
      forall t | 0 <= t < |s.pcs| && InWindow(Next(s, a).pcs[t])
        ensures InWindow(s.pcs[t])
      {
      }
    }
  }

  lemma {:induction false} RunIsAtomic(states: seq<Sys>, actions: seq<Action>, i: nat)
    requires IsRun(states, actions) && i < |states|
    requires forall k {:trigger actions[k]} :: 0 <= k < i ==> Undisturbed(states[k], actions[k])
    ensures Inv(states[i]) && Atomic(states[i])
  {
    RunKeepsInv(states, actions, i);
    if i > 0 {
      RunIsAtomic(states, actions, i - 1);
      hide Inv, Atomic, Next, Enabled, Undisturbed;
      NextIsAtomic(states[i - 1], actions[i - 1]);
    }
  }

  /** If aborts are not interfered with, the promise is satisfied exactly for finished calls (except for
      the moment in which a request stores it), and an outcome is never lost. */
  lemma AtomicAbortsLoseNothing(states: seq<Sys>, actions: seq<Action>, i: nat)
    requires IsRun(states, actions) && i < |states|
    requires forall k {:trigger actions[k]} :: 0 <= k < |actions| ==> Undisturbed(states[k], actions[k])
    ensures !Registering(Holder(states[i])) ==>
      (states[i].call.promise != Empty <==> states[i].call.state in {ResultFetched, Failed})
    ensures i < |actions| ==>
      KeepsOutcome(states[i].call.state, states[i + 1].call.state,
                   actions[i].Run? && states[i].pcs[actions[i].t] == In(RunFastPath) && actions[i].yes)
  {
    RunIsAtomic(states, actions, i);
    if i < |actions| {
      assert Undisturbed(states[i], actions[i]);
      NextIsAtomic(states[i], actions[i]);
    }
  }

  // ----- exactly when an outcome is lost -----

  predicate HasOutcome(call: CallData) {
    call.state in {ResultFetched, Failed, AbortedByPeer}
  }

  predicate IsFinished(call: CallData) {
    call.state in {ResultFetched, Failed}
  }

  /** The second half of an abort. */
  predicate CompletesAbort(s: Sys, a: Action) {
    a.Run? && a.t < |s.pcs| && s.pcs[a.t] == In(EndAbort)
  }

  /** A context which throws when it is told about the result on the fast path. */
  predicate ContextThrows(s: Sys, a: Action) {
    a.Run? && a.t < |s.pcs| && s.pcs[a.t] == In(RunFastPath) && a.yes
  }

  lemma RequestKeepsOutcome(s: Sys, task: Task, reply: Reply, yes: bool, signaller: Pc)
    requires IsRequestTask(task) && Good(s, In(task), signaller) && HasOutcome(s.call)
    ensures RequestEffect(s, task, reply, yes).0.call.state != s.call.state <==> task == RunFastPath && yes
  {
    hide Delivered, Places;
  }

  lemma SignalKeepsOutcome(s: Sys, task: Task, yes: bool)
    requires IsSignalTask(task) && HasOutcome(s.call)
    ensures SignalEffect(s, task, yes).0.call.state == s.call.state
  {
  }

  lemma ClientKeepsOutcome(s: Sys, task: Task, yes: bool)
    requires !IsRequestTask(task) && !IsSignalTask(task) && HasOutcome(s.call)
    requires s.call.state == ResultFetched ==> s.call.promise == Value
    ensures ClientEffect(s, task, yes).0.call.state != s.call.state <==> task == EndAbort
  {
  }

  lemma EffectKeepsOutcome(s: Sys, pc: Pc, reply: Reply, yes: bool, holder: Pc, signaller: Pc)
    requires Good(s, holder, signaller) && HasOutcome(s.call) && (Holds(pc, CallLock) ==> holder == pc)
    ensures Effect(s, pc, reply, yes).0.call.state != s.call.state <==>
      pc == In(EndAbort) || (pc == In(RunFastPath) && yes)
  {
    assert s.call.state == ResultFetched ==> s.call.promise == Value;
    hide RequestEffect, SignalEffect, ClientEffect, Good;
    if pc.In? {
      if IsRequestTask(pc.task) {
        RequestKeepsOutcome(s, pc.task, reply, yes, signaller);
      } else if IsSignalTask(pc.task) {
        SignalKeepsOutcome(s, pc.task, yes);
      } else {
        ClientKeepsOutcome(s, pc.task, yes);
      }
    }
  }

  /** Whatever the threads do, a step changes an outcome exactly if it completes an abort, or if the context throws
      on the fast path. */
  lemma OutcomeLostExactly(s: Sys, a: Action)
    requires Inv(s) && Enabled(s, a) && HasOutcome(s.call)
    ensures Next(s, a).call.state != s.call.state <==> CompletesAbort(s, a) || ContextThrows(s, a)
  {
    hide Good, Effect;
    if a.Run? {
      EffectKeepsOutcome(s, s.pcs[a.t], a.reply, a.yes, Holder(s), Signaller(s));
    }
  }

  ghost predicate Lasts(states: seq<Sys>, i: nat, j: nat)
    requires i <= j < |states|
  {
    forall k :: i <= k <= j ==> states[k].call.state == states[i].call.state
  }

  ghost predicate NobodyLosesIt(states: seq<Sys>, actions: seq<Action>, i: nat, j: nat)
    requires i <= j <= |actions| < |states|
  {
    forall k {:trigger actions[k]} :: i <= k < j ==>
      !CompletesAbort(states[k], actions[k]) && !ContextThrows(states[k], actions[k])
  }

  /** In every run, an outcome lasts exactly as long as no such step is made. */
  lemma {:induction false} OutcomeLasts(states: seq<Sys>, actions: seq<Action>, i: nat, j: nat)
    requires IsRun(states, actions) && i <= j < |states| && HasOutcome(states[i].call)
    ensures Lasts(states, i, j) <==> NobodyLosesIt(states, actions, i, j)
  {
    if i < j {
      OutcomeLasts(states, actions, i, j - 1);
      LastsByOne(states, actions, i, j);
      RunKeepsInv(states, actions, j - 1);
      var s, a := states[j - 1], actions[j - 1];
      assert Enabled(s, a) && states[j] == Next(s, a);
      assert Lasts(states, i, j - 1) ==> s.call.state == states[i].call.state;
      hide Inv, Next, Enabled, IsRun, CompletesAbort, ContextThrows, Lasts, NobodyLosesIt;
      if Lasts(states, i, j - 1) {
        OutcomeLostExactly(s, a);
      }
    }
  }

  lemma LastsByOne(states: seq<Sys>, actions: seq<Action>, i: nat, j: nat)
    requires i < j <= |actions| < |states|
    ensures Lasts(states, i, j) <==> Lasts(states, i, j - 1) && states[j].call.state == states[i].call.state
    ensures NobodyLosesIt(states, actions, i, j) <==>
      && NobodyLosesIt(states, actions, i, j - 1)
      && !CompletesAbort(states[j - 1], actions[j - 1]) && !ContextThrows(states[j - 1], actions[j - 1])
  {
    hide CompletesAbort, ContextThrows;
  }

  /** The promise is satisfied, but the call does not look finished. */
  predicate LooksUnfinished(call: CallData) {
    call.promise != Empty && call.state !in {Initialized, ResultFetched, Failed}
  }

  lemma RequestFinishes(s: Sys, task: Task, reply: Reply, yes: bool, signaller: Pc)
    requires IsRequestTask(task) && Good(s, In(task), signaller)
    ensures LooksUnfinished(RequestEffect(s, task, reply, yes).0.call) <==> LooksUnfinished(s.call)
  {
    hide Delivered, Places;
  }

  lemma SignalFinishes(s: Sys, task: Task, yes: bool, holder: Pc)
    requires IsSignalTask(task) && Good(s, holder, In(task))
    ensures LooksUnfinished(SignalEffect(s, task, yes).0.call) <==> LooksUnfinished(s.call)
  {
    hide Delivered;
  }

  lemma ClientFinishes(s: Sys, task: Task, yes: bool, signaller: Pc)
    requires !IsRequestTask(task) && !IsSignalTask(task) && Good(s, In(task), signaller)
    requires task == EndAbort ==> s.call.state != Initialized
    ensures LooksUnfinished(ClientEffect(s, task, yes).0.call) <==>
      LooksUnfinished(s.call) || (task == EndAbort && IsFinished(s.call))
  {
    hide Delivered, Places;
  }

  lemma EffectFinishes(s: Sys, pc: Pc, reply: Reply, yes: bool, holder: Pc, signaller: Pc)
    requires Good(s, holder, signaller) && (InWindow(pc) ==> s.call.state != Initialized)
    requires (Holds(pc, CallLock) ==> holder == pc) && (IsSignal(pc) ==> signaller == pc)
    ensures LooksUnfinished(Effect(s, pc, reply, yes).0.call) <==>
      LooksUnfinished(s.call) || (pc == In(EndAbort) && IsFinished(s.call))
  {
    hide RequestEffect, SignalEffect, ClientEffect, Good, LooksUnfinished;
    if pc.In? {
      if IsRequestTask(pc.task) {
        RequestFinishes(s, pc.task, reply, yes, signaller);
      } else if IsSignalTask(pc.task) {
        SignalFinishes(s, pc.task, yes, holder);
      } else {
        ClientFinishes(s, pc.task, yes, signaller);
      }
    }
  }

  lemma NextFinishes(s: Sys, a: Action)
    requires Inv(s) && Enabled(s, a)
    ensures LooksUnfinished(Next(s, a).call) <==>
      LooksUnfinished(s.call) || (CompletesAbort(s, a) && IsFinished(s.call))
  {
    hide Good, Effect, LooksUnfinished;
    if a.Run? {
      EffectFinishes(s, s.pcs[a.t], a.reply, a.yes, Holder(s), Signaller(s));
    }
  }

  /** An abort was completed when the call was finished already. */
  ghost predicate Overwritten(states: seq<Sys>, actions: seq<Action>, j: nat)
    requires j <= |actions| < |states|
  {
    exists k {:trigger actions[k]} :: 0 <= k < j && CompletesAbort(states[k], actions[k]) && IsFinished(states[k].call)
  }

  lemma {:induction false} UnfinishedMeansOverwritten(states: seq<Sys>, actions: seq<Action>, j: nat)
    requires IsRun(states, actions) && j < |states|
    ensures LooksUnfinished(states[j].call) <==> Overwritten(states, actions, j)
  {
    if j > 0 {
      UnfinishedMeansOverwritten(states, actions, j - 1);
      RunKeepsInv(states, actions, j - 1);
      hide Inv, Next, CompletesAbort, IsFinished, LooksUnfinished;
      NextFinishes(states[j - 1], actions[j - 1]);
      assert states[j] == Next(states[j - 1], actions[j - 1]);
    }
  }

  /** In every run, the promise is satisfied exactly for finished calls (except for the moment in which a request
      stores it) if and only if no abort has been completed after the call was finished. */
  lemma PromiseMeansFinished(states: seq<Sys>, actions: seq<Action>, j: nat)
    requires IsRun(states, actions) && j < |states| && !Registering(Holder(states[j]))
    ensures (states[j].call.promise != Empty <==> IsFinished(states[j].call)) <==> !Overwritten(states, actions, j)
  {
    UnfinishedMeansOverwritten(states, actions, j);
    RunKeepsInv(states, actions, j);
    hide Overwritten, Delivered, Places, Locked;
  }

  // ----- aborts which are interfered with -----

  lemma Extend(states: seq<Sys>, actions: seq<Action>, a: Action) returns (sts: seq<Sys>, acts: seq<Action>)
    requires IsRun(states, actions) && Enabled(states[|actions|], a)
    ensures IsRun(sts, acts) && |acts| == |actions| + 1 && sts[0] == states[0]
    ensures sts[|acts|] == Next(states[|actions|], a)
  {
    sts, acts := states + [Next(states[|actions|], a)], actions + [a];
  }

  /** The first thread begins a request. */
  lemma RunToRequest() returns (states: seq<Sys>, actions: seq<Action>)
    ensures IsRun(states, actions)
    ensures states[|actions|] == REQUESTING
  {
    states, actions := [Init(3)], [];
    assert IsRun(states, actions);
    hide IsRun;
    assert Init(3).pcs == [Idle, Idle, Idle];
    states, actions := Extend(states, actions, Start(0, Request));
    states, actions := Extend(states, actions, Acquire(0));
    states, actions := Extend(states, actions, Run(0, Slow(7), true));
  }

  const REQUESTING := Init(3).(pcs := [Wants(Issue), Idle, Idle], callLock := Some(0))

  /** It is answered with cookie 7, and waits for the signal. */
  lemma RunToWaiting() returns (states: seq<Sys>, actions: seq<Action>)
    ensures IsRun(states, actions)
    ensures states[|actions|] == WAITING
  {
    hide IsRun;
    states, actions := RunToRequest();
    states, actions := Extend(states, actions, Acquire(0));
    states, actions := Extend(states, actions, Run(0, Slow(7), true));
    states, actions := Extend(states, actions, Run(0, Slow(7), true));
  }

  const WAITING := Sys(
    NEW_CALL.(state := WaitForNotification, cookie := 7), [Idle, Idle, Idle], None, None, None,
    Registered, Registered, {}, {}, Log(Some(7), true, [], [], 0))

  /** The second thread has begun to abort. */
  lemma RunToWindow() returns (states: seq<Sys>, actions: seq<Action>)
    ensures IsRun(states, actions)
    ensures states[|actions|] == HALF_ABORTED
  {
    hide IsRun;
    states, actions := RunToWaiting();
    states, actions := Extend(states, actions, Start(1, BeginAbort));
    states, actions := Extend(states, actions, Acquire(1));
    states, actions := Extend(states, actions, Run(1, Throws, true));
  }

  const HALF_ABORTED := WAITING.(
    call := WAITING.call.(cookie := 0, cleared := 7), pcs := [Idle, CallsPeer(7), Idle],
    log := WAITING.log.(aborts := 1))

  /** The third thread handles the signal meanwhile. */
  lemma RunToNotified() returns (states: seq<Sys>, actions: seq<Action>)
    ensures IsRun(states, actions)
    ensures states[|actions|] == NOTIFIED_IN_WINDOW
  {
    hide IsRun;
    states, actions := RunToWindow();
    states, actions := Extend(states, actions, Start(2, LookUp(Signal(7, false))));
    states, actions := Extend(states, actions, Acquire(2));
    states, actions := Extend(states, actions, Run(2, Throws, true));
    states, actions := Extend(states, actions, Acquire(2));
    states, actions := Extend(states, actions, Run(2, Throws, true));
  }

  const NOTIFIED_IN_WINDOW := HALF_ABORTED.(
    call := HALF_ABORTED.call.(state := ReadyToFetch), pcs := [Idle, CallsPeer(7), Wants(LookUpFetch(7))],
    notifyFn := Spent, signaller := Some(2))

  lemma RunToFetching() returns (states: seq<Sys>, actions: seq<Action>)
    ensures IsRun(states, actions)
    ensures states[|actions|] == NOTIFIED_IN_WINDOW.(pcs := [Idle, CallsPeer(7), Wants(FetchAndTell)], fetchFn := Taken)
  {
    hide IsRun;
    states, actions := RunToNotified();
    states, actions := Extend(states, actions, Acquire(2));
    states, actions := Extend(states, actions, Run(2, Throws, true));
  }

  /** It fetches the result, and tells the context. */
  lemma RunToFetched() returns (states: seq<Sys>, actions: seq<Action>)
    ensures IsRun(states, actions)
    ensures states[|actions|] == FETCHED_IN_WINDOW
  {
    hide IsRun;
    states, actions := RunToFetching();
    states, actions := Extend(states, actions, Acquire(2));
    states, actions := Extend(states, actions, Run(2, Throws, true));
  }

  const FETCHED_IN_WINDOW := HALF_ABORTED.(
    call := HALF_ABORTED.call.(state := ResultFetched, cleared := 0, promise := Value, told := [ResultFetched]),
    notifyFn := Spent, fetchFn := Spent, log := HALF_ABORTED.log.(fetches := [0]))

  /** A result which is fetched while an abort calls the peer is lost: the call ends up aborting, with
      its promise satisfied, after its context has been told about the result. The fetch was made
      with cookie zero. */
  lemma AbortOverwritesResult() returns (states: seq<Sys>, actions: seq<Action>)
    ensures IsRun(states, actions)
    ensures var s := states[|actions|];
      s.call.state == Aborting && s.call.promise == Value && s.call.told == [ResultFetched] && s.log.fetches == [0]
  {
    hide IsRun;
    states, actions := RunToFetched();
    states, actions := Extend(states, actions, Run(1, Throws, true));
    states, actions := Extend(states, actions, Acquire(1));
    states, actions := Extend(states, actions, Run(1, Throws, true));
  }
}

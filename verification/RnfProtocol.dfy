/** Any number of threads which request, fetch, abort and read one call, and the thread which
    handles signals, step by step as they take and release the lock of the call and the lock
    of the cookie table. Other calls use the same table. */
module RnfProtocol {
  import opened Base
  import opened Rnf

  datatype Lock = CallLock | TableLock

  /** Critical sections. `Issue` is entered from within `Request`. */
  datatype Task =
    | Request | Issue | Register(reply: Reply) | RunFastPath
    | LookUp(signal: Signal) | Notify(signal: Signal) | LookUpFetch(cookie: nat) | FetchAndTell
    | BeginAbort | EndAbort
    | Fetch | FetchBlocking | Read

  /** Where a thread is: it waits for the lock needed for a task, is in its critical section, or is
      calling the peer for aborting a cookie, without any lock. */
  datatype Pc = Idle | Wants(task: Task) | In(task: Task) | CallsPeer(cookie: nat)

  predicate Holds(pc: Pc, lock: Lock) {
    match lock
    case CallLock => pc == Wants(Issue) || (pc.In? && !pc.task.LookUp? && !pc.task.LookUpFetch?)
    case TableLock => pc.In? && (pc.task.Issue? || pc.task.Register? || pc.task.LookUp? || pc.task.LookUpFetch?)
  }

  function Needed(task: Task): Lock {
    if task.Issue? || task.LookUp? || task.LookUpFetch? then TableLock else CallLock
  }

  /** Where a function registered for the cookie of the call is. */
  datatype Place = Nowhere | Registered | Taken | Spent

  /** What has happened so far: the cookie returned by the peer and whether it was a fresh one, the
      cookies passed to the fetch function, the answers to readers, the number of aborts. */
  datatype Log = Log(issued: Option<nat>, isNew: bool, fetches: seq<nat>, answers: seq<Answer>, aborts: nat)

  datatype Sys = Sys(
    call: CallData,
    pcs: seq<Pc>,
    callLock: Option<nat>, tableLock: Option<nat>,
    signaller: Option<nat>,                           // the thread which handles a signal
    notifyFn: Place, fetchFn: Place,
    othersNotify: set<nat>, othersFetch: set<nat>,    // cookies registered by other calls
    log: Log)

  function Init(threads: nat): Sys {
    Sys(NEW_CALL, seq(threads, _ => Idle), None, None, None, Nowhere, Nowhere, {}, {}, Log(None, false, [], [], 0))
  }

  // ----- steps -----

  /** `yes` tells whether the peer answers a fetch or agrees with an abort, whether the request
      function throws with a result already stored, or whether the context throws. */
  datatype Action =
    | Start(t: nat, task: Task)
    | Acquire(t: nat)
    | Run(t: nat, reply: Reply, yes: bool)
    | OthersChange(notify: set<nat>, fetch: set<nat>)

  predicate IsSignalTask(task: Task) {
    task.LookUp? || task.Notify? || task.LookUpFetch? || task.FetchAndTell?
  }

  predicate IsSignal(pc: Pc) {
    (pc.In? || pc.Wants?) && IsSignalTask(pc.task)
  }

  function Owner(s: Sys, lock: Lock): Option<nat> {
    if lock.CallLock? then s.callLock else s.tableLock
  }

  predicate Enabled(s: Sys, a: Action) {
    match a
    case Start(t, task) =>
      && t < |s.pcs| && s.pcs[t] == Idle
      && (task in {Request, BeginAbort, Fetch, FetchBlocking, Read} || (task.LookUp? && s.signaller == None))
    case Acquire(t) => t < |s.pcs| && s.pcs[t].Wants? && Owner(s, Needed(s.pcs[t].task)) == None
    case Run(t, reply, _) =>
      && t < |s.pcs| && (s.pcs[t].In? || s.pcs[t].CallsPeer?)
      && (reply.Slow? ==> reply.cookie != 0)
    case OthersChange(notify, fetch) =>
      && s.tableLock == None
      && (s.log.issued.Some? && s.notifyFn == Registered ==> s.log.issued.value !in notify)
      && (s.log.issued.Some? && s.fetchFn == Registered ==> s.log.issued.value !in fetch)
  }

  function NewOwner(owner: Option<nat>, t: nat, holds: bool): Option<nat> {
    if holds then Some(t) else if owner == Some(t) then None else owner
  }

  /** The thread goes on to another place, with the locks held there. */
  function Move(s: Sys, t: nat, pc: Pc): Sys
    requires t < |s.pcs|
  {
    s.(pcs := s.pcs[t := pc],
       callLock := NewOwner(s.callLock, t, Holds(pc, CallLock)),
       tableLock := NewOwner(s.tableLock, t, Holds(pc, TableLock)),
       signaller := NewOwner(s.signaller, t, IsSignal(pc)))
  }

  /** The thread which holds the call lock, and the one which handles a signal. */
  function Holder(s: Sys): Pc {
    if s.callLock.Some? && s.callLock.value < |s.pcs| then s.pcs[s.callLock.value] else Idle
  }

  function Signaller(s: Sys): Pc {
    if s.signaller.Some? && s.signaller.value < |s.pcs| then s.pcs[s.signaller.value] else Idle
  }

  /** The signal for a cookie is being handled, and the first lookup has been done. */
  predicate PastLookUp(signaller: Pc, c: nat) {
    signaller == Wants(LookUpFetch(c)) || signaller == In(LookUpFetch(c))
  }

  /** A cookie is new if no call has it, and if no signal for it is being handled for which
      no call was found. */
  function AfterReply(s: Sys, reply: Reply): Log {
    match reply
    case Slow(c) =>
      s.log.(issued := Some(c), isNew := c !in s.othersNotify && c !in s.othersFetch && !PastLookUp(Signaller(s), c))
    case _ => s.log
  }

  function DoFetch(s: Sys, call: CallData): Sys {
    s.(call := call,
       log := if s.call.state == ReadyToFetch then s.log.(fetches := s.log.fetches + [s.call.cookie]) else s.log)
  }

  predicate IsRequestTask(task: Task) {
    task.Request? || task.Issue? || task.Register? || task.RunFastPath?
  }

  /** What a thread does next: the effect on what is shared, and where the thread goes. */
  function Effect(s: Sys, pc: Pc, reply: Reply, yes: bool): (Sys, Pc) {
    if pc.CallsPeer? then (s, if yes then Wants(EndAbort) else Idle)
    else if !pc.In? then (s, pc)
    else if IsRequestTask(pc.task) then RequestEffect(s, pc.task, reply, yes)
    else if IsSignalTask(pc.task) then SignalEffect(s, pc.task, yes)
    else ClientEffect(s, pc.task, yes)
  }

  function RequestEffect(s: Sys, task: Task, reply: Reply, yes: bool): (Sys, Pc)
    requires IsRequestTask(task)
  {
    match task
    case Request => (s, if s.call.state != Initialized then Idle else Wants(Issue))
    case Issue =>
      var promise := match reply
        case FastPath => Value
        case Slow(_) => Empty
        case Throws => if yes then Value else Empty;
      (s.(call := s.call.(promise := Satisfied(s.call.promise, promise)), log := AfterReply(s, reply)),
       In(Register(reply)))
    case Register(r) =>
      var done := s.(call := Requested(s.call, r));
      (match r
       case FastPath => (done, In(RunFastPath))
       case Throws => (done, Idle)
       case Slow(c) =>
         (done.(notifyFn := if c in s.othersNotify then Nowhere else Registered,
                fetchFn := if c in s.othersFetch then Nowhere else Registered), Idle))
    case RunFastPath =>
      var told := FetchedAndTold(s.call, false);
      (s.(call := if yes then told.(state := Failed) else told), Idle)
  }

  function SignalEffect(s: Sys, task: Task, yes: bool): (Sys, Pc)
    requires IsSignalTask(task)
  {
    match task
    case LookUp(sig) =>
      if s.notifyFn == Registered && s.log.issued == Some(sig.cookie) then (s.(notifyFn := Taken), Wants(Notify(sig)))
      else (s.(othersNotify := s.othersNotify - {sig.cookie}), Wants(LookUpFetch(sig.cookie)))
    case Notify(sig) =>
      (s.(call := Notified(s.call, sig.cookie, SignalState(sig.failed)), notifyFn := Spent),
       Wants(LookUpFetch(sig.cookie)))
    case LookUpFetch(c) =>
      if s.fetchFn == Registered && s.log.issued == Some(c) then (s.(fetchFn := Taken), Wants(FetchAndTell))
      else (s.(othersFetch := s.othersFetch - {c}), Idle)
    case FetchAndTell => (DoFetch(s, FetchedAndTold(s.call, yes)).(fetchFn := Spent), Idle)
  }

  function ClientEffect(s: Sys, task: Task, yes: bool): (Sys, Pc)
    requires !IsRequestTask(task) && !IsSignalTask(task)
  {
    match task
    case BeginAbort =>
      var (call, decision) := AbortBegun(s.call);
      (s.(call := call, log := s.log.(aborts := s.log.aborts + 1)),
       if decision.CallOut? then CallsPeer(decision.cookie) else Idle)
    case EndAbort => (s.(call := AbortEnded(s.call)), Idle)
    case Fetch => (DoFetch(s, Fetched(s.call, yes)), Idle)
    case FetchBlocking =>
      if s.call.state == WaitForNotification then (s, Wants(FetchBlocking))
      else (DoFetch(s, Fetched(s.call, yes)), Idle)
    case Read =>
      var (call, answer) := GetResult(s.call);
      (s.(call := call, log := s.log.(answers := s.log.answers + [answer])), Idle)
  }

  function Next(s: Sys, a: Action): Sys
    requires Enabled(s, a)
  {
    match a
    case Start(t, task) => Move(s, t, Wants(task))
    case Acquire(t) => Move(s, t, In(s.pcs[t].task))
    case Run(t, reply, yes) => var (r, pc) := Effect(s, s.pcs[t], reply, yes); Move(r, t, pc)
    case OthersChange(notify, fetch) => s.(othersNotify := notify, othersFetch := fetch)
  }

  ghost predicate IsRun(states: seq<Sys>, actions: seq<Action>) {
    && |states| == |actions| + 1
    && states[0] == Init(|states[0].pcs|)
    && forall i {:trigger actions[i]} :: 0 <= i < |actions| ==>
         Enabled(states[i], actions[i]) && states[i + 1] == Next(states[i], actions[i])
  }

  // ----- what holds in every state -----

  /** Locks are held where the threads are supposed to hold them, signals are handled by one
      thread. */
  ghost predicate Locked(s: Sys) {
    && (forall t :: 0 <= t < |s.pcs| && s.pcs[t].Wants? ==> !s.pcs[t].task.Register? && !s.pcs[t].task.RunFastPath?)
    && (forall t :: 0 <= t < |s.pcs| ==>
          && (Holds(s.pcs[t], CallLock) <==> s.callLock == Some(t))
          && (Holds(s.pcs[t], TableLock) <==> s.tableLock == Some(t))
          && (IsSignal(s.pcs[t]) <==> s.signaller == Some(t)))
    && (s.callLock.Some? ==> s.callLock.value < |s.pcs|)
    && (s.tableLock.Some? ==> s.tableLock.value < |s.pcs|)
    && (s.signaller.Some? ==> s.signaller.value < |s.pcs|)
  }

  /** Between calling the peer and completing the abort. */
  predicate InWindow(pc: Pc) {
    pc.CallsPeer? || pc == Wants(EndAbort) || pc == In(EndAbort)
  }

  predicate Registering(holder: Pc) {
    holder.In? && holder.task.Register?
  }

  /** Before the state is changed by the request. */
  predicate Unrequested(call: CallData, log: Log, holder: Pc) {
    && call.(promise := Empty) == NEW_CALL && log.fetches == []
    && if Registering(holder) then
         match holder.task.reply
         case FastPath => call.promise == Value && log.issued == None
         case Slow(c) => call.promise == Empty && log.issued == Some(c) && c != 0
         case Throws => log.issued == None
       else call.promise == Empty && log.issued == None
  }

  /** The two functions are registered at most once, and only the thread which handles the
      signal for the cookie has them. */
  predicate Places(s: Sys, pc: Pc) {
    && (s.notifyFn == Taken <==> IsSignal(pc) && pc.task.Notify?)
    && (s.notifyFn == Taken ==> s.log.issued == Some(pc.task.signal.cookie))
    && (s.fetchFn == Taken <==> IsSignal(pc) && pc.task.FetchAndTell?)
    && (s.log.issued == None || s.call.state == Initialized ==> s.notifyFn == Nowhere && s.fetchFn == Nowhere)
  }

  /** The state of the call agrees with its promise and with what was fetched. */
  predicate Agrees(call: CallData, log: Log, notifyFn: Place, holder: Pc) {
    && (call.state == Initialized ==> Unrequested(call, log, holder))
    && (Registering(holder) || holder in {Wants(Issue), In(Issue)} ==> call.state == Initialized)
    && (holder == In(RunFastPath) ==> call.state == ResultFetched && log.issued == None && call.told == [])
    && call.state != AboutToDestroy
    && (call.state in {ResultFetched, Failed} ==> call.promise != Empty)
    && (call.state == ResultFetched ==> call.promise == Value)
    && (call.state in {WaitForNotification, ReadyToFetch} ==> call.promise == Empty)
    && (log.issued.Some? ==> (call.promise == Empty <==> log.fetches == []))
    && (log.issued == None ==>
          && log.fetches == [] && call.cookie == 0 && call.cleared == 0
          && call.state !in {WaitForNotification, ReadyToFetch})
    && |log.fetches| <= 1
    && (log.issued.Some? && notifyFn != Spent ==>
          call.promise == Empty && call.state !in {ReadyToFetch, ResultFetched, Failed})
  }

  /** Contexts are told once and readers get the result once. */
  ghost predicate Delivered(call: CallData, fetchFn: Place, answers: seq<Answer>) {
    && |call.told| <= 1
    && (forall st :: st in call.told ==> st in {ResultFetched, Failed, Aborting, AbortedByPeer})
    && (fetchFn in {Registered, Taken} ==> call.told == [])
    && (call.retrieved ==> call.promise != Empty)
    && BlocksForever !in answers
    && Deliveries(answers) == if call.retrieved then 1 else 0
  }

  function Deliveries(answers: seq<Answer>): nat {
    if answers == [] then 0
    else Deliveries(answers[..|answers| - 1]) +
         if answers[|answers| - 1] in {TheResult, TheException} then 1 else 0
  }

  ghost predicate Good(s: Sys, holder: Pc, signaller: Pc) {
    && Places(s, signaller) && Agrees(s.call, s.log, s.notifyFn, holder)
    && Delivered(s.call, s.fetchFn, s.log.answers)
  }

  ghost predicate NoWindowBeforeRequest(s: Sys) {
    s.call.state == Initialized ==> forall t :: 0 <= t < |s.pcs| ==> !InWindow(s.pcs[t])
  }

  ghost predicate Inv(s: Sys) {
    && Locked(s) && NoWindowBeforeRequest(s)
    && Good(s, Holder(s), Signaller(s))
  }

  // ----- it is kept -----

  /** Locks are only asked for where they are free or held already. */
  predicate MayMove(s: Sys, t: nat, pc: Pc) {
    && t < |s.pcs|
    && (Holds(pc, CallLock) ==> s.callLock in {None, Some(t)})
    && (Holds(pc, TableLock) ==> s.tableLock in {None, Some(t)})
    && (IsSignal(pc) ==> s.signaller in {None, Some(t)})
    && (pc.Wants? ==> !pc.task.Register? && !pc.task.RunFastPath?)
  }

  lemma Moved(s: Sys, t: nat, pc: Pc)
    requires Locked(s) && MayMove(s, t, pc)
    ensures var r := Move(s, t, pc);
      && Locked(r) && r.pcs == s.pcs[t := pc]
      && Holder(r) == (if Holds(pc, CallLock) then pc else if s.callLock == Some(t) then Idle else Holder(s))
      && Signaller(r) == (if IsSignal(pc) then pc else if s.signaller == Some(t) then Idle else Signaller(s))
  {
  }

  lemma EnteringKeepsInv(s: Sys, a: Action)
    requires Inv(s) && Enabled(s, a) && (a.Start? || a.Acquire?)
    ensures Inv(Next(s, a))
  {
    Moved(s, a.t, if a.Start? then Wants(a.task) else In(s.pcs[a.t].task));
  }

  lemma OthersKeepInv(s: Sys, a: Action)
    requires Inv(s) && Enabled(s, a) && a.OthersChange?
    ensures Inv(Next(s, a))
  {
  }

  /** The effect does not touch program counters and locks, and asks for no lock. */
  lemma EffectMoves(s: Sys, pc: Pc, reply: Reply, yes: bool)
    ensures var (r, next) := Effect(s, pc, reply, yes);
      && r.pcs == s.pcs && r.callLock == s.callLock && r.tableLock == s.tableLock && r.signaller == s.signaller
      && (pc.In? || pc.CallsPeer? ==>
            && (forall lock :: Holds(next, lock) ==> Holds(pc, lock))
            && (IsSignal(next) ==> IsSignal(pc))
            && (next.Wants? ==> !next.task.Register? && !next.task.RunFastPath?))
  {
    if pc.In? && IsRequestTask(pc.task) {
      RequestMoves(s, pc.task, reply, yes);
    } else if pc.In? && IsSignalTask(pc.task) {
      SignalMoves(s, pc.task, yes);
    }
  }

  lemma RequestMoves(s: Sys, task: Task, reply: Reply, yes: bool)
    requires IsRequestTask(task)
    ensures var (r, next) := RequestEffect(s, task, reply, yes);
      && r.pcs == s.pcs && r.callLock == s.callLock && r.tableLock == s.tableLock && r.signaller == s.signaller
      && (forall lock :: Holds(next, lock) ==> Holds(In(task), lock))
      && !IsSignal(next) && (next.Wants? ==> next.task == Issue)
  {
  }

  lemma SignalMoves(s: Sys, task: Task, yes: bool)
    requires IsSignalTask(task)
    ensures var (r, next) := SignalEffect(s, task, yes);
      && r.pcs == s.pcs && r.callLock == s.callLock && r.tableLock == s.tableLock && r.signaller == s.signaller
      && (next == Idle || (next.Wants? && IsSignalTask(next.task)))
  {
  }

  /** Who holds the call lock and who handles a signal after a thread has gone from one place
      to another. */
  function After(lockedHere: bool, lockedThere: bool, there: Pc, other: Pc): Pc {
    if lockedThere then there else if lockedHere then Idle else other
  }

  function HolderAfter(pc: Pc, next: Pc, holder: Pc): Pc {
    After(Holds(pc, CallLock), Holds(next, CallLock), next, holder)
  }

  function SignallerAfter(pc: Pc, next: Pc, signaller: Pc): Pc {
    After(IsSignal(pc), IsSignal(next), next, signaller)
  }

  /** The step of a thread leads to a good state, and opens no window before the request. */
  ghost predicate StaysGood(s: Sys, r: Sys, pc: Pc, next: Pc, holder: Pc, signaller: Pc) {
    && Good(r, HolderAfter(pc, next, holder), SignallerAfter(pc, next, signaller))
    && (r.call.state == Initialized ==> s.call.state == Initialized && !InWindow(next))
  }

  lemma RequestKeepsGood(s: Sys, task: Task, reply: Reply, yes: bool, signaller: Pc)
    requires IsRequestTask(task) && Good(s, In(task), signaller)
    requires reply.Slow? ==> reply.cookie != 0
    ensures var (r, next) := RequestEffect(s, task, reply, yes); StaysGood(s, r, In(task), next, In(task), signaller)
  {
    hide Deliveries;
  }

  lemma SignalKeepsGood(s: Sys, task: Task, yes: bool, holder: Pc)
    requires IsSignalTask(task) && Good(s, holder, In(task))
    requires Holds(In(task), CallLock) ==> holder == In(task)
    ensures var (r, next) := SignalEffect(s, task, yes); StaysGood(s, r, In(task), next, holder, In(task))
  {
    hide Deliveries;
  }

  lemma AbortKeepsGood(s: Sys, signaller: Pc)
    requires Good(s, In(BeginAbort), signaller)
    ensures var (r, next) := ClientEffect(s, BeginAbort, true);
      StaysGood(s, r, In(BeginAbort), next, In(BeginAbort), signaller)
  {
    hide Deliveries;
  }

  lemma ReadKeepsGood(s: Sys, signaller: Pc)
    requires Good(s, In(Read), signaller)
    ensures var (r, next) := ClientEffect(s, Read, true); StaysGood(s, r, In(Read), next, In(Read), signaller)
  {
    var (_, answer) := GetResult(s.call);
    assert (s.log.answers + [answer])[..|s.log.answers|] == s.log.answers;
  }

  lemma ClientKeepsGood(s: Sys, task: Task, yes: bool, signaller: Pc)
    requires !IsRequestTask(task) && !IsSignalTask(task) && Good(s, In(task), signaller)
    requires InWindow(In(task)) ==> s.call.state != Initialized
    ensures var (r, next) := ClientEffect(s, task, yes); StaysGood(s, r, In(task), next, In(task), signaller)
  {
    hide Deliveries;
    if task == Read {
      ReadKeepsGood(s, signaller);
    } else if task == BeginAbort {
      AbortKeepsGood(s, signaller);
    } else {
    }
  }

  lemma EffectKeepsGood(s: Sys, pc: Pc, reply: Reply, yes: bool, holder: Pc, signaller: Pc)
    requires Good(s, holder, signaller) && (pc.In? || pc.CallsPeer?)
    requires (Holds(pc, CallLock) ==> holder == pc) && (IsSignal(pc) ==> signaller == pc)
    requires InWindow(pc) ==> s.call.state != Initialized
    requires reply.Slow? ==> reply.cookie != 0
    ensures var (r, next) := Effect(s, pc, reply, yes); StaysGood(s, r, pc, next, holder, signaller)
  {
    if pc.In? {
      hide RequestEffect, SignalEffect, ClientEffect, Good, StaysGood;
      if IsRequestTask(pc.task) {
        RequestKeepsGood(s, pc.task, reply, yes, signaller);
      } else if IsSignalTask(pc.task) {
        SignalKeepsGood(s, pc.task, yes, holder);
      } else {
        ClientKeepsGood(s, pc.task, yes, signaller);
      }
    }
  }

  lemma RunningKeepsInv(s: Sys, t: nat, reply: Reply, yes: bool)
    requires Inv(s) && Enabled(s, Run(t, reply, yes))
    ensures Inv(Next(s, Run(t, reply, yes)))
  {
    var pc := s.pcs[t];
    EffectMoves(s, pc, reply, yes);
    EffectKeepsGood(s, pc, reply, yes, Holder(s), Signaller(s));
    hide Good, Effect;
    var (r, next) := Effect(s, pc, reply, yes);
    assert Locked(r) && Holder(r) == Holder(s) && Signaller(r) == Signaller(s);
    Moved(r, t, next);
    MovedGood(r, t, next, Holder(Move(r, t, next)), Signaller(Move(r, t, next)));
    hide Locked;
  }

  /** Where threads are does not matter otherwise. */
  lemma MovedGood(r: Sys, t: nat, next: Pc, holder: Pc, signaller: Pc)
    requires t < |r.pcs| && Good(r, holder, signaller)
    ensures Good(Move(r, t, next), holder, signaller)
  {
    hide Delivered;
  }

  lemma NextKeepsInv(s: Sys, a: Action)
    requires Inv(s) && Enabled(s, a)
    ensures Inv(Next(s, a))
  {
    match a
    case Run(t, reply, yes) => RunningKeepsInv(s, t, reply, yes);
    case OthersChange(_, _) => OthersKeepInv(s, a);
    case _ => EnteringKeepsInv(s, a);
  }

  lemma {:induction false} RunKeepsInv(states: seq<Sys>, actions: seq<Action>, i: nat)
    requires IsRun(states, actions) && i < |states|
    ensures Inv(states[i])
  {
    if i > 0 {
      RunKeepsInv(states, actions, i - 1);
      NextKeepsInv(states[i - 1], actions[i - 1]);
    }
  }
}

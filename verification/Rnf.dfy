/** Calls in request/notify/fetch style: a request is answered with a result at once, or with
    a cookie for which availability is signalled later, so that the result can be fetched. */
module Rnf {
  import opened Base

  datatype CallState =
    | Initialized
    | WaitForNotification
    | ReadyToFetch
    | ResultFetched
    | Aborting
    | AbortedByPeer
    | Failed
    | AboutToDestroy

  datatype Promise = Empty | Value | Exception

  /** What a call object looks like. `retrieved` tells that the future has been read, `told`
      is the list of the states passed to the context so far. */
  datatype CallData = CallData(
    state: CallState, cookie: nat, cleared: nat, abortedAfterDone: bool,
    promise: Promise, retrieved: bool, told: seq<CallState>)

  const NEW_CALL := CallData(Initialized, 0, 0, false, Empty, false, [])

  function Cleared(d: CallData): CallData {
    d.(cleared := d.cookie, cookie := 0)
  }

  // ----- request -----

  /** How the peer answers a request: with a result, with a cookie, or not at all. */
  datatype Reply = FastPath | Slow(cookie: nat) | Throws

  /** The state change made for a reply. A result is in the promise already. */
  function Requested(d: CallData, r: Reply): CallData {
    match r
    case FastPath => d.(state := ResultFetched)
    case Slow(c) => d.(cookie := c, state := WaitForNotification)
    case Throws => d.(promise := Satisfied(d.promise, Exception), state := Failed)
  }

  /** A promise can be satisfied only once. */
  function Satisfied(p: Promise, with: Promise): Promise {
    if p == Empty then with else p
  }

  // ----- notification -----

  function Notified(d: CallData, cookie: nat, new_: CallState): CallData {
    if cookie == 0 || (cookie != d.cookie && cookie != d.cleared) then d
    else if d.state in {WaitForNotification, Aborting} then d.(state := new_)
    else d
  }

  function SignalState(failed: bool): CallState {
    if failed then AbortedByPeer else ReadyToFetch
  }

  // ----- fetch -----

  predicate RaisesBadState(d: CallData) {
    d.state in {Initialized, WaitForNotification, AboutToDestroy}
  }

  /** `answered` tells whether the peer returns the result for the cookie. */
  function Fetched(d: CallData, answered: bool): CallData {
    if d.state != ReadyToFetch then d
    else if answered && d.promise == Empty then Cleared(d).(promise := Value, state := ResultFetched)
    else Cleared(d).(promise := Satisfied(d.promise, Exception), state := Failed)
  }

  function Told(d: CallData): CallData {
    d.(told := d.told + [d.state])
  }

  function FetchedAndTold(d: CallData, answered: bool): CallData {
    if RaisesBadState(d) then d else Told(Fetched(d, answered))
  }

  // ----- result -----

  datatype Answer = TheResult | TheException | BadStateError | AbortedError | NoResultError | BlocksForever

  function GetResult(d: CallData): (CallData, Answer) {
    if d.state in {Initialized, WaitForNotification, ReadyToFetch, AboutToDestroy} then (d, BadStateError)
    else if d.state in {Aborting, AbortedByPeer} || d.abortedAfterDone then (d, AbortedError)
    else if d.retrieved then (d, NoResultError)
    else match d.promise
      case Empty => (d, BlocksForever)
      case Value => (d.(retrieved := true), TheResult)
      case Exception => (d.(retrieved := true, state := Failed), TheException)
  }

  // ----- abort -----

  /** What is done by an abort before it calls the peer, if it does. */
  datatype Decision = Return(ok: bool) | CallOut(cookie: nat)

  function AbortBegun(d: CallData): (CallData, Decision) {
    match d.state
    case ResultFetched => (d.(abortedAfterDone := true), Return(!d.abortedAfterDone))
    case Failed => (d.(abortedAfterDone := true), Return(!d.abortedAfterDone))
    case Aborting => (d, Return(false))
    case AbortedByPeer => (d, Return(false))
    case AboutToDestroy => (d, Return(true))
    case _ =>
      if d.cookie == 0 then (Cleared(d).(state := AbortedByPeer), Return(true))
      else (Cleared(d), CallOut(d.cookie))
  }

  function AbortEnded(d: CallData): CallData {
    d.(state := Aborting)
  }

  // ----- the call object -----

  class CookieCall {
    var state: CallState
    var cookie: nat
    var cleared: nat
    var abortedAfterDone: bool
    var promise: Promise
    var retrieved: bool
    var told: seq<CallState>

    ghost function View(): CallData
      reads this
    {
      CallData(state, cookie, cleared, abortedAfterDone, promise, retrieved, told)
    }

    constructor ()
      ensures View() == NEW_CALL
    {
      state, cookie, cleared, abortedAfterDone := Initialized, 0, 0, false;
      promise, retrieved, told := Empty, false, [];
    }

    method ClearCookie() returns (was: nat)
      modifies this`cookie, this`cleared
      ensures View() == Cleared(old(View())) && was == old(cookie)
    {
      cleared := cookie;
      cookie := 0;
      was := cleared;
    }

    method Notification(c: nat, new_: CallState)
      modifies this`state
      ensures View() == Notified(old(View()), c, new_)
    {
      if c == 0 {
        return;
      }
      if c != cookie && c != cleared {
        return;
      }
      match state
      case WaitForNotification => state := new_;
      case Aborting => state := new_;
      case _ =>
    }

    /** Yields nothing for the exception about a bad state. */
    method FetchUnlocked(answered: bool) returns (success: Option<bool>)
      modifies this
      ensures View() == Fetched(old(View()), answered)
      ensures success == None <==> RaisesBadState(old(View()))
      ensures success.Some? ==> (success.value <==> state == ResultFetched)
    {
      match state {
        case ReadyToFetch =>
        case ResultFetched => return Some(true);
        case Aborting => return Some(false);
        case AbortedByPeer => return Some(false);
        case Failed => return Some(false);
        case _ => return None;
      }
      if !answered || promise != Empty {
        if promise == Empty {
          promise := Exception;
        }
        var _ := ClearCookie();
        state := Failed;
        return Some(false);
      }
      promise := Value;
      var _ := ClearCookie();
      state := ResultFetched;
      success := Some(true);
    }

    method FetchAndNotify(answered: bool)
      modifies this
      ensures View() == FetchedAndTold(old(View()), answered)
    {
      var success := FetchUnlocked(answered);
      if success.Some? {
        told := told + [state];
      }
    }

    method GetResultUnlocked() returns (a: Answer)
      modifies this
      ensures (View(), a) == GetResult(old(View()))
    {
      match state {
        case ResultFetched =>
        case Failed =>
        case Aborting => return AbortedError;
        case AbortedByPeer => return AbortedError;
        case _ => return BadStateError;
      }
      if abortedAfterDone {
        return AbortedError;
      }
      if retrieved {
        return NoResultError;
      }
      match promise
      case Empty => a := BlocksForever;
      case Value =>
        retrieved := true;
        a := TheResult;
      case Exception =>
        retrieved := true;
        state := Failed;
        a := TheException;
    }

    method BeginAbort() returns (d: Decision)
      modifies this
      ensures (View(), d) == AbortBegun(old(View()))
    {
      match state {
        case ResultFetched =>
          d := Return(!abortedAfterDone);
          abortedAfterDone := true;
          return;
        case Failed =>
          d := Return(!abortedAfterDone);
          abortedAfterDone := true;
          return;
        case Aborting => return Return(false);
        case AbortedByPeer => return Return(false);
        case AboutToDestroy => return Return(true);
        case _ =>
      }
      var c := ClearCookie();
      if c == 0 {
        state := AbortedByPeer;
        return Return(true);
      }
      d := CallOut(c);
    }

    /** Aborts without anybody else interfering. `accepted` tells whether the peer agrees. */
    method AbortRequest(accepted: bool) returns (ok: bool)
      modifies this
      ensures var (d, decision) := AbortBegun(old(View()));
        && View() == (if decision.CallOut? && accepted then AbortEnded(d) else d)
        && ok == (if decision.CallOut? then accepted else decision.ok)
    {
      var decision := BeginAbort();
      match decision
      case Return(r) => ok := r;
      case CallOut(_) =>
        ok := accepted;
        if ok {
          state := Aborting;
        }
    }

    /** The whole request as seen by a single thread. A result of the fast path has been put
        into the promise by the request function. */
    method Request(table: PendingCookies, r: Reply, contextThrows: bool) returns (badState: bool)
      requires r.Slow? ==> r.cookie != 0
      modifies this, table
      ensures badState == (old(state) != Initialized)
      ensures badState ==> View() == old(View())
      ensures !badState && r.FastPath? ==>
        var t := Told(Fetched(Requested(old(View()).(promise := Satisfied(old(promise), Value)), r), false));
        View() == if contextThrows then t.(state := Failed) else t
      ensures !badState && !r.FastPath? ==> View() == Requested(old(View()), r)
      ensures table.notify ==
        if !badState && r.Slow? then Emplaced(old(table.notify), r.cookie, this) else old(table.notify)
      ensures table.fetch ==
        if !badState && r.Slow? then Emplaced(old(table.fetch), r.cookie, this) else old(table.fetch)
    {
      if state != Initialized {
        return true;
      }
      badState := false;
      match r
      case Throws =>
        if promise == Empty {
          promise := Exception;
        }
        state := Failed;
      case Slow(c) =>
        cookie := c;
        var _ := table.Add(c, this, this);
        state := WaitForNotification;
      case FastPath =>
        if promise == Empty {
          promise := Value;
        }
        state := ResultFetched;
        FetchAndNotify(false);
        if contextThrows {
          state := Failed;
        }
    }
  }

  // ----- the table of pending cookies -----

  function Emplaced<V>(m: map<nat, V>, key: nat, value: V): map<nat, V> {
    if key in m then m else m[key := value]
  }

  datatype Signal = Signal(cookie: nat, failed: bool)

  class PendingCookies {
    var notify: map<nat, CookieCall>
    var fetch: map<nat, CookieCall>

    constructor ()
      ensures notify == map[] && fetch == map[]
    {
      notify, fetch := map[], map[];
    }

    method Add(cookie: nat, notifyCall: CookieCall, fetchCall: CookieCall) returns (isNew: bool)
      requires cookie != 0
      modifies this
      ensures notify == Emplaced(old(notify), cookie, notifyCall)
      ensures fetch == Emplaced(old(fetch), cookie, fetchCall)
      ensures isNew == (cookie !in old(fetch))
    {
      if cookie !in notify {
        notify := notify[cookie := notifyCall];
      }
      isNew := cookie !in fetch;
      if isNew {
        fetch := fetch[cookie := fetchCall];
      }
    }

    method Available(cookie: nat, failed: bool)
      modifies this`notify, if cookie in notify then {notify[cookie]} else {}
      ensures notify == old(notify) - {cookie}
      ensures cookie in old(notify) ==>
        var call := old(notify)[cookie]; call.View() == Notified(old(call.View()), cookie, SignalState(failed))
    {
      if cookie !in notify {
        return;
      }
      var call := notify[cookie];
      notify := notify - {cookie};
      call.Notification(cookie, SignalState(failed));
    }

    method Finish(cookie: nat, answered: bool)
      modifies this`fetch, if cookie in fetch then {fetch[cookie]} else {}
      ensures fetch == old(fetch) - {cookie}
      ensures cookie in old(fetch) ==>
        var call := old(fetch)[cookie]; call.View() == FetchedAndTold(old(call.View()), answered)
    {
      if cookie !in fetch {
        return;
      }
      var call := fetch[cookie];
      fetch := fetch - {cookie};
      call.FetchAndNotify(answered);
    }

    /** Every call in the table waits for its own cookie. */
    ghost predicate AllWaiting()
      reads this, notify.Values
    {
      && notify == fetch
      && forall c :: c in notify ==> c != 0 && notify[c].View() == NEW_CALL.(state := WaitForNotification, cookie := c)
    }

    method HandleSignal(s: Signal, answered: bool)
      requires AllWaiting()
      modifies this, notify.Values
      ensures AllWaiting() && notify == old(notify) - {s.cookie}
      ensures s.cookie in old(notify) ==> old(notify)[s.cookie].View() == Served(s.cookie, s.failed, answered)
      ensures forall c :: c in notify ==> notify[c].View() == old(notify[c].View())
    {
      Available(s.cookie, s.failed);
      Finish(s.cookie, answered);
    }

    /** Each call named by a signal leaves the table, its result is fetched unless the signal
        tells about a failure, and its context is told once, whichever order and however often
        cookies are signalled. All others stay as they are. */
    method HandleSignals(signals: seq<Signal>, answered: nat -> bool)
      requires AllWaiting()
      modifies this, notify.Values
      ensures Handled(old(notify), signals, answered)
    {
      ghost var calls := notify;
      for i := 0 to |signals|
        invariant notify.Values <= calls.Values
        invariant Handled(calls, signals[..i], answered)
      {
        HandleNext(signals, i, answered, calls);
      }
      assert signals[..|signals|] == signals;
    }

    method HandleNext(signals: seq<Signal>, i: nat, answered: nat -> bool, ghost calls: map<nat, CookieCall>)
      requires i < |signals| && Handled(calls, signals[..i], answered)
      modifies this, notify.Values
      ensures Handled(calls, signals[..i + 1], answered) && notify.Values <= old(notify.Values)
    {
      OneMoreSignal(signals, i);
      HandleSignal(signals[i], answered(signals[i].cookie));
      hide Served, FirstFails, Signalled;
    }

    /** The calls of a table for which signals have been seen are served and no longer in it. */
    ghost predicate Handled(calls: map<nat, CookieCall>, seen: seq<Signal>, answered: nat -> bool)
      reads this, notify.Values, calls.Values
    {
      && AllWaiting()
      && notify.Keys == calls.Keys - Signalled(seen)
      && (forall c :: c in notify ==> notify[c] == calls[c])
      && forall c :: c in calls && c in Signalled(seen) ==>
           calls[c] !in notify.Values && calls[c].View() == Served(c, FirstFails(seen, c), answered(c))
    }
  }

  /** The call after its signal. */
  function Served(c: nat, failed: bool, answered: bool): CallData {
    if failed then CallData(AbortedByPeer, c, 0, false, Empty, false, [AbortedByPeer])
    else if answered then CallData(ResultFetched, 0, c, false, Value, false, [ResultFetched])
    else CallData(Failed, 0, c, false, Exception, false, [Failed])
  }

  function Signalled(signals: seq<Signal>): set<nat> {
    set i | 0 <= i < |signals| :: signals[i].cookie
  }

  lemma OneMoreSignal(signals: seq<Signal>, i: nat)
    requires i < |signals|
    ensures Signalled(signals[..i + 1]) == Signalled(signals[..i]) + {signals[i].cookie}
    ensures forall c :: c in Signalled(signals[..i + 1]) ==>
      FirstFails(signals[..i + 1], c) ==
        if c in Signalled(signals[..i]) then FirstFails(signals[..i], c) else signals[i].failed
  {
    assert signals[..i + 1][..i] == signals[..i];
    assert signals[..i + 1] == signals[..i] + [signals[i]];
    assert signals[..i + 1][i] == signals[i];
  }

  /** What the first signal for a cookie tells. */
  function FirstFails(signals: seq<Signal>, c: nat): bool
    requires c in Signalled(signals)
  {
    var before := signals[..|signals| - 1];
    if c in Signalled(before) then FirstFails(before, c) else signals[|signals| - 1].failed
  }
}

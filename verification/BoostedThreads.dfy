/** Threads which are given realtime priority while a stream is played. */
module BoostedThreads {
  type Tid = nat

  datatype Priority = Highest | High | Moderate | NoPriority

  /** `scheduled` tells how threads were configured last. A thread which was never configured
      runs with default priority. */
  datatype Sched = Sched(threads: map<Tid, Priority>, boosted: bool, scheduled: map<Tid, Priority>)

  function Current(s: Sched, t: Tid): Priority {
    if t in s.scheduled then s.scheduled[t] else NoPriority
  }

  /** Registered threads have their own priority while boosted, all other threads have none. */
  ghost predicate NoLeak(s: Sched) {
    forall t: Tid :: Current(s, t) == if s.boosted && t in s.threads then s.threads[t] else NoPriority
  }

  class Threads {
    var threads: map<Tid, Priority>
    var boosted: bool
    var scheduled: map<Tid, Priority>

    ghost function View(): Sched
      reads this
    {
      Sched(threads, boosted, scheduled)
    }

    constructor ()
      ensures View() == Sched(map[], false, map[]) && NoLeak(View())
    {
      threads, boosted, scheduled := map[], false, map[];
    }

    method ConfigureThread(t: Tid, p: Priority)
      modifies this`scheduled
      ensures scheduled == old(scheduled)[t := p]
    {
      scheduled := scheduled[t := p];
    }

    method Boost()
      modifies this`boosted, this`scheduled
      ensures View() == Boosted(old(View()))
    {
      if boosted {
        return;
      }
      boosted := true;
      var todo := threads.Keys;
      while todo != {}
        invariant boosted && todo <= threads.Keys
        invariant scheduled == old(scheduled) + map t | t in threads.Keys - todo :: threads[t]
      {
        var t :| t in todo;
        ConfigureThread(t, threads[t]);
        todo := todo - {t};
      }
      assert threads.Keys - todo == threads.Keys;
      assert scheduled == BoostAll(old(View())).scheduled;
    }

    method Throttle()
      modifies this`boosted, this`scheduled
      ensures View() == Throttled(old(View()))
    {
      if !boosted {
        return;
      }
      boosted := false;
      var todo := threads.Keys;
      while todo != {}
        invariant !boosted && todo <= threads.Keys
        invariant scheduled == old(scheduled) + map t | t in threads.Keys - todo :: NoPriority
      {
        var t :| t in todo;
        ConfigureThread(t, NoPriority);
        todo := todo - {t};
      }
      assert threads.Keys - todo == threads.Keys;
      assert scheduled == ThrottleAll(old(View())).scheduled;
    }

    method AddSelf(self: Tid, p: Priority)
      requires p != NoPriority
      modifies this
      ensures View() == Added(old(View()), self, p)
    {
      ConfigureThread(self, if boosted then p else NoPriority);
      threads := threads[self := p];
    }

    method RemoveSelf(self: Tid)
      modifies this
      ensures View() == Removed(old(View()), self)
    {
      ConfigureThread(self, NoPriority);
      if self in threads {
        threads := threads - {self};
      }
    }
  }

  function BoostAll(s: Sched): Sched {
    s.(boosted := true, scheduled := s.scheduled + map t | t in s.threads.Keys :: s.threads[t])
  }

  function ThrottleAll(s: Sched): Sched {
    s.(boosted := false, scheduled := s.scheduled + map t | t in s.threads.Keys :: NoPriority)
  }

  function Boosted(s: Sched): Sched {
    if s.boosted then s else BoostAll(s)
  }

  function Throttled(s: Sched): Sched {
    if !s.boosted then s else ThrottleAll(s)
  }

  function Added(s: Sched, self: Tid, p: Priority): Sched {
    s.(threads := s.threads[self := p], scheduled := s.scheduled[self := if s.boosted then p else NoPriority])
  }

  function Removed(s: Sched, self: Tid): Sched {
    s.(threads := s.threads - {self}, scheduled := s.scheduled[self := NoPriority])
  }

  datatype Op = DoBoost | DoThrottle | Add(self: Tid, priority: Priority) | Remove(self: Tid)

  function Step(s: Sched, op: Op): Sched {
    match op
    case DoBoost => Boosted(s)
    case DoThrottle => Throttled(s)
    case Add(self, p) => Added(s, self, p)
    case Remove(self) => Removed(s, self)
  }

  function Run(s: Sched, ops: seq<Op>): Sched {
    if ops == [] then s else Step(Run(s, ops[..|ops| - 1]), ops[|ops| - 1])
  }

  lemma StepKeepsNoLeak(s: Sched, op: Op)
    requires NoLeak(s)
    ensures NoLeak(Step(s, op))
  {
    forall t: Tid
      ensures Current(Step(s, op), t) ==
        if Step(s, op).boosted && t in Step(s, op).threads then Step(s, op).threads[t] else NoPriority
    {
      assert Current(s, t) == if s.boosted && t in s.threads then s.threads[t] else NoPriority;
      assert t in s.threads <==> t in s.threads.Keys;
    }
  }

  /** What a thread has asked for last: the priority with which it registered, unless it has been removed since. */
  function LastAsked(ops: seq<Op>, t: Tid): Priority {
    if ops == [] then NoPriority
    else
      match ops[|ops| - 1]
      case Add(self, p) => if self == t then p else LastAsked(ops[..|ops| - 1], t)
      case Remove(self) => if self == t then NoPriority else LastAsked(ops[..|ops| - 1], t)
      case _ => LastAsked(ops[..|ops| - 1], t)
  }

  /** Whether boosting was asked for last. */
  function LastBoost(ops: seq<Op>): bool {
    if ops == [] then false
    else
      match ops[|ops| - 1]
      case DoBoost => true
      case DoThrottle => false
      case _ => LastBoost(ops[..|ops| - 1])
  }

  /** After any operations, a thread runs with the priority it has asked for last if boosting was asked for last, and
      without priority otherwise. */
  lemma {:induction false} PriorityIsAsAsked(ops: seq<Op>, t: Tid)
    requires forall i :: 0 <= i < |ops| ==> ops[i].Add? ==> ops[i].priority != NoPriority
    ensures Current(Run(Sched(map[], false, map[]), ops), t) == if LastBoost(ops) then LastAsked(ops, t) else NoPriority
  {
    ThreadsAreAsAsked(ops, t);
    PrioritiesNeverLeak(ops);
  }

  lemma {:induction false} ThreadsAreAsAsked(ops: seq<Op>, t: Tid)
    requires forall i :: 0 <= i < |ops| ==> ops[i].Add? ==> ops[i].priority != NoPriority
    ensures var s := Run(Sched(map[], false, map[]), ops);
      && s.boosted == LastBoost(ops)
      && (t in s.threads <==> LastAsked(ops, t) != NoPriority)
      && (t in s.threads ==> s.threads[t] == LastAsked(ops, t))
  {
    if ops != [] {
      ThreadsAreAsAsked(ops[..|ops| - 1], t);
    }
  }

  /** No thread keeps its priority when it should not, and none is left out while boosted. */
  lemma {:induction false} PrioritiesNeverLeak(ops: seq<Op>)
    ensures NoLeak(Run(Sched(map[], false, map[]), ops))
  {
    if ops != [] {
      PrioritiesNeverLeak(ops[..|ops| - 1]);
      StepKeepsNoLeak(Run(Sched(map[], false, map[]), ops[..|ops| - 1]), ops[|ops| - 1]);
    }
  }

  /** Doing nothing when boosted or throttled already is as good as configuring all threads again. */
  lemma EarlyReturnsAreSound(s: Sched, t: Tid)
    requires NoLeak(s)
    ensures Current(Boosted(s), t) == Current(BoostAll(s), t) && Boosted(s).boosted
    ensures Current(Throttled(s), t) == Current(ThrottleAll(s), t) && !Throttled(s).boosted
  {
    if t in s.threads {
      assert t in s.threads.Keys;
    }
  }
}

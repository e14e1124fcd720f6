/** The bounded URL FIFO: a short queue, a store of removed items, and a set of IDs
    that were dropped although they had left the queue already. */
module UrlFifo {
  import opened Base

  function Min(a: nat, b: nat): nat {
    if a <= b then a else b
  }

  /** The queue as a bounded sequence, and what the outside still has to be told about it. */
  datatype Fifo<T> = Fifo(cap: nat, queue: seq<T>, removed: seq<T>, dropped: set<nat>)

  predicate Bounded<T>(f: Fifo<T>) {
    |f.queue| <= f.cap
  }

  predicate Full<T>(f: Fifo<T>) {
    |f.queue| >= f.cap
  }

  /** Keep the first `keep` items, hand over the others in their order. */
  function Cleared<T>(f: Fifo<T>, keep: nat): Fifo<T> {
    var k := Min(keep, |f.queue|);
    f.(queue := f.queue[..k], removed := f.removed + f.queue[k..])
  }

  predicate Refuses<T>(f: Fifo<T>, keep: nat) {
    keep >= |f.queue| && Full(f)
  }

  function Pushed<T>(f: Fifo<T>, item: T, keep: nat): Fifo<T> {
    if Refuses(f, keep) then f
    else var c := Cleared(f, keep); c.(queue := c.queue + [item])
  }

  /** The length of the longest prefix whose items all satisfy `pred`. */
  function PrefixWhile<T>(s: seq<T>, pred: T -> bool): (n: nat)
    ensures n <= |s|
    ensures forall i :: 0 <= i < n ==> pred(s[i])
    ensures n < |s| ==> !pred(s[n])
  {
    if s == [] || !pred(s[0]) then 0 else 1 + PrefixWhile(s[1..], pred)
  }

  class Queue<T> {
    const cap: nat
    var queue: seq<T>
    var removed: seq<T>
    var dropped: set<nat>

    ghost function View(): Fifo<T>
      reads this
    {
      Fifo(cap, queue, removed, dropped)
    }

    constructor (cap: nat)
      ensures View() == Fifo(cap, [], [], {})
    {
      this.cap := cap;
      queue, removed, dropped := [], [], {};
    }

    method IsFull() returns (full: bool)
      ensures full == Full(View())
    {
      full := |queue| >= cap;
    }

    /** The removed store is grown first and then filled from its back end. */
    method Clear(keep: nat) returns (count: nat)
      modifies this
      ensures View() == Cleared(old(View()), keep)
      ensures count == |old(queue)| - |queue|
    {
      count := if keep < |queue| then |queue| - keep else 0;
      if count > 0 {
        var filled: seq<T> := [];
        var i := 0;
        while i < count
          invariant i <= count == |old(queue)| - keep
          invariant queue == old(queue)[..|old(queue)| - i]
          invariant filled == old(queue)[|old(queue)| - i..]
          invariant removed == old(removed) && dropped == old(dropped)
        {
          filled := [queue[|queue| - 1]] + filled;
          queue := queue[..|queue| - 1];
          i := i + 1;
        }
        removed := removed + filled;
      }
    }

    method Push(item: T, keep: nat) returns (size: nat)
      modifies this
      ensures View() == Pushed(old(View()), item, keep)
      ensures size == if Refuses(old(View()), keep) then 0 else |queue|
    {
      var count := Clear(keep);
      if count == 0 && |queue| >= cap {
        return 0;
      }
      queue := queue + [item];
      size := |queue|;
    }

    method Pop() returns (item: Option<T>)
      modifies this
      ensures removed == old(removed) && dropped == old(dropped)
      ensures item == if old(queue) == [] then None else Some(old(queue)[0])
      ensures queue == if old(queue) == [] then [] else old(queue)[1..]
    {
      if queue == [] {
        return None;
      }
      item := Some(queue[0]);
      queue := queue[1..];
    }

    method PopDrop() returns (ok: bool)
      modifies this
      ensures ok == (old(queue) != []) && dropped == old(dropped)
      ensures queue == if ok then old(queue)[1..] else []
      ensures removed == if ok then old(removed) + [old(queue)[0]] else old(removed)
    {
      if queue == [] {
        return false;
      }
      removed, queue := removed + [queue[0]], queue[1..];
      ok := true;
    }

    method ClearWhile(pred: T -> bool) returns (count: nat)
      modifies this
      ensures count == PrefixWhile(old(queue), pred)
      ensures queue == old(queue)[count..] && removed == old(removed) + old(queue)[..count]
      ensures dropped == old(dropped)
    {
      count := 0;
      while queue != []
        invariant count <= |old(queue)|
        invariant queue == old(queue)[count..] && removed == old(removed) + old(queue)[..count]
        invariant dropped == old(dropped)
        invariant PrefixWhile(old(queue), pred) == count + PrefixWhile(queue, pred)
        decreases |queue|
      {
        if !pred(queue[0]) {
          break;
        }
        removed, queue := removed + [queue[0]], queue[1..];
        count := count + 1;
      }
    }

    method MarkAsDropped(id: nat)
      modifies this
      ensures View() == old(View()).(dropped := old(dropped) + {id})
    {
      dropped := dropped + {id};
    }

    method GetRemoved() returns (r: seq<T>)
      modifies this
      ensures r == old(removed) && View() == old(View()).(removed := [])
    {
      r := removed;
      removed := [];
    }

    method GetDropped() returns (r: set<nat>)
      modifies this
      ensures r == old(dropped) && View() == old(View()).(dropped := {})
    {
      r := dropped;
      dropped := {};
    }
  }

  // ----- the FIFO refines a bounded sequence -----

  datatype Op<T> =
    | OpPush(item: T, keep: nat)
    | OpPop
    | OpPopDrop
    | OpClear(keep: nat)
    | OpDrain

  /** One operation on the queue; `out` collects what was popped and what was drained. */
  function Apply<T>(f: Fifo<T>, op: Op<T>): (Fifo<T>, seq<T>) {
    match op
    case OpPush(item, keep) => (Pushed(f, item, keep), [])
    case OpPop => if f.queue == [] then (f, []) else (f.(queue := f.queue[1..]), f.queue[..1])
    case OpPopDrop =>
      if f.queue == [] then (f, [])
      else (f.(queue := f.queue[1..], removed := f.removed + f.queue[..1]), [])
    case OpClear(keep) => (Cleared(f, keep), [])
    case OpDrain => (f.(removed := []), f.removed)
  }

  function RunOps<T>(f: Fifo<T>, ops: seq<Op<T>>): (Fifo<T>, seq<T>) {
    if ops == [] then (f, [])
    else
      var (g, o) := RunOps(f, ops[..|ops| - 1]);
      var (h, p) := Apply(g, ops[|ops| - 1]);
      (h, o + p)
  }

  /** The items accepted by a run, in the order of acceptance. */
  function Accepted<T>(f: Fifo<T>, ops: seq<Op<T>>): seq<T> {
    if ops == [] then []
    else
      var last := ops[|ops| - 1];
      Accepted(f, ops[..|ops| - 1]) +
      if last.OpPush? && !Refuses(RunOps(f, ops[..|ops| - 1]).0, last.keep) then [last.item] else []
  }

  lemma ApplyConserves<T>(g: Fifo<T>, op: Op<T>)
    requires Bounded(g)
    ensures var (h, out) := Apply(g, op);
      && Bounded(h) && h.cap == g.cap && h.dropped == g.dropped
      && multiset(h.queue) + multiset(h.removed) + multiset(out)
         == multiset(g.queue) + multiset(g.removed)
            + if op.OpPush? && !Refuses(g, op.keep) then multiset{op.item} else multiset{}
  {
    match op
    case OpPush(_, keep) => SplitQueue(g, Min(keep, |g.queue|));
    case OpClear(keep) => SplitQueue(g, Min(keep, |g.queue|));
    case OpDrain =>
    case OpPop => if g.queue != [] { SplitQueue(g, 1); }
    case OpPopDrop => if g.queue != [] { SplitQueue(g, 1); }
  }

  lemma SplitQueue<T>(g: Fifo<T>, k: nat)
    requires k <= |g.queue|
    ensures multiset(g.queue) == multiset(g.queue[..k]) + multiset(g.queue[k..])
  {
    assert g.queue == g.queue[..k] + g.queue[k..];
  }

  lemma AddUp<T>(g: Fifo<T>, out: seq<T>, h: Fifo<T>, more: seq<T>, before: multiset<T>, now: multiset<T>)
    requires multiset(g.queue) + multiset(g.removed) + multiset(out) == before
    requires multiset(h.queue) + multiset(h.removed) + multiset(more)
          == multiset(g.queue) + multiset(g.removed) + now
    ensures multiset(h.queue) + multiset(h.removed) + multiset(out + more) == before + now
  {
    calc {
      multiset(h.queue) + multiset(h.removed) + multiset(out + more);
      (multiset(h.queue) + multiset(h.removed) + multiset(more)) + multiset(out);
      (multiset(g.queue) + multiset(g.removed) + now) + multiset(out);
      (multiset(g.queue) + multiset(g.removed) + multiset(out)) + now;
    }
  }

  /** Whatever is done to the FIFO: the capacity holds, and every accepted item is in
      exactly one place, queued, waiting to be reported, or handed out. */
  lemma {:induction false} FifoRunConserves<T>(f: Fifo<T>, ops: seq<Op<T>>)
    requires Bounded(f)
    ensures var (g, out) := RunOps(f, ops);
      && Bounded(g) && g.cap == f.cap && g.dropped == f.dropped
      && multiset(g.queue) + multiset(g.removed) + multiset(out)
         == multiset(f.queue) + multiset(f.removed) + multiset(Accepted(f, ops))
  {
    if ops != [] {
      var (init, last) := (ops[..|ops| - 1], ops[|ops| - 1]);
      var g := RunOps(f, init).0;
      FifoRunConserves(f, init);
      ApplyConserves(g, last);
      var now := if last.OpPush? && !Refuses(g, last.keep) then [last.item] else [];
      assert Accepted(f, ops) == Accepted(f, init) + now;
      AddUp(g, RunOps(f, init).1, Apply(g, last).0, Apply(g, last).1,
            multiset(f.queue) + multiset(f.removed) + multiset(Accepted(f, init)), multiset(now));
    }
  }

  /** A push is refused exactly when nothing could be removed and there is no space, and then
      leaves no trace. Hence a FIFO that was reported as not full accepts the next
      push that keeps all items, and that push appends and removes nothing. */
  lemma NotFullAcceptsKeepAll<T>(f: Fifo<T>, item: T, keep: nat)
    requires Bounded(f)
    ensures Refuses(f, keep) ==> Pushed(f, item, keep) == f
    ensures !Refuses(f, keep) ==>
      var g := Pushed(f, item, keep);
      && g.queue[|g.queue| - 1] == item && Bounded(g)
      && g.removed + g.queue[..|g.queue| - 1] ==
           f.removed + f.queue[Min(keep, |f.queue|)..] + f.queue[..Min(keep, |f.queue|)]
    ensures keep >= |f.queue| && !Full(f) ==>
      Pushed(f, item, keep) == f.(queue := f.queue + [item])
  {
    if !Refuses(f, keep) {
      var k := Min(keep, |f.queue|);
      var g := Pushed(f, item, keep);
      assert g.queue[..|g.queue| - 1] == f.queue[..k];
    }
  }

  const SIZE_MAX: nat := 0xffff_ffff_ffff_ffff

  /** How many items to keep, as told by a request of the controlling program. */
  function KeepCount(n: int): nat {
    if n < 0 then if n == -2 then 0 else SIZE_MAX else n
  }

  /** What requests mean: 0 and -2 replace all items, -1 only appends, and a positive number keeps that
      many items. Nothing else is ever lost from the front, and only appending may be refused. */
  lemma KeepCounts<T>(f: Fifo<T>, item: T, n: int)
    requires Bounded(f) && f.cap <= SIZE_MAX
    ensures var g := Pushed(f, item, KeepCount(n));
      && ((n == 0 || n == -2) && f.queue != [] ==> g.queue == [item] && g.removed == f.removed + f.queue)
      && (n == -1 ==> g.removed == f.removed && g.queue == if Full(f) then f.queue else f.queue + [item])
      && (0 < n < |f.queue| ==> g.queue == f.queue[..n] + [item] && g.removed == f.removed + f.queue[n..])
      && (g == f ==> Full(f))
  {
    var g := Pushed(f, item, KeepCount(n));
    if !Refuses(f, KeepCount(n)) {
      assert |g.queue| + |g.removed| == |f.queue| + |f.removed| + 1;
    }
  }
}

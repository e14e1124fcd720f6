/** How often a failing stream may be retried. */
module RetryBudget {
  import opened PlayItem

  /** What happens to the selected URL of an item over time. */
  datatype Op =
    | Select(now: int)
    | Finish(uri: string, valid: nat, now: int)

  function Time(op: Op): int { op.now }

  function Apply(it: ItemData, op: Op): (ItemData, bool) {
    match op
    case Select(now) => SelectNextUrl(it, now)
    case Finish(uri, valid, now) => (ResolverFinish(it, uri, valid, now), false)
  }

  /** The item after a run, and the number of times it was told to try again. */
  function Run(it: ItemData, ops: seq<Op>): (ItemData, nat) {
    if ops == [] then (it, 0)
    else
      var (mid, n) := Run(it, ops[..|ops| - 1]);
      var (end, again) := Apply(mid, ops[|ops| - 1]);
      (end, n + if again then 1 else 0)
  }

  /** The clock never goes back, and a resolved URI is good for at least `v` seconds. */
  ghost predicate Fair(ops: seq<Op>, t0: int, v: nat) {
    && (forall i :: 0 <= i < |ops| ==> t0 <= Time(ops[i]))
    && (forall i, j :: 0 <= i < j < |ops| ==> Time(ops[i]) <= Time(ops[j]))
    && (forall i :: 0 <= i < |ops| && ops[i].Finish? && ops[i].uri != "" ==> ops[i].valid >= v)
  }

  function End(ops: seq<Op>, t0: int): int {
    if ops == [] then t0 else Time(ops[|ops| - 1])
  }

  /** The time `k` times `v` seconds after `t0`. */
  function After(k: nat, t0: int, v: nat): int {
    if k == 0 then t0 else After(k - 1, t0, v) + v
  }

  /** With `c` retries spent on expired URIs: `c` times `v` seconds have passed, and while the
      selected link has a URI, another `v` seconds must pass before it can expire. */
  ghost predicate Spent(it: ItemData, c: nat, v: nat, t0: int, now: int) {
    && After(c, t0, v) <= now
    && AllUnresolvedFrom(it.urls, it.selected + 1)
    && (HasUrl(it) && it.urls[it.selected].isLink && it.urls[it.selected].direct != "" ==>
          var e := it.urls[it.selected].expiry; e == Never || (e.At? && After(c + 1, t0, v) <= e.time))
  }

  /** One operation either moves on to an alternative URL, or spends `v` seconds, or neither. */
  lemma SpentAfterOne(it: ItemData, op: Op, c: nat, v: nat, t0: int, before: int) returns (d: nat)
    requires ValidItem(it) && Spent(it, c, v, t0, before)
    requires v > 0 && before <= Time(op) && (op.Finish? && op.uri != "" ==> op.valid >= v)
    ensures var (end, again) := Apply(it, op);
      && ValidItem(end) && |end.urls| == |it.urls| && it.selected <= end.selected
      && (if again then 1 else 0) == (d - c) + (end.selected - it.selected)
      && Spent(end, d, v, t0, Time(op))
  {
    var refreshed := op.Select? && it.urls != [] && Expired(it.urls[it.selected], op.now);
    d := if refreshed then c + 1 else c;
  }

  lemma {:induction false} SpentOverRun(it: ItemData, ops: seq<Op>, t0: int, v: nat) returns (c: nat)
    requires ValidItem(it) && AllUnresolvedFrom(it.urls, it.selected)
    requires v > 0 && Fair(ops, t0, v)
    ensures var (end, n) := Run(it, ops);
      && ValidItem(end) && |end.urls| == |it.urls| && it.selected <= end.selected
      && n == c + (end.selected - it.selected)
      && Spent(end, c, v, t0, End(ops, t0))
  {
    hide Apply;
    if ops == [] {
      c := 0;
    } else {
      var init, last := ops[..|ops| - 1], ops[|ops| - 1];
      var before := SpentOverRun(it, init, t0, v);
      assert End(init, t0) <= Time(last);
      hide Spent;
      c := SpentAfterOne(Run(it, init).0, last, before, v, t0, End(init, t0));
    }
  }

  /** A stream is retried at most once for each alternative URL it still has and once for each
      `v` seconds that have passed. */
  lemma RetriesAreBounded(it: ItemData, ops: seq<Op>, t0: int, v: nat)
    requires ValidItem(it) && AllUnresolvedFrom(it.urls, it.selected)
    requires v > 0 && Fair(ops, t0, v)
    ensures it.urls != [] ==>
      Run(it, ops).1 <= (|it.urls| - 1 - it.selected) + (End(ops, t0) - t0) / v
    ensures it.urls == [] ==> Run(it, ops).1 == 0
  {
    hide Run, Fair;
    var c := SpentOverRun(it, ops, t0, v);
    AfterIsProduct(c, t0, v);
    DivideBound(c, v, End(ops, t0) - t0);
    if it.urls == [] {
      NothingToRetry(it, ops);
    }
  }

  lemma {:induction false} NothingToRetry(it: ItemData, ops: seq<Op>)
    requires it.urls == []
    ensures Run(it, ops).0.urls == [] && Run(it, ops).1 == 0
  {
    if ops != [] {
      NothingToRetry(it, ops[..|ops| - 1]);
    }
  }

  lemma DivideBound(c: nat, v: int, d: int)
    requires v > 0 && c * v <= d
    ensures c <= d / v
  {
    var q := d / v;
    assert d < q * v + v;
    MulStep(q + 1, v);
    MulMono(q + 1, c, v);
  }

  lemma MulMono(x: int, y: int, v: int)
    requires v > 0
    ensures x <= y ==> x * v <= y * v
  {
  }

  /** The bound is met: `k` times a link is resolved, runs out and is refreshed. */
  function Refreshes(k: nat, t0: int, v: nat): seq<Op> {
    if k == 0 then []
    else Refreshes(k - 1, t0, v) + [Finish("uri", v, After(k - 1, t0, v))] + [Select(After(k, t0, v))]
  }

  lemma {:induction false} AfterIsProduct(k: nat, t0: int, v: nat)
    ensures After(k, t0, v) == t0 + k * v
  {
    if k > 0 {
      AfterIsProduct(k - 1, t0, v);
      MulStep(k, v);
    }
  }

  lemma FairExtends(ops: seq<Op>, op: Op, t0: int, v: nat)
    requires Fair(ops, t0, v) && End(ops, t0) <= Time(op)
    requires op.Finish? && op.uri != "" ==> op.valid >= v
    ensures Fair(ops + [op], t0, v)
  {
  }

  lemma RunExtends(it: ItemData, ops: seq<Op>, op: Op)
    ensures var (mid, n) := Run(it, ops); var (end, again) := Apply(mid, op);
      Run(it, ops + [op]) == (end, n + if again then 1 else 0)
  {
    assert (ops + [op])[..|ops|] == ops;
  }

  ghost predicate AtUnresolvedLink(it: ItemData) {
    it.selected < |it.urls| && it.urls[it.selected].isLink && it.urls[it.selected].direct == ""
  }

  lemma OneRefresh(it: ItemData, now: int, v: nat)
    requires AtUnresolvedLink(it)
    ensures var (mid, first) := Apply(it, Finish("uri", v, now));
      var (end, again) := Apply(mid, Select(now + v));
      !first && again && AtUnresolvedLink(end) && end.selected == it.selected
  {
  }

  lemma {:induction false} RefreshesAreFair(k: nat, t0: int, v: nat)
    ensures Fair(Refreshes(k, t0, v), t0, v) && End(Refreshes(k, t0, v), t0) == After(k, t0, v)
  {
    if k > 0 {
      RefreshesAreFair(k - 1, t0, v);
      var ops := Refreshes(k - 1, t0, v);
      var finish := Finish("uri", v, After(k - 1, t0, v));
      FairExtends(ops, finish, t0, v);
      FairExtends(ops + [finish], Select(After(k, t0, v)), t0, v);
    }
  }

  lemma {:induction false} RefreshesAllAnswerTrue(it: ItemData, k: nat, t0: int, v: nat)
    requires AtUnresolvedLink(it)
    ensures var (end, n) := Run(it, Refreshes(k, t0, v));
      n == k && AtUnresolvedLink(end) && end.selected == it.selected
  {
    if k > 0 {
      var ops, finish := Refreshes(k - 1, t0, v), Finish("uri", v, After(k - 1, t0, v));
      RefreshesAllAnswerTrue(it, k - 1, t0, v);
      OneRefresh(Run(it, ops).0, After(k - 1, t0, v), v);
      RunExtends(it, ops, finish);
      RunExtends(it, ops + [finish], Select(After(k, t0, v)));
    }
  }

  lemma BoundIsMet(it: ItemData, k: nat, t0: int, v: nat)
    requires AtUnresolvedLink(it) && v > 0
    ensures var ops := Refreshes(k, t0, v);
      Fair(ops, t0, v) && Run(it, ops).1 == k == (End(ops, t0) - t0) / v
  {
    RefreshesAreFair(k, t0, v);
    RefreshesAllAnswerTrue(it, k, t0, v);
    AfterIsProduct(k, t0, v);
    DivideExact(k, v);
  }

  lemma MulStep(k: int, v: int)
    ensures k * v == (k - 1) * v + v
  {
  }

  lemma DivideExact(k: nat, v: nat)
    requires v > 0
    ensures (k * v) / v == k
  {
    DivideBound(k, v, k * v);
    MulMono(k + 1, (k * v) / v, v);
    MulStep(k + 1, v);
  }
}

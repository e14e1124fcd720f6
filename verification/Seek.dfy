/** Positions to be sought, and the position at which a failed stream is resumed. */
module Seek {
  import opened Base

  const PERCENT_MAX: int := 1000000
  const SECOND: int := 1000000000
  const MILLISECOND: int := 1000000
  const MICROSECOND: int := 1000
  const INT64_MAX: int := 0x7fff_ffff_ffff_ffff
  const INT64_MIN: int := -0x8000_0000_0000_0000

  /** The percentage is scaled down from hundred percent, rounding towards zero. */
  function PositionFromPercentage(percentage: nat, duration: nat): int {
    if percentage <= PERCENT_MAX then duration * percentage / PERCENT_MAX else -1
  }

  function UnitFactor(units: string): Option<int> {
    if units == "s" then Some(SECOND)
    else if units == "ms" then Some(MILLISECOND)
    else if units == "us" then Some(MICROSECOND)
    else if units == "ns" then Some(1)
    else None
  }

  /** A second has thousand milliseconds, and so on, so that the same position may be given in several units. */
  lemma UnitsAgree(position: nat, duration: nat)
    ensures var s, ms, us, ns := UnitFactor("s"), UnitFactor("ms"), UnitFactor("us"), UnitFactor("ns");
      && s.Some? && ms.Some? && us.Some? && ns.Some?
      && position * s.value == 1000 * position * ms.value
      && position * ms.value == 1000 * position * us.value
      && position * us.value == 1000 * position * ns.value
      && position * ns.value == position
      && PositionFromPercentage(500000, 2 * duration) == duration
  {
  }

  /** The duration is not known unless the stream is seekable and not empty. */
  function KnownDuration(isSeekable: bool, duration: int): int {
    if isSeekable && duration > 0 then duration else INT64_MIN
  }

  /** A product which does not fit into 64 bits has no meaning in the source. */
  predicate Fits(position: int, units: string) {
    UnitFactor(units).Some? ==> position * UnitFactor(units).value <= INT64_MAX
  }

  method ComputePosition(position: nat, units: string, duration: nat) returns (p: int)
    requires Fits(position, units) && duration <= INT64_MAX
    ensures units == "%" ==> p == PositionFromPercentage(position, duration)
    ensures UnitFactor(units).Some? ==> p == position * UnitFactor(units).value
    ensures units != "%" && UnitFactor(units) == None ==> p < 0
  {
    p := position;
    if units == "%" {
      p := PositionFromPercentage(position, duration);
    } else if units == "s" {
      p := p * SECOND;
    } else if units == "ms" {
      p := p * MILLISECOND;
    } else if units == "us" {
      p := p * MICROSECOND;
    } else if units == "ns" {
    } else {
      p := INT64_MIN;
    }
  }

  /** Yields the position handed to the pipeline, if any. It is never outside of the stream, and
      exactly the requests for positions inside of the stream are accepted. */
  method SeekTo(position: int, units: string, activated: bool, isSeekable: bool, duration: int)
    returns (sought: Option<int>)
    requires INT64_MIN <= position <= INT64_MAX && duration <= INT64_MAX && Fits(position, units)
    ensures sought.Some? ==> 0 <= sought.value <= duration
    ensures units == "%" ==>
      (sought.Some? <==> activated && isSeekable && duration > 0 && 0 <= position <= PERCENT_MAX)
    ensures units == "%" && sought.Some? ==>
      sought.value * PERCENT_MAX <= duration * position < (sought.value + 1) * PERCENT_MAX
    ensures units != "%" ==>
      (sought.Some? <==> activated && isSeekable && UnitFactor(units).Some? && duration > 0
                         && 0 <= position * UnitFactor(units).value <= duration)
    ensures units != "%" && sought.Some? ==> sought.value == position * UnitFactor(units).value
  {
    if position < 0 || !activated {
      return None;
    }
    var known := KnownDuration(isSeekable, duration);
    if known < 0 {
      return None;
    }
    if units == "%" && position <= PERCENT_MAX {
      PercentIsFloor(position, duration);
    }
    var p := ComputePosition(position, units, known);
    if p < 0 || p > known {
      return None;
    }
    sought := Some(p);
  }

  lemma PercentIsFloor(percentage: nat, duration: nat)
    requires percentage <= PERCENT_MAX
    ensures var p := PositionFromPercentage(percentage, duration);
      0 <= p <= duration && p * PERCENT_MAX <= duration * percentage < (p + 1) * PERCENT_MAX
  {
    var p := PositionFromPercentage(percentage, duration);
    var product := duration * percentage;
    assert product <= duration * PERCENT_MAX by { MulMonotone(duration, percentage, PERCENT_MAX); }
    assert p * PERCENT_MAX <= product < (p + 1) * PERCENT_MAX;
  }

  lemma MulMonotone(k: nat, a: int, b: int)
    requires a <= b
    ensures k * a <= k * b
  {
  }

  lemma PercentIsMonotone(a: nat, b: nat, duration: nat)
    requires a <= b <= PERCENT_MAX
    ensures PositionFromPercentage(a, duration) <= PositionFromPercentage(b, duration)
    ensures PositionFromPercentage(0, duration) == 0
    ensures PositionFromPercentage(PERCENT_MAX, duration) == duration
  {
    MulMonotone(duration, a, b);
    PercentIsFloor(a, duration);
    PercentIsFloor(b, duration);
  }

  /** Whole seconds of a queried position, or -1 if there is none. */
  function WholeSeconds(known: bool, ns: int): int {
    if !known || ns < 0 then -1 else ns / SECOND
  }

  /** The position at which the stream is going to be resumed, if one is saved. */
  function ResumePosition(seconds: int): Option<int> {
    if 0 < seconds < INT64_MAX / SECOND then Some(seconds * SECOND) else None
  }

  lemma ResumeIsJustBefore(known: bool, ns: int)
    requires ns <= INT64_MAX
    ensures var resume := ResumePosition(WholeSeconds(known, ns));
      && (resume.Some? ==> known && 0 < resume.value <= INT64_MAX && resume.value <= ns < resume.value + SECOND)
      && (WholeSeconds(known, ns) >= 0 <==> known && ns >= 0)
      && (resume.Some? <==> known && SECOND <= ns < (INT64_MAX / SECOND) * SECOND)
  {
  }
}

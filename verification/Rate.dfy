/** The rate limiter: wf_rate.h and wf_rate.cc, with doubles as reals. */
module Rates {
  import opened Timestamps

  /** Inf is DBL_MAX in the source; any other limit is a positive number of events per second. */
  datatype Limit = Inf | PerSecond(r: real)

  const INT64_MAX: int := 0x7FFF_FFFF_FFFF_FFFF

  datatype Bucket = Bucket(limit: Limit, burst: int, tokens: real, last: int) {
    /** tokens_ is set once, to nothing, and never written back. */
    ghost predicate Valid() {
      tokens == 0.0 && (limit.PerSecond? ==> limit.r > 0.0)
    }
  }

  datatype Reservation = Reservation(ok: bool, tokens: int, timeToAct: int)

  function Every(interval: int): Limit {
    if interval <= 0 then Inf else PerSecond(1.0 * MICROS_REAL / interval as real)
  }

  function DurationFromTokens(limit: Limit, tokens: real): int
    requires limit.PerSecond? && limit.r > 0.0
  {
    Truncated(tokens / limit.r * MICROS_REAL)
  }

  function Advance(b: Bucket, t: int): real
    requires b.limit.PerSecond?
  {
    var last := if t < b.last then t else b.last;
    var tokens := b.tokens + b.limit.r * Seconds(t - last);
    if tokens > b.burst as real then b.burst as real else tokens
  }

  datatype Reserved = Reserved(reservation: Reservation, bucket: Bucket)

  /** reserveN; the clock is read twice, the second time in tokens(). */
  function ReserveN(b: Bucket, n: int, now: int, again: int): Reserved
    requires b.Valid()
  {
    if b.limit == Inf then Reserved(Reservation(true, n, now), b)
    else
      var left := Advance(b, again) - n as real;
      if n <= b.burst then
        Reserved(Reservation(true, Truncated(left), ActTime(now, WaitFor(b.limit, left))), b.(last := now))
      else Reserved(Reservation(false, Truncated(left), 0), b)
  }

  /** The wait goes through seconds on its way into timeToAct. */
  function ActTime(now: int, wait: int): (t: int)
    ensures t == now + wait
  {
    SecondsRoundTrip(wait);
    AddTime(now, Seconds(wait))
  }

  function WaitFor(limit: Limit, left: real): int
    requires limit.PerSecond? && limit.r > 0.0
  {
    if left < 0.0 then DurationFromTokens(limit, -left) else 0
  }

  function Delay(r: Reservation, now: int): int {
    if !r.ok then INT64_MAX else if r.timeToAct - now < 0 then 0 else r.timeToAct - now
  }

  /** A caller that waits out the delay of a granted reservation is there when it acts; a refused one never ends. */
  lemma DelayEndsAtAct(r: Reservation, now: int)
    ensures r.ok ==> now + Delay(r, now) == if now < r.timeToAct then r.timeToAct else now
    ensures !r.ok ==> Delay(r, now) == 9_223_372_036_854_775_807
  {
  }

  // ---- When a reservation acts ----

  /** The whole microseconds in which n tokens come in. */
  function Period(limit: Limit, n: int): int
    requires limit.PerSecond? && limit.r > 0.0
  {
    (n as real * MICROS_REAL / limit.r).Floor
  }

  function Max(a: int, b: int): int {
    if a < b then b else a
  }

  /** The wait for what is missing of n tokens after s seconds, before truncation. */
  lemma Missing(r: real, n: real, s: real, left: real)
    requires r > 0.0 && left == r * s - n
    ensures -left / r * MICROS_REAL == n * MICROS_REAL / r - s * MICROS_REAL
    ensures left < 0.0 <==> n * MICROS_REAL / r > s * MICROS_REAL
  {
  }

  lemma FloorShift(x: real, k: int)
    ensures (x - k as real).Floor == x.Floor - k
    ensures x <= k as real ==> x.Floor <= k
    ensures x > k as real ==> x.Floor >= k
  {
  }

  /** What is missing of n tokens takes as long as they still need to come in. */
  lemma WaitIsRestOfPeriod(limit: Limit, n: int, e: int, left: real)
    requires limit.PerSecond? && limit.r > 0.0 && left == limit.r * Seconds(e) - n as real
    ensures WaitFor(limit, left) == Max(0, Period(limit, n) - e)
  {
    var need := n as real * MICROS_REAL / limit.r;
    Missing(limit.r, n as real, Seconds(e), left);
    assert Seconds(e) * MICROS_REAL == e as real;
    FloorShift(need, e);
    if left < 0.0 {
      var tokens := -left;
      assert tokens / limit.r * MICROS_REAL == need - e as real;
      assert WaitFor(limit, left) == Truncated(need - e as real);
    }
  }

  /** The cap on tokens does not matter to a reservation it allows. */
  lemma WaitOfReservation(b: Bucket, n: int, again: int)
    requires b.Valid() && b.limit.PerSecond? && n <= b.burst && b.last <= again
    ensures WaitFor(b.limit, Advance(b, again) - n as real) == Max(0, Period(b.limit, n) - (again - b.last))
  {
    var e := again - b.last;
    var full := b.limit.r * Seconds(e);
    WaitIsRestOfPeriod(b.limit, n, e, full - n as real);
    if full > b.burst as real {
      assert Advance(b, again) == b.burst as real;
    } else {
      assert Advance(b, again) == full;
    }
  }

  /**
   * A granted reservation acts at once, or when its tokens have come in since the last one was granted, whichever
   * is later; the time between the two clock readings is taken off.
   */
  lemma GrantedActsAt(b: Bucket, n: int, now: int, again: int)
    requires b.Valid() && b.limit.PerSecond? && n <= b.burst && b.last <= now <= again
    ensures var r := ReserveN(b, n, now, again);
            && r.reservation.ok && r.bucket == b.(last := now)
            && r.reservation.timeToAct == Max(now, b.last + Period(b.limit, n) - (again - now))
  {
    WaitOfReservation(b, n, again);
    var r := ReserveN(b, n, now, again);
    assert r.reservation.timeToAct == now + WaitFor(b.limit, Advance(b, again) - n as real);
  }

  /** Every(t) lets one token come in each t microseconds. */
  lemma EveryPeriod(interval: int)
    requires interval > 0
    ensures Every(interval).PerSecond? && Every(interval).r > 0.0 && Period(Every(interval), 1) == interval
  {
  }

  /** After k periods without a grant k tokens have come in, and no more than the burst are kept. */
  lemma TokensLeft(interval: nat, burst: int, last: int, k: nat, n: int, now: int)
    requires interval > 0
    ensures var b := Bucket(Every(interval), burst, 0.0, last);
            ReserveN(b, n, now, last + k * interval).reservation.tokens == (if k < burst then k else burst) - n
  {
    var b := Bucket(Every(interval), burst, 0.0, last);
    var e := k * interval;
    PeriodsInSpan(interval, k);
    assert Advance(b, last + e) == if k < burst then k as real else burst as real;
  }

  /** An unlimited limiter grants everything at once. */
  lemma UnlimitedGrants(b: Bucket, n: int, now: int, again: int)
    requires b.Valid() && b.limit == Inf
    ensures ReserveN(b, n, now, again) == Reserved(Reservation(true, n, now), b)
    ensures now <= again ==> Delay(ReserveN(b, n, now, again).reservation, again) == 0
  {
  }

  lemma PeriodsInSpan(interval: nat, k: nat)
    requires interval > 0
    ensures Every(interval).PerSecond? && Every(interval).r * Seconds(k * interval) == k as real
  {
    var i, m := interval as real, MICROS_REAL;
    assert (k * interval) as real == k as real * i;
    assert 1.0 * m / i * (k as real * i / m) == k as real;
  }

  // ---- Callers that wait ----

  /** A call of reserve(): its two clock readings. */
  datatype Call = Call(now: int, again: int)

  /** When each call's reservation acts. */
  function Acts(b: Bucket, calls: seq<Call>): (acts: seq<int>)
    requires b.Valid()
    ensures |acts| == |calls|
    decreases |calls|
  {
    if calls == [] then []
    else
      var r := ReserveN(b, 1, calls[0].now, calls[0].again);
      [r.reservation.timeToAct] + Acts(r.bucket, calls[1..])
  }

  /** The clock goes forward, its readings at most `gap` apart, and each delay is waited out before the next call. */
  ghost predicate WaitsOut(b: Bucket, calls: seq<Call>, gap: nat)
    requires b.Valid()
    decreases |calls|
  {
    calls != [] ==>
      var c := calls[0];
      var r := ReserveN(b, 1, c.now, c.again);
      && b.last <= c.now <= c.again <= c.now + gap
      && (|calls| > 1 ==> c.now + Delay(r.reservation, c.now) <= calls[1].now)
      && WaitsOut(r.bucket, calls[1..], gap)
  }

  /** Each call acts no sooner than it is made, and one period after the call before it, or after `last`. */
  lemma {:induction false} ActsAfterCalls(b: Bucket, calls: seq<Call>, gap: nat, i: nat)
    requires b.Valid() && b.limit.PerSecond? && 1 <= b.burst && WaitsOut(b, calls, gap) && i < |calls|
    ensures var acts := Acts(b, calls);
            var before := if i == 0 then b.last else calls[i - 1].now;
            && acts[i] == Max(calls[i].now, before + Period(b.limit, 1) - (calls[i].again - calls[i].now))
            && before <= calls[i].now && 0 <= calls[i].again - calls[i].now <= gap
            && (i + 1 < |calls| ==> acts[i] <= calls[i + 1].now)
    decreases i
  {
    GrantedActsAt(b, 1, calls[0].now, calls[0].again);
    if i > 0 {
      ActsAfterCalls(ReserveN(b, 1, calls[0].now, calls[0].again).bucket, calls[1..], gap, i - 1);
    }
  }

  /** Of three events in a row the last is at least a period, less the gap, after the first. */
  lemma NoThreeWithinAPeriod(b: Bucket, calls: seq<Call>, gap: nat, i: nat)
    requires b.Valid() && b.limit.PerSecond? && 1 <= b.burst && WaitsOut(b, calls, gap) && i + 2 < |calls|
    ensures Acts(b, calls)[i + 2] - Acts(b, calls)[i] >= Period(b.limit, 1) - gap
  {
    ActsAfterCalls(b, calls, gap, i);
    ActsAfterCalls(b, calls, gap, i + 2);
  }

  /** Events never go back in time. */
  lemma {:induction false} ActsAscend(b: Bucket, calls: seq<Call>, gap: nat, i: nat, j: nat)
    requires b.Valid() && b.limit.PerSecond? && 1 <= b.burst && WaitsOut(b, calls, gap) && i <= j < |calls|
    ensures Acts(b, calls)[i] <= Acts(b, calls)[j]
    decreases j
  {
    if i < j {
      ActsAscend(b, calls, gap, i, j - 1);
      ActsAfterCalls(b, calls, gap, j - 1);
      ActsAfterCalls(b, calls, gap, j);
    }
  }

  lemma {:induction false} EveryOther(b: Bucket, calls: seq<Call>, gap: nat, i: nat, k: nat)
    requires b.Valid() && b.limit.PerSecond? && 1 <= b.burst && WaitsOut(b, calls, gap) && i + 2 * k < |calls|
    ensures Acts(b, calls)[i + 2 * k] >= Acts(b, calls)[i] + k * (Period(b.limit, 1) - gap)
    decreases k
  {
    if k > 0 {
      EveryOther(b, calls, gap, i, k - 1);
      NoThreeWithinAPeriod(b, calls, gap, i + 2 * (k - 1));
      var p := Period(b.limit, 1) - gap;
      assert k * p == (k - 1) * p + p;
    }
  }

  /** The events in the half-open window of the given width from `from` on. */
  function InWindow(acts: seq<int>, from: int, width: nat): nat {
    if acts == [] then 0
    else (if from <= acts[0] < from + width then 1 else 0) + InWindow(acts[1..], from, width)
  }

  ghost predicate Ascending(acts: seq<int>) {
    forall i, j :: 0 <= i <= j < |acts| ==> acts[i] <= acts[j]
  }

  /** In an ascending list the events of a window are neighbours. */
  lemma {:induction false} WindowIsARange(acts: seq<int>, from: int, width: nat) returns (lo: nat, n: nat)
    requires Ascending(acts)
    ensures n == InWindow(acts, from, width) && lo + n <= |acts|
    ensures forall i :: lo <= i < lo + n ==> from <= acts[i] < from + width
    ensures n > 0 ==> forall i :: 0 <= i < lo ==> acts[i] < from
  {
    if acts == [] {
      lo, n := 0, 0;
    } else {
      var rest := acts[1..];
      assert forall i :: 0 <= i < |rest| ==> rest[i] == acts[i + 1];
      lo, n := WindowIsARange(rest, from, width);
      if from <= acts[0] < from + width {
        lo, n := 0, n + 1;
      } else {
        lo := lo + 1;
        assert n > 0 ==> acts[0] <= acts[lo] && acts[0] < from;
      }
    }
  }

  lemma DivBound(k: nat, p: nat, w: nat)
    requires p > 0 && k * p <= w
    ensures k <= w / p
  {
    assert w < (w / p + 1) * p;
    var q := w / p;
    assert q < k ==> (q + 1) * p <= k * p;
  }

  /** n events in a row, the first and the last less than the width apart. */
  lemma EventsInARow(b: Bucket, calls: seq<Call>, gap: nat, lo: nat, n: nat, width: nat)
    requires b.Valid() && b.limit.PerSecond? && 1 <= b.burst && WaitsOut(b, calls, gap)
    requires 0 < n && lo + n <= |calls| && gap < Period(b.limit, 1)
    requires Acts(b, calls)[lo + n - 1] - Acts(b, calls)[lo] < width
    ensures n <= 2 * ((width - 1) / (Period(b.limit, 1) - gap) + 1)
  {
    var k := (n - 1) / 2;
    EveryOther(b, calls, gap, lo, k);
    ActsAscend(b, calls, gap, lo, lo + n - 1);
    ActsAscend(b, calls, gap, lo + 2 * k, lo + n - 1);
    DivBound(k, Period(b.limit, 1) - gap, width - 1);
  }

  /** A caller that waits has at most 2 * (floor((width - 1) / period) + 1) events in a window. */
  lemma WindowBound(b: Bucket, calls: seq<Call>, gap: nat, from: int, width: nat)
    requires b.Valid() && b.limit.PerSecond? && 1 <= b.burst && WaitsOut(b, calls, gap)
    requires width > 0 && gap < Period(b.limit, 1)
    ensures InWindow(Acts(b, calls), from, width) <= 2 * ((width - 1) / (Period(b.limit, 1) - gap) + 1)
  {
    var acts := Acts(b, calls);
    forall i, j | 0 <= i <= j < |acts| ensures acts[i] <= acts[j] {
      ActsAscend(b, calls, gap, i, j);
    }
    var lo, n := WindowIsARange(acts, from, width);
    if n > 0 {
      EventsInARow(b, calls, gap, lo, n, width);
    } else {
      assert (width - 1) / (Period(b.limit, 1) - gap) >= 0;
    }
  }

  // ---- What the limiter does not do ----

  /**
   * Two events in a row keep a period apart, less a slack, if and only if the second was asked for that long after the
   * first, or the first waited no longer than the slack and the gap of the second leave: last_ remembers when a token
   * was asked for, not when it was used. With no slack and no gap the first must not have waited at all.
   */
  lemma NeighboursKeepApart(b: Bucket, calls: seq<Call>, gap: nat, i: nat, slack: int)
    requires b.Valid() && b.limit.PerSecond? && 1 <= b.burst && WaitsOut(b, calls, gap) && i + 1 < |calls|
    ensures var acts, first, second := Acts(b, calls), calls[i], calls[i + 1];
            var apart := Period(b.limit, 1) - slack;
            acts[i + 1] - acts[i] >= apart <==>
            second.now - acts[i] >= apart || acts[i] - first.now <= slack - (second.again - second.now)
  {
    ActsAfterCalls(b, calls, gap, i);
    ActsAfterCalls(b, calls, gap, i + 1);
  }

  /** With one token every tenth of a second and a burst of one, a caller that waits gets two events at one instant. */
  lemma TwoAtOnce()
    ensures var b := Bucket(Every(100_000), 1, 0.0, 0);
            var calls := [Call(1_000_000, 1_000_000), Call(1_000_000, 1_000_000), Call(1_100_000, 1_100_000)];
            && b.Valid() && WaitsOut(b, calls, 0)
            && Acts(b, calls)[1] == Acts(b, calls)[2]
  {
    EveryPeriod(100_000);
    var b := Bucket(Every(100_000), 1, 0.0, 0);
    var calls := [Call(1_000_000, 1_000_000), Call(1_000_000, 1_000_000), Call(1_100_000, 1_100_000)];
    GrantedActsAt(b, 1, 1_000_000, 1_000_000);
    var b1 := b.(last := 1_000_000);
    GrantedActsAt(b1, 1, 1_000_000, 1_000_000);
    GrantedActsAt(b1, 1, 1_100_000, 1_100_000);
    assert calls[1..][1..] == [calls[2]];
    assert WaitsOut(b1.(last := 1_100_000), [], 0);
    assert [calls[2]][1..] == [];
    assert WaitsOut(b1, [calls[2]], 0) && WaitsOut(b1, calls[1..], 0) && WaitsOut(b, calls, 0);
    ActsAfterCalls(b, calls, 0, 1);
    ActsAfterCalls(b, calls, 0, 2);
  }

  // ---- The class ----

  class Limiter {
    const limit: Limit
    const burst: int
    var tokens: real
    var last: int

    ghost function View(): Bucket
      reads this
    {
      Bucket(limit, burst, tokens, last)
    }

    ghost predicate Valid()
      reads this
    {
      View().Valid()
    }

    constructor (limit: Limit, burst: int)
      requires limit.PerSecond? ==> limit.r > 0.0
      ensures Valid() && View() == Bucket(limit, burst, 0.0, 0)
    {
      this.limit, this.burst, tokens, last := limit, burst, 0.0, 0;
    }

    /** `now` and `again` are the two clock readings. */
    method ReserveTokens(n: int, now: int, again: int) returns (r: Reservation)
      requires Valid()
      modifies this`last
      ensures Valid() && Reserved(r, View()) == ReserveN(old(View()), n, now, again)
      ensures limit.PerSecond? && n <= burst && old(last) <= now <= again ==>
                r.ok && last == now && r.timeToAct == Max(now, old(last) + Period(limit, n) - (again - now))
      ensures limit.PerSecond? && n > burst ==> !r.ok && last == old(last) && Delay(r, again) == INT64_MAX
      ensures limit == Inf ==> r.ok && Delay(r, again) <= Max(0, now - again) && last == old(last)
    {
      ghost var b := View();
      if limit == Inf {
        return Reservation(true, n, now);
      }
      var left := TokensAt(again) - n as real;
      var wait := if left < 0.0 then DurationFromTokens(limit, -left) else 0;
      var ok := n <= burst;
      var timeToAct := 0;
      if ok {
        SecondsRoundTrip(wait);
        timeToAct := AddTime(now, Seconds(wait));
        last := now;
        if b.last <= now <= again {
          GrantedActsAt(b, n, now, again);
        }
      }
      r := Reservation(ok, Truncated(left), timeToAct);
    }

    function TokensAt(t: int): real
      requires limit.PerSecond?
      reads this
    {
      Advance(Bucket(limit, burst, tokens, last), t)
    }
  }
}

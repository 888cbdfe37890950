// src/carrier.rs, keepalive_loop, over discrete time in milliseconds with prompt polling and a PING that is
// enqueued at once. `pongs(t)` is the PONG counter at time t.
module Keepalive {
  import opened Bytes

  const KEEPALIVE_GRACE := 2000

  /** `interval(period)`: the configured seconds, at least one. */
  function Period(pingSecs: nat): (p: nat)
    ensures p >= 1000
  {
    (if pingSecs < 1 then 1 else pingSecs) * 1000
  }

  function Max(a: nat, b: nat): nat {
    if a < b then b else a
  }

  type Pongs = nat -> nat

  ghost predicate Counter(pongs: Pongs) {
    forall t: nat, u: nat :: t <= u ==> pongs(t) <= pongs(u)
  }

  /** Waiting out the grace delays the next tick when the period is shorter than the grace. */
  function Stride(pingSecs: nat): nat {
    Max(Period(pingSecs), KEEPALIVE_GRACE)
  }

  function TickTime(pingSecs: nat, k: nat): nat {
    k * Stride(pingSecs)
  }

  /** The PING of tick `k` is answered within its grace. */
  predicate Answered(pingSecs: nat, pongs: Pongs, k: nat) {
    pongs(TickTime(pingSecs, k) + KEEPALIVE_GRACE) > pongs(TickTime(pingSecs, k))
  }

  /** The keepalive declares the tunnel dead at time `t`: the first unanswered PING runs out then. */
  ghost predicate KillsAt(pingSecs: nat, pongs: Pongs, t: nat) {
    exists k: nat ::
      && t == TickTime(pingSecs, k) + KEEPALIVE_GRACE && !Answered(pingSecs, pongs, k)
      && forall j: nat :: j < k ==> Answered(pingSecs, pongs, j)
  }

  /** In plain numbers: two seconds after a multiple of the configured interval, or of two seconds if that is
      longer. */
  predicate GraceEnds(pingSecs: nat, k: nat, t: nat) {
    t == k * (if pingSecs <= 2 then 2000 else pingSecs * 1000) + 2000
  }

  /** The grace of tick `j` ends within the horizon and before the tunnel died otherwise. */
  predicate GraceOver(pingSecs: nat, j: nat, died: Option<nat>, horizon: nat) {
    && TickTime(pingSecs, j) + KEEPALIVE_GRACE <= horizon
    && (died.Some? ==> TickTime(pingSecs, j) + KEEPALIVE_GRACE < died.value)
  }

  /** The loop, up to a time horizon and unless somebody else killed the tunnel at `died`. The interval is
      tokio's: a tick is due at its deadline, a late tick (MissedTickBehavior::Delay) pushes the next one. */
  method KeepaliveLoop(pingSecs: nat, pongs: Pongs, died: Option<nat>, horizon: nat) returns (killed: Option<nat>)
    ensures killed.Some? ==> KillsAt(pingSecs, pongs, killed.value)
    ensures killed.Some? ==>
              exists k: nat :: GraceEnds(pingSecs, k, killed.value)
    ensures killed.Some? && died.Some? ==> killed.value < died.value
    ensures killed.None? ==>
              forall t: nat :: t <= horizon && KillsAt(pingSecs, pongs, t) ==> died.Some? && died.value <= t
    ensures killed.None? ==> forall j: nat :: GraceOver(pingSecs, j, died, horizon) ==> Answered(pingSecs, pongs, j)
  {
    var period := Period(pingSecs);
    var now: nat, deadline: nat := 0, 0;
    ghost var k: nat := 0;
    while now <= horizon
      invariant Max(now, deadline) == TickTime(pingSecs, k)
      invariant forall j: nat :: j < k ==> Answered(pingSecs, pongs, j)
      invariant now <= TickTime(pingSecs, k)
      decreases horizon + 1 - now
    {
      var tick := Max(now, deadline);
      if died.Some? && died.value <= tick {
        NoEarlierKill(pingSecs, pongs, k);
        LaterTicks(pingSecs, k);
        return None;
      }
      deadline := if tick > deadline then tick + period else deadline + period;
      var before := pongs(tick);
      now := tick + KEEPALIVE_GRACE;
      if died.Some? && died.value <= now {
        NoEarlierKill(pingSecs, pongs, k);
        LaterTicks(pingSecs, k);
        return None;
      }
      if pongs(now) <= before {
        assert GraceEnds(pingSecs, k, now);
        return Some(now);
      }
      NextTick(pingSecs, k);
      k := k + 1;
    }
    NoEarlierKill(pingSecs, pongs, k);
    LaterTicks(pingSecs, k);
    killed := None;
  }

  lemma NextTick(pingSecs: nat, k: nat)
    ensures TickTime(pingSecs, k + 1) == TickTime(pingSecs, k) + Stride(pingSecs)
  {
  }

  lemma {:induction false} TicksOrdered(pingSecs: nat, j: nat, k: nat)
    ensures j <= k ==> TickTime(pingSecs, j) <= TickTime(pingSecs, k)
    ensures j < k ==> TickTime(pingSecs, j) + Stride(pingSecs) <= TickTime(pingSecs, k)
    decreases k
  {
    if j < k {
      TicksOrdered(pingSecs, j, k - 1);
      NextTick(pingSecs, k - 1);
    }
  }

  lemma LaterTicks(pingSecs: nat, k: nat)
    ensures forall j: nat :: k <= j ==> TickTime(pingSecs, k) <= TickTime(pingSecs, j)
  {
    forall j: nat | k <= j
      ensures TickTime(pingSecs, k) <= TickTime(pingSecs, j)
    {
      TicksOrdered(pingSecs, k, j);
    }
  }

  /** While the first `k` PINGs were answered no kill falls before the grace of the next. */
  lemma NoEarlierKill(pingSecs: nat, pongs: Pongs, k: nat)
    requires forall j: nat :: j < k ==> Answered(pingSecs, pongs, j)
    ensures forall t: nat :: KillsAt(pingSecs, pongs, t) ==> t >= TickTime(pingSecs, k) + KEEPALIVE_GRACE
  {
    forall t: nat | KillsAt(pingSecs, pongs, t)
      ensures t >= TickTime(pingSecs, k) + KEEPALIVE_GRACE
    {
      var i: nat :| t == TickTime(pingSecs, i) + KEEPALIVE_GRACE && !Answered(pingSecs, pongs, i)
                    && forall j: nat :: j < i ==> Answered(pingSecs, pongs, j);
      TicksOrdered(pingSecs, k, i);
    }
  }

  // ── detection ──────────────────────────────────────────────────────────────

  /** No PONG is counted after time `t`. */
  ghost predicate SilentAfter(pongs: Pongs, t: nat) {
    forall u: nat :: t <= u ==> pongs(u) == pongs(t)
  }

  ghost predicate DetectedWithin(pingSecs: nat, pongs: Pongs, t: nat, bound: nat) {
    exists d: nat :: d <= t + bound && KillsAt(pingSecs, pongs, d)
  }

  lemma {:induction false} FirstUnanswered(pingSecs: nat, pongs: Pongs, k: nat) returns (i: nat)
    requires !Answered(pingSecs, pongs, k)
    ensures i <= k && !Answered(pingSecs, pongs, i) && forall j: nat :: j < i ==> Answered(pingSecs, pongs, j)
  {
    if j: nat :| j < k && !Answered(pingSecs, pongs, j) {
      i := FirstUnanswered(pingSecs, pongs, j);
    } else {
      i := k;
    }
  }

  /** The first tick at or after time `t`. */
  lemma {:induction false} TickAfter(pingSecs: nat, t: nat) returns (k: nat)
    ensures t <= TickTime(pingSecs, k) < t + Stride(pingSecs)
  {
    if t == 0 {
      k := 0;
    } else {
      k := TickAfter(pingSecs, t - 1);
      if TickTime(pingSecs, k) < t {
        NextTick(pingSecs, k);
        k := k + 1;
      }
    }
  }

  /** A peer that falls silent is detected before one interval (two seconds at least) and one grace have passed. */
  lemma Detection(pingSecs: nat, pongs: Pongs, t: nat)
    requires SilentAfter(pongs, t)
    ensures DetectedWithin(pingSecs, pongs, t, (if pingSecs <= 2 then 2000 else pingSecs * 1000) + 1999)
  {
    var k := TickAfter(pingSecs, t);
    assert pongs(TickTime(pingSecs, k)) == pongs(t);
    var i := FirstUnanswered(pingSecs, pongs, k);
    TicksOrdered(pingSecs, i, k);
    assert KillsAt(pingSecs, pongs, TickTime(pingSecs, i) + KEEPALIVE_GRACE);
  }

  /** One PONG, one millisecond after the first tick, and nothing more. */
  function OnePong(u: nat): nat {
    if u < 1 then 0 else 1
  }

  /** What `Detection` says of all histories with a given bound. */
  ghost predicate AlwaysDetected(pingSecs: nat, bound: nat) {
    forall pongs: Pongs, t: nat :: Counter(pongs) && SilentAfter(pongs, t) ==> DetectedWithin(pingSecs, pongs, t, bound)
  }

  /** A bound in whole milliseconds covers every history if and only if it is at least the configured interval
      (two seconds if that is longer) and the two seconds of grace, less one millisecond. */
  lemma DetectionIsTight(pingSecs: nat, bound: nat)
    ensures AlwaysDetected(pingSecs, bound)
            <==> bound >= (if pingSecs <= 2 then 2000 else pingSecs * 1000) + 1999
  {
    if bound >= Stride(pingSecs) + KEEPALIVE_GRACE - 1 {
      forall pongs: Pongs, t: nat | Counter(pongs) && SilentAfter(pongs, t)
        ensures DetectedWithin(pingSecs, pongs, t, bound)
      {
        Detection(pingSecs, pongs, t);
      }
    } else {
      OnePongIsSlow(pingSecs);
      assert !DetectedWithin(pingSecs, OnePong, 1, bound);
    }
  }

  lemma OnePongIsSlow(pingSecs: nat)
    ensures Counter(OnePong) && SilentAfter(OnePong, 1)
    ensures forall t: nat :: KillsAt(pingSecs, OnePong, t) ==> t >= Stride(pingSecs) + KEEPALIVE_GRACE
  {
    assert Answered(pingSecs, OnePong, 0);
    NextTick(pingSecs, 0);
    NoEarlierKill(pingSecs, OnePong, 1);
  }

  /** The documented `ping + 2s` covers every history exactly for intervals of at least two seconds: with
      `ping=1` the grace itself limits the tick rate. */
  lemma DocumentedBoundIff(pingSecs: nat)
    requires pingSecs > 0
    ensures AlwaysDetected(pingSecs, pingSecs * 1000 + KEEPALIVE_GRACE) <==> pingSecs >= 2
  {
    DetectionIsTight(pingSecs, pingSecs * 1000 + KEEPALIVE_GRACE);
  }

  /** The keepalive kills if and only if some PING is not answered within its grace. */
  lemma KillsIffUnanswered(pingSecs: nat, pongs: Pongs)
    ensures (exists t: nat :: KillsAt(pingSecs, pongs, t)) <==> (exists k: nat :: !Answered(pingSecs, pongs, k))
  {
    if k: nat :| !Answered(pingSecs, pongs, k) {
      var i := FirstUnanswered(pingSecs, pongs, k);
      assert KillsAt(pingSecs, pongs, TickTime(pingSecs, i) + KEEPALIVE_GRACE);
    }
  }

  /** In particular the first PING, sent at once: without a PONG within its grace the tunnel dies then. */
  lemma FirstPingDecides(pingSecs: nat, pongs: Pongs)
    ensures KillsAt(pingSecs, pongs, 2000) <==> pongs(2000) <= pongs(0)
  {
    assert TickTime(pingSecs, 0) == 0;
    if Answered(pingSecs, pongs, 0) {
      NextTick(pingSecs, 0);
      NoEarlierKill(pingSecs, pongs, 1);
    }
  }
}

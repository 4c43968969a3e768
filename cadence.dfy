/** The cycle cadence of monitor.go `recordMetrics`: after a cycle that took `elapsed`, the loop
    sleeps for what is left of the check interval, so cycles start at least a period apart, and
    exactly a period apart only while the sleeps are exact and no cycle overruns. Times are
    integers (Go's `time.Duration` counts nanoseconds); the clock is an input. */
module Cadence {

  function Max(a: int, b: int): int {
    if a < b then b else a
  }

  /** The sleep after a cycle (monitor.go:39-42): the rest of the interval, or nothing at all when
      the cycle took the whole interval or longer. The next cycle then starts `Max(elapsed,
      interval)` after this one started. */
  function SleepFor(elapsed: int, interval: int): (d: nat)
    ensures elapsed + d == Max(elapsed, interval)
    ensures d == 0 <==> elapsed >= interval
  {
    if elapsed < interval then interval - elapsed else 0
  }

  /** How long `time.Sleep(d)` actually suspends: a zero or negative duration returns at once. */
  function Idle(d: int): nat {
    if d > 0 then d else 0
  }

  function Sum(xs: seq<nat>): nat {
    if xs == [] then 0 else Sum(xs[..|xs| - 1]) + xs[|xs| - 1]
  }

  /** When cycle `|elapsed|` starts, counted from the first cycle's start (each `start := time.Now()`
      of monitor.go:19). Cycle i probed for `elapsed[i]`; then `pauses[i]` passed before the next
      turn read the clock: the sleep of monitor.go:41, which Go's `time.Sleep` makes at least as long
      as asked, plus whatever the scheduler adds. The cycles run back to back: cycle k starts when
      all the probing and all the pauses before it are over, so cycles never overlap. */
  function CycleStart(elapsed: seq<nat>, pauses: seq<nat>): (t: nat)
    requires |pauses| == |elapsed|
    ensures t == Sum(elapsed) + Sum(pauses)
  {
    if elapsed == [] then 0
    else
      var n := |elapsed| - 1;
      CycleStart(elapsed[..n], pauses[..n]) + elapsed[n] + pauses[n]
  }

  lemma MulStep(n: nat, interval: int)
    ensures (n + 1) * interval == n * interval + interval
  {
  }

  /** The self-correcting cadence: when every pause is at least the sleep monitor.go:40-42 asks for,
      cycle k never starts before k intervals have passed. */
  lemma {:induction false} CadenceHolds(elapsed: seq<nat>, pauses: seq<nat>, interval: int)
    requires |pauses| == |elapsed|
    requires forall i :: 0 <= i < |elapsed| ==> pauses[i] >= SleepFor(elapsed[i], interval)
    ensures CycleStart(elapsed, pauses) >= |elapsed| * interval
    decreases |elapsed|
  {
    if elapsed != [] {
      var n := |elapsed| - 1;
      var e, p := elapsed[..n], pauses[..n];
      assert forall i :: 0 <= i < n ==> e[i] == elapsed[i] && p[i] == pauses[i];
      CadenceHolds(e, p, interval);
      assert CycleStart(elapsed, pauses) == CycleStart(e, p) + elapsed[n] + pauses[n];
      assert elapsed[n] + pauses[n] >= interval;
      MulStep(n, interval);
    }
  }

  /** When the sleeps are exact and no cycle overruns the interval, cycle k starts exactly k
      intervals after the first. */
  lemma {:induction false} CadenceExact(elapsed: seq<nat>, pauses: seq<nat>, interval: int)
    requires |pauses| == |elapsed|
    requires forall i :: 0 <= i < |elapsed| ==> elapsed[i] <= interval && pauses[i] == SleepFor(elapsed[i], interval)
    ensures CycleStart(elapsed, pauses) == |elapsed| * interval
    decreases |elapsed|
  {
    if elapsed != [] {
      var n := |elapsed| - 1;
      var e, p := elapsed[..n], pauses[..n];
      assert forall i :: 0 <= i < n ==> e[i] == elapsed[i] && p[i] == pauses[i];
      CadenceExact(e, p, interval);
      assert CycleStart(elapsed, pauses) == CycleStart(e, p) + elapsed[n] + pauses[n];
      assert elapsed[n] + pauses[n] == interval;
      MulStep(n, interval);
    }
  }

  /** And only then: when every pause is at least the sleep asked for and cycle k starts exactly k
      intervals after the first, no earlier cycle overran and every earlier sleep was exact. */
  lemma {:induction false} CadenceExactOnlyIf(elapsed: seq<nat>, pauses: seq<nat>, interval: int)
    requires |pauses| == |elapsed|
    requires forall i :: 0 <= i < |elapsed| ==> pauses[i] >= SleepFor(elapsed[i], interval)
    requires CycleStart(elapsed, pauses) == |elapsed| * interval
    ensures forall i :: 0 <= i < |elapsed| ==> elapsed[i] <= interval && pauses[i] == SleepFor(elapsed[i], interval)
    decreases |elapsed|
  {
    if elapsed != [] {
      var n := |elapsed| - 1;
      var e, p := elapsed[..n], pauses[..n];
      assert forall i :: 0 <= i < n ==> e[i] == elapsed[i] && p[i] == pauses[i];
      CadenceHolds(e, p, interval);
      assert CycleStart(elapsed, pauses) == CycleStart(e, p) + elapsed[n] + pauses[n];
      assert elapsed[n] + pauses[n] >= interval;
      MulStep(n, interval);
      assert CycleStart(e, p) == n * interval && elapsed[n] + pauses[n] == interval;
      CadenceExactOnlyIf(e, p, interval);
      assert elapsed[n] <= interval && pauses[n] == SleepFor(elapsed[n], interval);
    }
  }
}

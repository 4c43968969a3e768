/** One endpoint's health record and its down/up alert latch: the critical sections of
    monitor.go `handleSiteError` and `handleSiteRecovery`, seen for a single URL. */
module Latch {

  /** `offline` is the endpoint's entry in `offlineMap` (an alert is outstanding),
      `failures` its entry in `failureCount` (consecutive failed probes). */
  datatype Health = Health(offline: bool, failures: nat)

  /** Which alert, if any, a probe's outcome makes the service send. */
  datatype Transition = Quiet | BecameDown | BecameUp

  /** The record of an endpoint never probed: both Go maps read as their zero values. */
  const Fresh: Health := Health(false, 0)

  /** The threshold latch invariant: an endpoint is only offline with enough failures behind it. */
  predicate Latched(h: Health, threshold: int) {
    h.offline ==> h.failures >= threshold
  }

  /** A failed probe: the count goes up by one, and a down alert fires exactly when the endpoint
      was not yet offline and the new count reaches the threshold; the endpoint is then offline. */
  function Fail(h: Health, threshold: int): (r: (Health, Transition))
    ensures r.0.failures == h.failures + 1
    ensures r.1 == BecameDown <==> !h.offline && h.failures + 1 >= threshold
    ensures r.1 != BecameUp
    ensures r.0.offline <==> h.offline || r.1 == BecameDown
    ensures Latched(h, threshold) ==> Latched(r.0, threshold)
  {
    var count := h.failures + 1;
    var shouldAlert := !h.offline && count >= threshold;
    (Health(h.offline || shouldAlert, count), if shouldAlert then BecameDown else Quiet)
  }

  /** A 2xx probe: the count is reset and the endpoint is online; a recovery alert fires exactly
      when it had been offline. */
  function Recover(h: Health): (r: (Health, Transition))
    ensures r.0 == Fresh
    ensures r.1 == BecameUp <==> h.offline
    ensures r.1 != BecameDown
  {
    (Health(false, 0), if h.offline then BecameUp else Quiet)
  }

  function Step(h: Health, threshold: int, healthy: bool): (Health, Transition) {
    if healthy then Recover(h) else Fail(h, threshold)
  }

  /** One endpoint's history: the outcomes of successive probes (true for a 2xx), the health they
      leave behind and the transition each one produced. */
  function Replay(h: Health, threshold: int, healthy: seq<bool>): (r: (Health, seq<Transition>))
    ensures |r.1| == |healthy|
    decreases |healthy|
  {
    if healthy == [] then (h, [])
    else
      var first := Step(h, threshold, healthy[0]);
      var rest := Replay(first.0, threshold, healthy[1..]);
      (rest.0, [first.1] + rest.1)
  }

  function Failures(k: nat): (r: seq<bool>)
    ensures |r| == k && forall i :: 0 <= i < k ==> !r[i]
  {
    seq(k, i => false)
  }

  /** Replaying two stretches of history one after the other is replaying their concatenation. */
  lemma {:induction false} ReplayAppend(h: Health, threshold: int, a: seq<bool>, b: seq<bool>)
    ensures Replay(h, threshold, a + b).0 == Replay(Replay(h, threshold, a).0, threshold, b).0
    ensures Replay(h, threshold, a + b).1 == Replay(h, threshold, a).1 + Replay(Replay(h, threshold, a).0, threshold, b).1
    decreases |a|
  {
    if a == [] {
      assert a + b == b;
    } else {
      assert (a + b)[0] == a[0];
      assert (a + b)[1..] == a[1..] + b;
      ReplayAppend(Step(h, threshold, a[0]).0, threshold, a[1..], b);
    }
  }

  /** The latch invariant holds along any history that starts from a record satisfying it. */
  lemma {:induction false} ReplayKeepsLatched(h: Health, threshold: int, healthy: seq<bool>)
    requires Latched(h, threshold)
    ensures Latched(Replay(h, threshold, healthy).0, threshold)
    decreases |healthy|
  {
    if healthy != [] {
      ReplayKeepsLatched(Step(h, threshold, healthy[0]).0, threshold, healthy[1..]);
    }
  }

  /** Whether the `i`-th of a run of failures (counting from 0) that starts with `j` failures
      already counted is the one that crosses the threshold. */
  predicate Crossing(j: nat, threshold: int, i: int) {
    j + i + 1 >= threshold && (i == 0 || j + i < threshold)
  }

  /** A run of `k` failures from an online endpoint with `j` failures counted: the down alert
      fires on the failure that first brings the count to the threshold, and on no other. */
  lemma {:induction false} FailureRunOnline(j: nat, threshold: int, k: nat)
    ensures Replay(Health(false, j), threshold, Failures(k)).1
         == seq(k, i => if Crossing(j, threshold, i) then BecameDown else Quiet)
    ensures Replay(Health(false, j), threshold, Failures(k)).0
         == Health(k > 0 && j + k >= threshold, j + k)
    decreases k
  {
    var fs := Failures(k);
    var ts := Replay(Health(false, j), threshold, fs).1;
    var want := seq(k, i => if Crossing(j, threshold, i) then BecameDown else Quiet);
    if k > 0 {
      assert fs[1..] == Failures(k - 1);
      assert ts[1..] == Replay(Fail(Health(false, j), threshold).0, threshold, fs[1..]).1;
      if j + 1 >= threshold {
        FailureRunOffline(j + 1, threshold, k - 1);
        forall i | 0 <= i < k ensures ts[i] == want[i] {
          if i > 0 { assert ts[i] == ts[1..][i - 1]; }
        }
      } else {
        FailureRunOnline(j + 1, threshold, k - 1);
        forall i | 0 <= i < k ensures ts[i] == want[i] {
          if i > 0 { assert ts[i] == ts[1..][i - 1]; }
        }
      }
    }
    assert ts == want;
  }

  /** Once an endpoint is offline, further failures send no more down alerts. */
  lemma {:induction false} FailureRunOffline(j: nat, threshold: int, k: nat)
    ensures Replay(Health(true, j), threshold, Failures(k)) == (Health(true, j + k), seq(k, i => Quiet))
    decreases k
  {
    var fs := Failures(k);
    if k == 0 {
      assert fs == [];
    } else {
      assert fs[1..] == Failures(k - 1);
      FailureRunOffline(j + 1, threshold, k - 1);
      assert [Quiet] + seq(k - 1, i => Quiet) == seq(k, i => Quiet);
    }
  }

  /** The 1-based position of the failure that raises the alert: the threshold itself, or the
      first failure when the threshold is 1 or less (the count is raised before it is compared). */
  function AlertPosition(threshold: int): (p: nat)
    ensures p >= 1 && p >= threshold
  {
    if threshold <= 1 then 1 else threshold
  }

  /** With threshold T, consecutive failures of a never-alerted endpoint send no alert on failures
      1 to T-1 and exactly one, on the T-th; the endpoint is offline from then on. */
  lemma ThresholdIsExact(threshold: int, k: nat)
    ensures var r := Replay(Fresh, threshold, Failures(k));
      (forall i :: 0 <= i < k ==> (r.1[i] == BecameDown <==> i + 1 == AlertPosition(threshold)))
      && (forall i :: 0 <= i < k ==> r.1[i] != BecameUp)
      && r.0 == Health(k >= AlertPosition(threshold), k)
  {
    FailureRunOnline(0, threshold, k);
  }

  /** What happens after a 2xx does not depend on anything before it: a down/up/down cycle
      replays exactly like the first one. */
  lemma NoLeakAcrossRecovery(h: Health, threshold: int, before: seq<bool>, after: seq<bool>)
    ensures var whole := Replay(h, threshold, before + [true] + after);
      whole.0 == Replay(Fresh, threshold, after).0
      && whole.1[|before| + 1..] == Replay(Fresh, threshold, after).1
  {
    var mid := Replay(h, threshold, before).0;
    ReplayAppend(h, threshold, before + [true], after);
    ReplayAppend(h, threshold, before, [true]);
    assert Replay(mid, threshold, [true]).0 == Fresh;
  }

  /** Down and up alerts strictly alternate: no down alert while one is outstanding, no recovery
      alert without a down alert before it. `offline` says whether one is outstanding. */
  predicate Alternates(ts: seq<Transition>, offline: bool) {
    if ts == [] then true
    else match ts[0]
      case Quiet => Alternates(ts[1..], offline)
      case BecameDown => !offline && Alternates(ts[1..], true)
      case BecameUp => offline && Alternates(ts[1..], false)
  }

  lemma {:induction false} ReplayAlternates(h: Health, threshold: int, healthy: seq<bool>)
    ensures Alternates(Replay(h, threshold, healthy).1, h.offline)
    decreases |healthy|
  {
    if healthy != [] {
      var first := Step(h, threshold, healthy[0]);
      ReplayAlternates(first.0, threshold, healthy[1..]);
      var ts := Replay(h, threshold, healthy).1;
      assert ts[1..] == Replay(first.0, threshold, healthy[1..]).1;
    }
  }

  /** One more outcome at the end of a history takes one more step of the latch. */
  lemma ReplaySnoc(h: Health, threshold: int, healthy: seq<bool>, b: bool)
    ensures var r := Replay(h, threshold, healthy);
      Replay(h, threshold, healthy + [b]) == (Step(r.0, threshold, b).0, r.1 + [Step(r.0, threshold, b).1])
  {
    ReplayAppend(h, threshold, healthy, [b]);
    var r := Replay(h, threshold, healthy);
    var st := Step(r.0, threshold, b);
    assert [b][0] == b && [b][1..] == [];
    assert Replay(st.0, threshold, []) == (st.0, []);
    assert Replay(r.0, threshold, [b]) == (st.0, [st.1] + []);
    var whole := Replay(h, threshold, healthy + [b]);
    assert whole.0 == st.0 && whole.1 == r.1 + [st.1];
    assert whole == (whole.0, whole.1);
  }

  /** The transitions that send an alert, oldest first: the quiet steps dropped. */
  function Sent(ts: seq<Transition>): (r: seq<Transition>)
  {
    if ts == [] then []
    else (if ts[0] == Quiet then [] else [ts[0]]) + Sent(ts[1..])
  }

  lemma {:induction false} SentAppend(a: seq<Transition>, b: seq<Transition>)
    ensures Sent(a + b) == Sent(a) + Sent(b)
    decreases |a|
  {
    if a == [] {
      assert a + b == b;
    } else {
      assert (a + b)[0] == a[0] && (a + b)[1..] == a[1..] + b;
      SentAppend(a[1..], b);
    }
  }

  /** The alerting transitions of a history split like the history does. */
  lemma ReplaySentAppend(h: Health, threshold: int, a: seq<bool>, b: seq<bool>)
    ensures var first := Replay(h, threshold, a);
      Sent(Replay(h, threshold, a + b).1) == Sent(first.1) + Sent(Replay(first.0, threshold, b).1)
  {
    ReplayAppend(h, threshold, a, b);
    SentAppend(Replay(h, threshold, a).1, Replay(Replay(h, threshold, a).0, threshold, b).1);
  }

  /** Dropping the quiet steps keeps the alternation of down and up alerts. */
  lemma {:induction false} SentAlternates(ts: seq<Transition>, offline: bool)
    requires Alternates(ts, offline)
    ensures Alternates(Sent(ts), offline)
    decreases |ts|
  {
    if ts != [] {
      var rest := Sent(ts[1..]);
      if ts[0] == Quiet {
        SentAlternates(ts[1..], offline);
        assert Sent(ts) == [] + rest == rest;
      } else {
        SentAlternates(ts[1..], ts[0] == BecameDown);
        var r := Sent(ts);
        assert r == [ts[0]] + rest;
        assert r != [] && r[0] == ts[0] && r[1..] == rest;
      }
    }
  }

  /** The scenario of monitor_test.go:90-107 and 109-129 with threshold 3: two failures stay
      quiet, the third sends the down alert, a 2xx sends the recovery and clears the count. */
  lemma ScenarioThresholdThree()
    ensures Replay(Fresh, 3, [false, false, false, true])
         == (Fresh, [Quiet, Quiet, BecameDown, BecameUp])
  {
    var hs := [false, false, false, true];
    assert hs[1..] == [false, false, true] && hs[1..][1..] == [false, true] && hs[1..][1..][1..] == [true];
    assert [true][1..] == [];
    var r3 := Replay(Health(true, 3), 3, [true]);
    assert r3 == (Fresh, [BecameUp] + []);
    assert [false, true][1..] == [true] && [false, false, true][1..] == [false, true];
    var r2 := Replay(Health(false, 2), 3, [false, true]);
    assert r2 == (Fresh, [BecameDown] + r3.1);
    assert r2.1 == [BecameDown, BecameUp];
    var r1 := Replay(Health(false, 1), 3, [false, false, true]);
    assert r1 == (Fresh, [Quiet] + r2.1);
    assert r1.1 == [Quiet, BecameDown, BecameUp];
    assert Replay(Fresh, 3, hs) == (Fresh, [Quiet] + r1.1);
    assert [Quiet] + r1.1 == [Quiet, Quiet, BecameDown, BecameUp];
  }
}

/** monitor.go: the `Service` with its alert maps and metric instruments, and the monitoring loop.
    The goroutine fan-out of a cycle is run as a loop over the URLs in configuration order, each
    probe to completion. For distinct URLs the probes touch disjoint entries and
    Transitions.ChecksCommute shows that their order does not matter; a URL listed twice is
    outside this serial model, since `s.mu` does not cover the alert sends. */
module Monitor {
  import opened Probe
  import opened Cadence
  import opened Transitions

  /** What the world supplies for one turn of the loop: whether the context is cancelled when the
      turn begins, each configured URL's probe outcome, and how long the cycle's probes took. */
  datatype Round = Round(cancelled: bool, outcomes: seq<Outcome>, elapsed: nat)

  function OutcomesOf(rounds: seq<Round>): (r: seq<seq<Outcome>>)
    ensures |r| == |rounds| && forall i :: 0 <= i < |rounds| ==> r[i] == rounds[i].outcomes
  {
    seq(|rounds|, i requires 0 <= i < |rounds| => rounds[i].outcomes)
  }

  /** The turn at which the loop sees the cancellation and returns: cancellation is looked at only
      at the top of a cycle, so every turn before it runs a full cycle. `|rounds|` when it never
      comes (the loop is still running when the input ends). */
  function FirstCancelled(rounds: seq<Round>): (k: nat)
    ensures k <= |rounds|
    ensures forall i :: 0 <= i < k ==> !rounds[i].cancelled
    ensures k < |rounds| ==> rounds[k].cancelled
  {
    if rounds == [] then 0
    else if rounds[0].cancelled then 0
    else 1 + FirstCancelled(rounds[1..])
  }

  /** Running the turns `rounds[..k + 1]` is running `rounds[..k]` and then turn `k`. */
  lemma CyclesOfPrefix(s: State, urls: seq<string>, rounds: seq<Round>, k: nat, threshold: int)
    requires k < |rounds|
    requires forall i :: 0 <= i < |rounds| ==> |rounds[i].outcomes| == |urls|
    ensures Cycles(s, urls, OutcomesOf(rounds[..k + 1]), threshold)
         == Cycle(Cycles(s, urls, OutcomesOf(rounds[..k]), threshold), urls, rounds[k].outcomes, threshold)
  {
    var done := OutcomesOf(rounds[..k + 1]);
    assert done[..k] == OutcomesOf(rounds[..k]);
  }

  class Service {
    const urls: seq<string>
    const interval: int
    const threshold: int

    var offline: map<string, bool>      // offlineMap
    var failures: map<string, nat>      // failureCount
    var siteStatus: map<string, int>    // the site_status gauge, one series per URL
    var errorCount: map<string, int>    // the error_sites gauge, one series per URL
    var offlineSites: int               // the offline_sites gauge
    var alerts: seq<Alert>              // every alert handed to the notifier, oldest first

    ghost function Model(): State
      reads this
    {
      State(offline, failures, siteStatus, errorCount, offlineSites, alerts)
    }

    /** A service with a fixed configuration and empty maps, as monitor_test.go:47-57 builds it. */
    constructor (urls: seq<string>, interval: int, threshold: int)
      ensures this.urls == urls && this.interval == interval && this.threshold == threshold
      ensures Model() == Initial
    {
      this.urls := urls;
      this.interval := interval;
      this.threshold := threshold;
      offline := map[];
      failures := map[];
      siteStatus := map[];
      errorCount := map[];
      offlineSites := 0;
      alerts := [];
    }

    /** email.go:16-23. Whether delivery succeeds is only logged, so the alert counts as sent. */
    method SendSiteDownAlert(url: string, reason: string)
      modifies this`alerts
      ensures alerts == old(alerts) + [Down(url, reason)]
    {
      alerts := alerts + [Down(url, reason)];
    }

    /** email.go:25-32, likewise. */
    method SendSiteRecoveryAlert(url: string)
      modifies this`alerts
      ensures alerts == old(alerts) + [Up(url)]
    {
      alerts := alerts + [Up(url)];
    }

    /** monitor.go:83-100. */
    method HandleSiteError(url: string, reason: string)
      modifies this
      ensures Model() == ErrorStep(old(Model()), url, reason, threshold)
      ensures HealthOf(Model(), url) == Latch.Fail(HealthOf(old(Model()), url), threshold).0
      ensures alerts == old(alerts) + AlertFor(url, reason, Latch.Fail(HealthOf(old(Model()), url), threshold).1)
    {
      siteStatus := siteStatus[url := 0];
      offlineSites := offlineSites + 1;
      errorCount := errorCount[url := Lookup(errorCount, url, 0) + 1];

      // critical section of s.mu
      var alreadyOffline := Lookup(offline, url, false);
      failures := failures[url := Lookup(failures, url, 0) + 1];
      var shouldAlert := !alreadyOffline && failures[url] >= threshold;
      if shouldAlert {
        offline := offline[url := true];
      }

      if shouldAlert {
        SendSiteDownAlert(url, reason);
      }
    }

    /** monitor.go:102-114. */
    method HandleSiteRecovery(url: string)
      modifies this
      ensures Model() == RecoveryStep(old(Model()), url)
      ensures HealthOf(Model(), url) == Latch.Fresh
      ensures alerts == old(alerts) + (if HealthOf(old(Model()), url).offline then [Up(url)] else [])
    {
      // critical section of s.mu
      var wasOffline := Lookup(offline, url, false);
      if wasOffline {
        offline := offline[url := false];
      }
      failures := failures[url := 0];

      if wasOffline {
        SendSiteRecoveryAlert(url);
      }
    }

    /** monitor.go:47-81, with the probe's result given instead of performed. */
    method CheckSiteStatus(url: string, outcome: Outcome)
      modifies this
      ensures Model() == CheckStep(old(Model()), url, outcome, threshold)
    {
      match outcome
      case RequestFailed(err) =>
        HandleSiteError(url, UnreachablePrefix + err);
      case TransportFailed(err) =>
        HandleSiteError(url, UnreachablePrefix + err);
      case Response(code) =>
        siteStatus := siteStatus - {url};
        siteStatus := siteStatus[url := code];
        if code < 200 || code >= 300 {
          HandleSiteError(url, StatusPrefix + IntToDecimal(code));
        } else {
          errorCount := errorCount[url := 0];
          HandleSiteRecovery(url);
        }
    }

    /** One cycle of monitor.go:27-37: zero the offline gauge, probe every URL, join. After the
        join the gauge holds the number of probes that failed in this cycle. */
    method RunCycle(outcomes: seq<Outcome>)
      requires |outcomes| == |urls|
      modifies this
      ensures Model() == Cycle(old(Model()), urls, outcomes, threshold)
      ensures offlineSites == FailedCount(outcomes)
    {
      ghost var start := Model().(offlineSites := 0);
      offlineSites := 0;
      var i := 0;
      while i < |urls|
        invariant 0 <= i <= |urls|
        invariant Model() == Probes(start, urls[..i], outcomes[..i], threshold)
      {
        CheckSiteStatus(urls[i], outcomes[i]);
        assert urls[..i + 1][..i] == urls[..i] && outcomes[..i + 1][..i] == outcomes[..i];
        i := i + 1;
      }
      assert urls[..i] == urls && outcomes[..i] == outcomes;
    }

    /** One turn of the loop body, monitor.go:27-42: a whole cycle, then the sleep it leaves. */
    method Turn(outcomes: seq<Outcome>, elapsed: nat) returns (d: nat)
      requires |outcomes| == |urls|
      modifies this
      ensures Model() == Cycle(old(Model()), urls, outcomes, threshold)
      ensures d == SleepFor(elapsed, interval)
    {
      RunCycle(outcomes);
      if elapsed < interval {
        d := interval - elapsed;
      } else {
        d := 0;
      }
    }

    /** The loop of monitor.go:18-43 over the turns the world supplies: it stops at the first turn
        that finds the context cancelled; every other turn runs a whole cycle and then sleeps for
        the rest of the interval, if any is left. `slept` holds each cycle's sleep. */
    method RecordMetrics(rounds: seq<Round>) returns (ran: nat, slept: seq<nat>)
      requires forall i :: 0 <= i < |rounds| ==> |rounds[i].outcomes| == |urls|
      modifies this
      ensures ran == FirstCancelled(rounds)
      ensures Model() == Cycles(old(Model()), urls, OutcomesOf(rounds[..ran]), threshold)
      ensures |slept| == ran
      ensures forall i :: 0 <= i < ran ==> slept[i] == SleepFor(rounds[i].elapsed, interval)
    {
      ghost var start := Model();
      ran, slept := 0, [];
      while ran < |rounds|
        invariant ran <= |rounds|
        invariant forall i :: 0 <= i < ran ==> !rounds[i].cancelled
        invariant Model() == Cycles(start, urls, OutcomesOf(rounds[..ran]), threshold)
        invariant |slept| == ran
        invariant forall i :: 0 <= i < ran ==> slept[i] == SleepFor(rounds[i].elapsed, interval)
      {
        if rounds[ran].cancelled {
          break;
        }
        var d := Turn(rounds[ran].outcomes, rounds[ran].elapsed);
        slept := slept + [d];
        CyclesOfPrefix(start, urls, rounds, ran, threshold);
        ran := ran + 1;
      }
      assert ran < |rounds| ==> rounds[ran].cancelled;
    }
  }
}

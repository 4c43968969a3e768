/** main.go:112-188, the older sequential monitoring loop: no threshold and no failure count, the
    `offlineMap` a local of the goroutine, URLs probed one after another, and a fixed sleep of one
    whole interval after every cycle. */
module Legacy {
  import opened Probe
  import opened Cadence
  import opened Transitions
  import opened Monitor

  /** The goroutine's local `offlineMap` and the metric instruments and alerts it drives. */
  datatype LegacyState = LegacyState(
    offline: map<string, bool>,
    siteStatus: map<string, int>,
    errorCount: map<string, int>,
    offlineSites: int,
    alerts: seq<Alert>)

  /** main.go words its down alerts "<url> is unreachable: <err>" and "<url> returned status <n>":
      the reason held in an alert is the text after the URL and a space. */
  const LegacyUnreachablePrefix: string := "is unreachable: "

  /** The tail common to the failure paths (main.go:128-135, 141-148, 167-174): count the failure
      in both gauges and, unless the URL is already marked offline, alert and mark it. */
  function FailurePath(s: LegacyState, url: string, reason: string): LegacyState {
    var counted := s.(offlineSites := s.offlineSites + 1,
                      errorCount := s.errorCount[url := Lookup(s.errorCount, url, 0) + 1]);
    if !Lookup(s.offline, url, false) then
      counted.(alerts := counted.alerts + [Down(url, reason)], offline := counted.offline[url := true])
    else counted
  }

  /** One URL's turn in the loop of main.go:124-183. Without a threshold, the URL ends marked
      offline exactly when this probe failed, and one alert about it, a down alert for a failure
      and a recovery for a 2xx, is sent exactly when that flips the mark. A failure counts in
      both gauges; a 2xx clears the error gauge. The status gauge keeps the code of any response
      and 0 for a failed request. No other URL's entries change. */
  function LegacyCheck(s: LegacyState, url: string, o: Outcome): (r: LegacyState)
    ensures Lookup(r.offline, url, false) == !Succeeded(o)
    ensures s.alerts <= r.alerts
    ensures Signals(r.alerts) == Signals(s.alerts)
              + (if Lookup(s.offline, url, false) == Succeeded(o) then [(url, !Succeeded(o))] else [])
    ensures url in r.siteStatus && r.siteStatus[url] == (if o.Response? then o.code else 0)
    ensures Lookup(r.errorCount, url, 0) == (if Succeeded(o) then 0 else Lookup(s.errorCount, url, 0) + 1)
    ensures r.offlineSites == s.offlineSites + (if Succeeded(o) then 0 else 1)
    ensures r.offline - {url} == s.offline - {url} && r.siteStatus - {url} == s.siteStatus - {url}
    ensures r.errorCount - {url} == s.errorCount - {url}
  {
    match o
    case RequestFailed(err) =>
      FailurePath(s.(siteStatus := s.siteStatus[url := 0]), url, LegacyUnreachablePrefix + err)
    case TransportFailed(err) =>
      FailurePath(s.(siteStatus := s.siteStatus[url := 0]), url, LegacyUnreachablePrefix + err)
    case Response(code) =>
      var shown := s.(siteStatus := (s.siteStatus - {url})[url := code]);
      if !IsSuccess(code) then FailurePath(shown, url, StatusPrefix + IntToDecimal(code))
      else
        var cleared := shown.(errorCount := shown.errorCount[url := 0]);
        if Lookup(cleared.offline, url, false) then
          cleared.(alerts := cleared.alerts + [Up(url)], offline := cleared.offline[url := false])
        else cleared
  }

  /** The URLs of one legacy cycle probed in configuration order (main.go:124-183). */
  function LegacyProbes(s: LegacyState, urls: seq<string>, outcomes: seq<Outcome>): (r: LegacyState)
    requires |outcomes| == |urls|
    ensures s.alerts <= r.alerts
    ensures r.offlineSites == s.offlineSites + FailedCount(outcomes)
  {
    if urls == [] then s
    else
      var n := |urls| - 1;
      LegacyCheck(LegacyProbes(s, urls[..n], outcomes[..n]), urls[n], outcomes[n])
  }

  /** Successive legacy cycles, each zeroing the offline gauge first (main.go:116-186). Alerts are
      only appended, and after a run the gauge shows the failures of its last cycle. */
  function LegacyCycles(s: LegacyState, urls: seq<string>, rounds: seq<seq<Outcome>>): (r: LegacyState)
    requires forall i :: 0 <= i < |rounds| ==> |rounds[i]| == |urls|
    ensures s.alerts <= r.alerts
    ensures rounds != [] ==> r.offlineSites == FailedCount(rounds[|rounds| - 1])
  {
    if rounds == [] then s
    else
      var n := |rounds| - 1;
      LegacyProbes(LegacyCycles(s, urls, rounds[..n]).(offlineSites := 0), urls, rounds[n])
  }

  // ---------------------------------------------------------------------------
  // The legacy loop is the threshold latch with threshold 1

  /** Which endpoint an alert is about and whether it is a down alert; the wording is left aside. */
  function Signals(alerts: seq<Alert>): (r: seq<(string, bool)>)
    ensures |r| == |alerts|
  {
    seq(|alerts|, i requires 0 <= i < |alerts| => (alerts[i].url, alerts[i].Down?))
  }

  /** A legacy state and a monitor.go state that have the same offline marks, error gauges,
      offline count and the same alerts up to their wording. */
  ghost predicate Matches(l: LegacyState, s: State) {
    l.offline == s.offline && l.errorCount == s.errorCount && l.offlineSites == s.offlineSites
    && Signals(l.alerts) == Signals(s.alerts)
  }

  lemma SignalsAppend(a: seq<Alert>, b: seq<Alert>)
    ensures Signals(a + b) == Signals(a) + Signals(b)
  {
  }

  /** One legacy probe does what monitor.go's `checkSiteStatus` does with threshold 1 (a failure
      alerts exactly when the URL is not already marked offline, a 2xx sends the recovery exactly
      when it is), except for the status gauge of a non-2xx response: main.go leaves the code in
      it, monitor.go overwrites it with 0. */
  lemma LegacyCheckIsThresholdOne(l: LegacyState, s: State, url: string, o: Outcome)
    requires Matches(l, s)
    ensures Matches(LegacyCheck(l, url, o), CheckStep(s, url, o, 1))
    ensures url in LegacyCheck(l, url, o).siteStatus
    ensures LegacyCheck(l, url, o).siteStatus[url] == if o.Response? then o.code else 0
    ensures CheckStep(s, url, o, 1).siteStatus[url] == if Succeeded(o) then o.code else 0
  {
    var l' := LegacyCheck(l, url, o);
    var s' := CheckStep(s, url, o, 1);
    assert Lookup(l.offline, url, false) == HealthOf(s, url).offline;
    var added := if Succeeded(o) then
        (if HealthOf(s, url).offline then [Up(url)] else [])
      else if HealthOf(s, url).offline then [] else [Down(url, Classify(o).reason)];
    assert s'.alerts == s.alerts + added;
    var ladded := l'.alerts[|l.alerts|..];
    assert l'.alerts == l.alerts + ladded;
    assert Signals(ladded) == Signals(added);
    SignalsAppend(l.alerts, ladded);
    SignalsAppend(s.alerts, added);
  }

  lemma {:induction false} LegacyProbesAreThresholdOne(l: LegacyState, s: State, urls: seq<string>, outcomes: seq<Outcome>)
    requires |outcomes| == |urls|
    requires Matches(l, s)
    ensures Matches(LegacyProbes(l, urls, outcomes), Probes(s, urls, outcomes, 1))
    decreases |urls|
  {
    if urls != [] {
      var n := |urls| - 1;
      LegacyProbesAreThresholdOne(l, s, urls[..n], outcomes[..n]);
      LegacyCheckIsThresholdOne(LegacyProbes(l, urls[..n], outcomes[..n]), Probes(s, urls[..n], outcomes[..n], 1), urls[n], outcomes[n]);
    }
  }

  /** Over any run, the legacy loop sends the same alerts, in the same order, about the same
      endpoints, and leaves the same offline marks, error gauges and offline count, as monitor.go
      configured with threshold 1. */
  lemma {:induction false} LegacyIsThresholdOne(l: LegacyState, s: State, urls: seq<string>, rounds: seq<seq<Outcome>>)
    requires forall i :: 0 <= i < |rounds| ==> |rounds[i]| == |urls|
    requires Matches(l, s)
    ensures Matches(LegacyCycles(l, urls, rounds), Cycles(s, urls, rounds, 1))
    decreases |rounds|
  {
    if rounds != [] {
      var n := |rounds| - 1;
      LegacyIsThresholdOne(l, s, urls, rounds[..n]);
      LegacyProbesAreThresholdOne(LegacyCycles(l, urls, rounds[..n]).(offlineSites := 0),
        Cycles(s, urls, rounds[..n], 1).(offlineSites := 0), urls, rounds[n]);
    }
  }

  // ---------------------------------------------------------------------------
  // Cadence of the legacy loop

  /** The legacy loop drifts. Each cycle is followed by a sleep of a whole interval (main.go:185),
      whatever the cycle took, so cycle k starts no earlier than the probing time of all earlier
      cycles plus k intervals, and exactly then when the sleeps are exact. That is never earlier
      than monitor.go's loop: k intervals at least. */
  lemma {:induction false} LegacyDrifts(elapsed: seq<nat>, pauses: seq<nat>, interval: int)
    requires |pauses| == |elapsed|
    requires forall i :: 0 <= i < |elapsed| ==> pauses[i] >= Idle(interval)
    ensures CycleStart(elapsed, pauses) >= Sum(elapsed) + |elapsed| * Idle(interval)
    ensures (forall i :: 0 <= i < |elapsed| ==> pauses[i] == Idle(interval))
              ==> CycleStart(elapsed, pauses) == Sum(elapsed) + |elapsed| * Idle(interval)
    ensures CycleStart(elapsed, pauses) >= |elapsed| * interval
    decreases |elapsed|
  {
    if elapsed != [] {
      var n := |elapsed| - 1;
      var e, p := elapsed[..n], pauses[..n];
      assert forall i :: 0 <= i < n ==> e[i] == elapsed[i] && p[i] == pauses[i];
      LegacyDrifts(e, p, interval);
      assert CycleStart(elapsed, pauses) == CycleStart(e, p) + elapsed[n] + pauses[n];
      assert pauses[n] >= interval;
      MulStep(n, Idle(interval));
      MulStep(n, interval);
    }
  }

  // ---------------------------------------------------------------------------
  // The loop itself

  class LegacyService {
    const urls: seq<string>
    const interval: int

    var siteStatus: map<string, int>
    var errorCount: map<string, int>
    var offlineSites: int
    var alerts: seq<Alert>

    ghost function View(offline: map<string, bool>): LegacyState
      reads this
    {
      LegacyState(offline, siteStatus, errorCount, offlineSites, alerts)
    }

    constructor (urls: seq<string>, interval: int)
      ensures this.urls == urls && this.interval == interval
      ensures View(map[]) == LegacyState(map[], map[], map[], 0, [])
    {
      this.urls := urls;
      this.interval := interval;
      siteStatus := map[];
      errorCount := map[];
      offlineSites := 0;
      alerts := [];
    }

    /** One pass of the inner loop (main.go:125-183) for `url`, given the goroutine's
        `offlineMap` and returning it updated. */
    method ProbeSite(url: string, outcome: Outcome, offlineMap0: map<string, bool>) returns (offlineMap: map<string, bool>)
      modifies this
      ensures View(offlineMap) == LegacyCheck(old(View(offlineMap0)), url, outcome)
    {
      offlineMap := offlineMap0;
      match outcome {
      case RequestFailed(err) =>
        siteStatus := siteStatus[url := 0];
        offlineSites := offlineSites + 1;
        errorCount := errorCount[url := Lookup(errorCount, url, 0) + 1];
        if !Lookup(offlineMap, url, false) {
          alerts := alerts + [Down(url, LegacyUnreachablePrefix + err)];
          offlineMap := offlineMap[url := true];
        }
      case TransportFailed(err) =>
        siteStatus := siteStatus[url := 0];
        offlineSites := offlineSites + 1;
        errorCount := errorCount[url := Lookup(errorCount, url, 0) + 1];
        if !Lookup(offlineMap, url, false) {
          alerts := alerts + [Down(url, LegacyUnreachablePrefix + err)];
          offlineMap := offlineMap[url := true];
        }
      case Response(code) =>
        siteStatus := siteStatus - {url};
        siteStatus := siteStatus[url := code];
        if code < 200 || code >= 300 {
          offlineSites := offlineSites + 1;
          errorCount := errorCount[url := Lookup(errorCount, url, 0) + 1];
          if !Lookup(offlineMap, url, false) {
            alerts := alerts + [Down(url, StatusPrefix + IntToDecimal(code))];
            offlineMap := offlineMap[url := true];
          }
        } else {
          errorCount := errorCount[url := 0];
          if Lookup(offlineMap, url, false) {
            alerts := alerts + [Up(url)];
            offlineMap := offlineMap[url := false];
          }
        }
      }
    }

    /** One cycle of main.go:123-184: zero the offline gauge, then probe every URL in
        configuration order. */
    method RunCycle(outcomes: seq<Outcome>, offlineMap0: map<string, bool>) returns (offlineMap: map<string, bool>)
      requires |outcomes| == |urls|
      modifies this
      ensures View(offlineMap) == LegacyProbes(old(View(offlineMap0)).(offlineSites := 0), urls, outcomes)
    {
      offlineMap := offlineMap0;
      offlineSites := 0;
      ghost var cycleStart := View(offlineMap);
      var j := 0;
      while j < |urls|
        invariant 0 <= j <= |urls|
        invariant View(offlineMap) == LegacyProbes(cycleStart, urls[..j], outcomes[..j])
      {
        offlineMap := ProbeSite(urls[j], outcomes[j], offlineMap);
        assert urls[..j + 1][..j] == urls[..j] && outcomes[..j + 1][..j] == outcomes[..j];
        j := j + 1;
      }
      assert urls[..j] == urls && outcomes[..j] == outcomes;
    }

    /** main.go:112-188 over the turns the world supplies (each turn's `elapsed` is not used: this
        loop does not look at the clock). `offlineMap` starts empty; every turn before the one that
        finds the context cancelled runs a cycle and then sleeps one whole interval. */
    method RecordMetrics(rounds: seq<Round>) returns (ran: nat, slept: seq<int>)
      requires forall i :: 0 <= i < |rounds| ==> |rounds[i].outcomes| == |urls|
      modifies this
      ensures ran == FirstCancelled(rounds)
      ensures var f := LegacyCycles(old(View(map[])), urls, OutcomesOf(rounds[..ran]));
        siteStatus == f.siteStatus && errorCount == f.errorCount
        && offlineSites == f.offlineSites && alerts == f.alerts
      ensures |slept| == ran && forall i :: 0 <= i < ran ==> slept[i] == interval
    {
      var offlineMap: map<string, bool> := map[];
      ghost var start := View(map[]);
      ran, slept := 0, [];
      while ran < |rounds|
        invariant ran <= |rounds|
        invariant forall i :: 0 <= i < ran ==> !rounds[i].cancelled
        invariant View(offlineMap) == LegacyCycles(start, urls, OutcomesOf(rounds[..ran]))
        invariant |slept| == ran && forall i :: 0 <= i < ran ==> slept[i] == interval
      {
        if rounds[ran].cancelled {
          break;
        }
        var outcomes := rounds[ran].outcomes;
        offlineMap := RunCycle(outcomes, offlineMap);
        slept := slept + [interval];
        ghost var done := OutcomesOf(rounds[..ran + 1]);
        assert done[..ran] == OutcomesOf(rounds[..ran]) && done[ran] == outcomes;
        assert LegacyCycles(start, urls, done)
            == LegacyProbes(LegacyCycles(start, urls, done[..ran]).(offlineSites := 0), urls, outcomes);
        ran := ran + 1;
      }
      assert ran < |rounds| ==> rounds[ran].cancelled;
    }
  }
}

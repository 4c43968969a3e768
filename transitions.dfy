/** The state monitor.go's `Service` keeps, and what one probe and one cycle do to it, as pure
    functions. The `Monitor.Service` class is proved to follow these step for step; the lemmas
    here say what that means for each endpoint. */
module Transitions {
  import opened Probe
  import opened Latch

  /** One notification: the endpoint and the reason of a down alert (email.go:16-23 sends the
      body "url: reason"), or a recovery alert (email.go:25-32, body "url is back online"). */
  datatype Alert = Down(url: string, reason: string) | Up(url: string)

  /** The Go maps `offlineMap` and `failureCount`, the metric instruments `siteStatus`,
      `errorCounter` and `offlineSites`, and the log of alerts handed to the notifier. */
  datatype State = State(
    offline: map<string, bool>,
    failures: map<string, nat>,
    siteStatus: map<string, int>,
    errorCount: map<string, int>,
    offlineSites: int,
    alerts: seq<Alert>)

  const Initial: State := State(map[], map[], map[], map[], 0, [])

  /** Reading a Go map: a missing key yields the zero value. */
  function Lookup<V>(m: map<string, V>, key: string, zero: V): V {
    if key in m then m[key] else zero
  }

  /** The endpoint's health record as the two Go maps hold it. */
  function HealthOf(s: State, url: string): Health {
    Health(Lookup(s.offline, url, false), Lookup(s.failures, url, 0))
  }

  /** The alert a transition makes the service send. */
  function AlertFor(url: string, reason: string, t: Transition): seq<Alert> {
    match t
    case Quiet => []
    case BecameDown => [Down(url, reason)]
    case BecameUp => [Up(url)]
  }

  /** `handleSiteError` (monitor.go:83-100): the three metric updates, then the critical section
      that counts the failure and latches the endpoint offline, then the down alert. */
  function ErrorStep(s: State, url: string, reason: string, threshold: int): (r: State)
    ensures HealthOf(r, url) == Fail(HealthOf(s, url), threshold).0
    ensures r.alerts == s.alerts + AlertFor(url, reason, Fail(HealthOf(s, url), threshold).1)
    ensures r.offline - {url} == s.offline - {url} && r.failures - {url} == s.failures - {url}
    ensures url in r.siteStatus && r.siteStatus[url] == 0 && r.siteStatus - {url} == s.siteStatus - {url}
    ensures Lookup(r.errorCount, url, 0) == Lookup(s.errorCount, url, 0) + 1
    ensures r.errorCount - {url} == s.errorCount - {url}
    ensures r.offlineSites == s.offlineSites + 1
  {
    var alreadyOffline := Lookup(s.offline, url, false);
    var count := Lookup(s.failures, url, 0) + 1;
    var shouldAlert := !alreadyOffline && count >= threshold;
    State(
      if shouldAlert then s.offline[url := true] else s.offline,
      s.failures[url := count],
      s.siteStatus[url := 0],
      s.errorCount[url := Lookup(s.errorCount, url, 0) + 1],
      s.offlineSites + 1,
      if shouldAlert then s.alerts + [Down(url, reason)] else s.alerts)
  }

  /** `handleSiteRecovery` (monitor.go:102-114): the critical section that clears the latch and the
      failure count, then the recovery alert. It touches no metric. */
  function RecoveryStep(s: State, url: string): (r: State)
    ensures HealthOf(r, url) == Recover(HealthOf(s, url)).0
    ensures r.alerts == s.alerts + AlertFor(url, "", Recover(HealthOf(s, url)).1)
    ensures r.offline - {url} == s.offline - {url} && r.failures - {url} == s.failures - {url}
    ensures r.siteStatus == s.siteStatus && r.errorCount == s.errorCount
    ensures r.offlineSites == s.offlineSites
  {
    var wasOffline := Lookup(s.offline, url, false);
    s.(offline := if wasOffline then s.offline[url := false] else s.offline,
       failures := s.failures[url := 0],
       alerts := if wasOffline then s.alerts + [Up(url)] else s.alerts)
  }

  /** The alerts one probe of `url` makes the service send. */
  function NewAlerts(s: State, url: string, o: Outcome, threshold: int): seq<Alert> {
    AlertFor(url, if Succeeded(o) then "" else Classify(o).reason, Step(HealthOf(s, url), threshold, Succeeded(o)).1)
  }

  /** `checkSiteStatus` (monitor.go:47-81) for one probe outcome. The URL's health record takes one
      step of the latch and the alert of that step, with the classified reason, is sent. The status
      gauge shows the code of a 2xx and 0 otherwise (line 84 overwrites the code set at line 71).
      The error gauge is cleared by a 2xx and raised by one otherwise; a failure adds one to the
      offline count. Nothing any other URL holds changes. */
  function CheckStep(s: State, url: string, o: Outcome, threshold: int): (r: State)
    ensures HealthOf(r, url) == Step(HealthOf(s, url), threshold, Succeeded(o)).0
    ensures r.alerts == s.alerts + NewAlerts(s, url, o, threshold)
    ensures url in r.siteStatus && r.siteStatus[url] == (if Succeeded(o) then o.code else 0)
    ensures Lookup(r.errorCount, url, 0) == (if Succeeded(o) then 0 else Lookup(s.errorCount, url, 0) + 1)
    ensures r.offlineSites == s.offlineSites + (if Succeeded(o) then 0 else 1)
    ensures AgreeAway(r, s, url)
  {
    match o
    case RequestFailed(err) => ErrorStep(s, url, UnreachablePrefix + err, threshold)
    case TransportFailed(err) => ErrorStep(s, url, UnreachablePrefix + err, threshold)
    case Response(code) =>
      var shown := s.(siteStatus := (s.siteStatus - {url})[url := code]);
      assert shown.siteStatus - {url} == s.siteStatus - {url};
      if !IsSuccess(code) then ErrorStep(shown, url, StatusPrefix + IntToDecimal(code), threshold)
      else
        var cleared := shown.(errorCount := shown.errorCount[url := 0]);
        assert cleared.errorCount - {url} == s.errorCount - {url};
        RecoveryStep(cleared, url)
  }

  /** Two maps hold the same entry (or none) for `key`. */
  ghost predicate SameAt<V>(a: map<string, V>, b: map<string, V>, key: string) {
    (key in a <==> key in b) && (key in a ==> a[key] == b[key])
  }

  /** Two states hold the same entries for `url` in all four maps. */
  ghost predicate AgreeAt(s: State, t: State, url: string) {
    SameAt(s.offline, t.offline, url) && SameAt(s.failures, t.failures, url)
    && SameAt(s.siteStatus, t.siteStatus, url) && SameAt(s.errorCount, t.errorCount, url)
  }

  /** Two states hold the same entries for every URL but `url`. */
  ghost predicate AgreeAway(s: State, t: State, url: string) {
    s.offline - {url} == t.offline - {url} && s.failures - {url} == t.failures - {url}
    && s.siteStatus - {url} == t.siteStatus - {url} && s.errorCount - {url} == t.errorCount - {url}
  }

  lemma SameAwayAt<V>(a: map<string, V>, b: map<string, V>, url: string, key: string)
    requires a - {url} == b - {url} && key != url
    ensures SameAt(a, b, key)
  {
    assert key in a <==> key in a - {url};
    assert key in b <==> key in b - {url};
  }

  lemma AgreeAwayAt(s: State, t: State, url: string, key: string)
    requires AgreeAway(s, t, url) && key != url
    ensures AgreeAt(s, t, key) && HealthOf(s, key) == HealthOf(t, key)
  {
    SameAwayAt(s.offline, t.offline, url, key);
    SameAwayAt(s.failures, t.failures, url, key);
    SameAwayAt(s.siteStatus, t.siteStatus, url, key);
    SameAwayAt(s.errorCount, t.errorCount, url, key);
  }

  /** A probe of `url` depends on nothing but what the state holds for `url`. */
  lemma CheckStepLocal(s: State, t: State, url: string, o: Outcome, threshold: int)
    requires AgreeAt(s, t, url)
    ensures AgreeAt(CheckStep(s, url, o, threshold), CheckStep(t, url, o, threshold), url)
    ensures NewAlerts(s, url, o, threshold) == NewAlerts(t, url, o, threshold)
  {
    assert HealthOf(s, url) == HealthOf(t, url);
    match o
    case RequestFailed(err) =>
      ErrorStepLocal(s, t, url, UnreachablePrefix + err, threshold);
    case TransportFailed(err) =>
      ErrorStepLocal(s, t, url, UnreachablePrefix + err, threshold);
    case Response(code) =>
      var s1 := s.(siteStatus := (s.siteStatus - {url})[url := code]);
      var t1 := t.(siteStatus := (t.siteStatus - {url})[url := code]);
      assert AgreeAt(s1, t1, url);
      if !IsSuccess(code) {
        ErrorStepLocal(s1, t1, url, StatusPrefix + IntToDecimal(code), threshold);
      } else {
        var s2 := s1.(errorCount := s1.errorCount[url := 0]);
        var t2 := t1.(errorCount := t1.errorCount[url := 0]);
        assert AgreeAt(s2, t2, url);
        RecoveryStepLocal(s2, t2, url);
      }
  }

  lemma ErrorStepLocal(s: State, t: State, url: string, reason: string, threshold: int)
    requires AgreeAt(s, t, url)
    ensures AgreeAt(ErrorStep(s, url, reason, threshold), ErrorStep(t, url, reason, threshold), url)
  {
    assert Lookup(s.offline, url, false) == Lookup(t.offline, url, false);
    assert Lookup(s.failures, url, 0) == Lookup(t.failures, url, 0);
    assert Lookup(s.errorCount, url, 0) == Lookup(t.errorCount, url, 0);
  }

  lemma RecoveryStepLocal(s: State, t: State, url: string)
    requires AgreeAt(s, t, url)
    ensures AgreeAt(RecoveryStep(s, url), RecoveryStep(t, url), url)
  {
    assert Lookup(s.offline, url, false) == Lookup(t.offline, url, false);
  }

  /** The health record of any endpoint after a probe of `url`. */
  lemma CheckStepHealth(s: State, url: string, o: Outcome, threshold: int, other: string)
    ensures HealthOf(CheckStep(s, url, o, threshold), other)
         == if other == url then Step(HealthOf(s, url), threshold, Succeeded(o)).0 else HealthOf(s, other)
  {
    if other != url {
      AgreeAwayAt(CheckStep(s, url, o, threshold), s, url, other);
    }
  }

  /** The probes of one cycle, in configuration order, each update atomic (the goroutines of
      monitor.go:29-37, serialised). */
  function Probes(s: State, urls: seq<string>, outcomes: seq<Outcome>, threshold: int): (r: State)
    requires |outcomes| == |urls|
    ensures s.alerts <= r.alerts
    ensures r.offlineSites == s.offlineSites + FailedCount(outcomes)
  {
    if urls == [] then s
    else
      var n := |urls| - 1;
      CheckStep(Probes(s, urls[..n], outcomes[..n], threshold), urls[n], outcomes[n], threshold)
  }

  /** One cycle of monitor.go:27-37: the offline gauge is zeroed, then every URL is probed. After
      the join the gauge holds the number of probes of this cycle that failed. */
  function Cycle(s: State, urls: seq<string>, outcomes: seq<Outcome>, threshold: int): (r: State)
    requires |outcomes| == |urls|
    ensures s.alerts <= r.alerts
    ensures r.offlineSites == FailedCount(outcomes)
  {
    Probes(s.(offlineSites := 0), urls, outcomes, threshold)
  }

  /** Successive cycles, one outcome sequence per cycle. Alerts are only ever appended, and after a
      run the offline gauge shows the failures of its last cycle. */
  function Cycles(s: State, urls: seq<string>, rounds: seq<seq<Outcome>>, threshold: int): (r: State)
    requires forall i :: 0 <= i < |rounds| ==> |rounds[i]| == |urls|
    ensures s.alerts <= r.alerts
    ensures rounds != [] ==> r.offlineSites == FailedCount(rounds[|rounds| - 1])
  {
    if rounds == [] then s
    else
      var n := |rounds| - 1;
      Cycle(Cycles(s, urls, rounds[..n], threshold), urls, rounds[n], threshold)
  }

  /** How many probes of a cycle failed. */
  function FailedCount(outcomes: seq<Outcome>): nat {
    if outcomes == [] then 0
    else FailedCount(outcomes[..|outcomes| - 1]) + (if Succeeded(outcomes[|outcomes| - 1]) then 0 else 1)
  }

  /** The outcomes a cycle delivers for `url` (true for a 2xx), in the order they are recorded. */
  function OutcomesFor(url: string, urls: seq<string>, outcomes: seq<Outcome>): seq<bool>
    requires |outcomes| == |urls|
  {
    if urls == [] then []
    else
      var n := |urls| - 1;
      OutcomesFor(url, urls[..n], outcomes[..n]) + (if urls[n] == url then [Succeeded(outcomes[n])] else [])
  }

  /** Each endpoint's record is changed only by its own probes: within a cycle it replays exactly
      the outcomes delivered for that URL, whatever happens to the other URLs. */
  lemma {:induction false} ProbesPerEndpoint(s: State, urls: seq<string>, outcomes: seq<Outcome>, threshold: int, url: string)
    requires |outcomes| == |urls|
    ensures HealthOf(Probes(s, urls, outcomes, threshold), url)
         == Replay(HealthOf(s, url), threshold, OutcomesFor(url, urls, outcomes)).0
    decreases |urls|
  {
    if urls != [] {
      var n := |urls| - 1;
      var before := Probes(s, urls[..n], outcomes[..n], threshold);
      var seen := OutcomesFor(url, urls[..n], outcomes[..n]);
      ProbesPerEndpoint(s, urls[..n], outcomes[..n], threshold, url);
      CheckStepHealth(before, urls[n], outcomes[n], threshold, url);
      if urls[n] == url {
        ReplayAppend(HealthOf(s, url), threshold, seen, [Succeeded(outcomes[n])]);
        assert [Succeeded(outcomes[n])][1..] == [];
      } else {
        assert seen + [] == seen;
      }
    }
  }

  function AllOutcomesFor(url: string, urls: seq<string>, rounds: seq<seq<Outcome>>): seq<bool>
    requires forall i :: 0 <= i < |rounds| ==> |rounds[i]| == |urls|
  {
    if rounds == [] then []
    else
      var n := |rounds| - 1;
      AllOutcomesFor(url, urls, rounds[..n]) + OutcomesFor(url, urls, rounds[n])
  }

  /** Over a whole run, an endpoint's record is its own history replayed through the latch, so
      the threshold, no-repeat and alternation lemmas of module Latch apply to the running service. */
  lemma {:induction false} CyclesPerEndpoint(s: State, urls: seq<string>, rounds: seq<seq<Outcome>>, threshold: int, url: string)
    requires forall i :: 0 <= i < |rounds| ==> |rounds[i]| == |urls|
    ensures HealthOf(Cycles(s, urls, rounds, threshold), url)
         == Replay(HealthOf(s, url), threshold, AllOutcomesFor(url, urls, rounds)).0
    decreases |rounds|
  {
    if rounds != [] {
      var n := |rounds| - 1;
      var before := Cycles(s, urls, rounds[..n], threshold);
      CyclesPerEndpoint(s, urls, rounds[..n], threshold, url);
      ProbesPerEndpoint(before.(offlineSites := 0), urls, rounds[n], threshold, url);
      assert HealthOf(before.(offlineSites := 0), url) == HealthOf(before, url);
      ReplayAppend(HealthOf(s, url), threshold, AllOutcomesFor(url, urls, rounds[..n]), OutcomesFor(url, urls, rounds[n]));
    }
  }

  /** The kind of alert a log entry is, when it is about `url`. */
  function KindAbout(url: string, a: Alert): seq<Transition> {
    match a
    case Down(u, _) => if u == url then [BecameDown] else []
    case Up(u) => if u == url then [BecameUp] else []
  }

  /** The alerts a log holds about `url`, oldest first, each as the latch transition that sent it. */
  function AlertsAbout(url: string, log: seq<Alert>): seq<Transition> {
    if log == [] then [] else KindAbout(url, log[0]) + AlertsAbout(url, log[1..])
  }

  lemma {:induction false} AlertsAboutAppend(url: string, a: seq<Alert>, b: seq<Alert>)
    ensures AlertsAbout(url, a + b) == AlertsAbout(url, a) + AlertsAbout(url, b)
    decreases |a|
  {
    if a == [] {
      assert a + b == b;
    } else {
      assert (a + b)[0] == a[0] && (a + b)[1..] == a[1..] + b;
      AlertsAboutAppend(url, a[1..], b);
    }
  }

  lemma AlertsAboutAlertFor(url: string, u: string, reason: string, t: Transition)
    ensures AlertsAbout(url, AlertFor(u, reason, t)) == if u == url then Sent([t]) else []
  {
    assert [t][1..] == [];
    var log := AlertFor(u, reason, t);
    if log != [] {
      assert log[1..] == [];
    }
  }

  /** A probe adds to the alerts about `url` only when it probes `url`, and then the alert of its
      latch step, if that step sends one. */
  lemma CheckStepAlertsAbout(s: State, u: string, o: Outcome, threshold: int, url: string)
    ensures AlertsAbout(url, CheckStep(s, u, o, threshold).alerts)
         == AlertsAbout(url, s.alerts) + (if u == url then Sent([Step(HealthOf(s, url), threshold, Succeeded(o)).1]) else [])
  {
    var t := Step(HealthOf(s, u), threshold, Succeeded(o)).1;
    AlertsAboutAppend(url, s.alerts, NewAlerts(s, u, o, threshold));
    AlertsAboutAlertFor(url, u, if Succeeded(o) then "" else Classify(o).reason, t);
  }

  /** Within a cycle, the alerts sent about `url` are exactly the alerting transitions of its own
      outcomes replayed through the latch, in order. */
  lemma {:induction false} ProbesAlertsPerEndpoint(s: State, urls: seq<string>, outcomes: seq<Outcome>, threshold: int, url: string)
    requires |outcomes| == |urls|
    ensures AlertsAbout(url, Probes(s, urls, outcomes, threshold).alerts)
         == AlertsAbout(url, s.alerts) + Sent(Replay(HealthOf(s, url), threshold, OutcomesFor(url, urls, outcomes)).1)
    decreases |urls|
  {
    if urls != [] {
      var n := |urls| - 1;
      var before := Probes(s, urls[..n], outcomes[..n], threshold);
      var seen := OutcomesFor(url, urls[..n], outcomes[..n]);
      var o := outcomes[n];
      ProbesAlertsPerEndpoint(s, urls[..n], outcomes[..n], threshold, url);
      CheckStepAlertsAbout(before, urls[n], o, threshold, url);
      if urls[n] == url {
        var h := HealthOf(s, url);
        ProbesPerEndpoint(s, urls[..n], outcomes[..n], threshold, url);
        ReplaySnoc(h, threshold, seen, Succeeded(o));
        SentAppend(Replay(h, threshold, seen).1, [Step(HealthOf(before, url), threshold, Succeeded(o)).1]);
      } else {
        assert seen + [] == seen;
      }
    }
  }

  /** The same for one cycle: zeroing the offline gauge touches neither records nor alerts. */
  lemma CycleAlertsPerEndpoint(s: State, urls: seq<string>, outcomes: seq<Outcome>, threshold: int, url: string)
    requires |outcomes| == |urls|
    ensures AlertsAbout(url, Cycle(s, urls, outcomes, threshold).alerts)
         == AlertsAbout(url, s.alerts) + Sent(Replay(HealthOf(s, url), threshold, OutcomesFor(url, urls, outcomes)).1)
  {
    var zeroed := s.(offlineSites := 0);
    assert HealthOf(zeroed, url) == HealthOf(s, url) && zeroed.alerts == s.alerts;
    ProbesAlertsPerEndpoint(zeroed, urls, outcomes, threshold, url);
  }

  /** The last cycle of a run adds the alerts of that cycle. */
  lemma LastCycleAlerts(s: State, urls: seq<string>, rounds: seq<seq<Outcome>>, threshold: int, url: string)
    requires rounds != []
    requires forall i :: 0 <= i < |rounds| ==> |rounds[i]| == |urls|
    ensures var n := |rounds| - 1;
      var before := Cycles(s, urls, rounds[..n], threshold);
      AlertsAbout(url, Cycles(s, urls, rounds, threshold).alerts)
      == AlertsAbout(url, before.alerts) + Sent(Replay(HealthOf(before, url), threshold, OutcomesFor(url, urls, rounds[n])).1)
  {
    var n := |rounds| - 1;
    CycleAlertsPerEndpoint(Cycles(s, urls, rounds[..n], threshold), urls, rounds[n], threshold, url);
  }

  /** Over a whole run, the alerts sent about `url` are exactly the alerting transitions of its own
      history replayed through the latch, so what module Latch proves about the transitions of
      `Replay` (the threshold, no repeated down alert, alternation) holds of the emails the service
      sends. */
  lemma {:induction false} CyclesAlertsPerEndpoint(s: State, urls: seq<string>, rounds: seq<seq<Outcome>>, threshold: int, url: string)
    requires forall i :: 0 <= i < |rounds| ==> |rounds[i]| == |urls|
    ensures AlertsAbout(url, Cycles(s, urls, rounds, threshold).alerts)
         == AlertsAbout(url, s.alerts) + Sent(Replay(HealthOf(s, url), threshold, AllOutcomesFor(url, urls, rounds)).1)
    decreases |rounds|
  {
    if rounds != [] {
      var n := |rounds| - 1;
      var seen := AllOutcomesFor(url, urls, rounds[..n]);
      var now := OutcomesFor(url, urls, rounds[n]);
      var h := HealthOf(s, url);
      var first := Replay(h, threshold, seen);
      CyclesAlertsPerEndpoint(s, urls, rounds[..n], threshold, url);
      CyclesPerEndpoint(s, urls, rounds[..n], threshold, url);
      LastCycleAlerts(s, urls, rounds, threshold, url);
      assert AllOutcomesFor(url, urls, rounds) == seen + now;
      ReplaySentAppend(h, threshold, seen, now);
      ConcatChain(AlertsAbout(url, Cycles(s, urls, rounds, threshold).alerts),
        AlertsAbout(url, Cycles(s, urls, rounds[..n], threshold).alerts), AlertsAbout(url, s.alerts),
        Sent(first.1), Sent(Replay(first.0, threshold, now).1), Sent(Replay(h, threshold, seen + now).1));
    }
  }

  /** Helper: two appends in a row are one append of both. */
  lemma ConcatChain<T>(total: seq<T>, mid: seq<T>, base: seq<T>, x: seq<T>, y: seq<T>, xy: seq<T>)
    requires mid == base + x && total == mid + y && xy == x + y
    ensures total == base + xy
  {
  }

  /** The emails a run sends about one URL alternate strictly between down and recovery, starting
      from whether an alert was outstanding when the run began. */
  lemma RunAlertsAlternate(s: State, urls: seq<string>, rounds: seq<seq<Outcome>>, threshold: int, url: string)
    requires forall i :: 0 <= i < |rounds| ==> |rounds[i]| == |urls|
    ensures var before := AlertsAbout(url, s.alerts);
      var after := AlertsAbout(url, Cycles(s, urls, rounds, threshold).alerts);
      before <= after && Alternates(after[|before|..], HealthOf(s, url).offline)
  {
    var h := HealthOf(s, url);
    var ts := Replay(h, threshold, AllOutcomesFor(url, urls, rounds)).1;
    CyclesAlertsPerEndpoint(s, urls, rounds, threshold, url);
    ReplayAlternates(h, threshold, AllOutcomesFor(url, urls, rounds));
    SentAlternates(ts, h.offline);
    var before := AlertsAbout(url, s.alerts);
    assert (before + Sent(ts))[|before|..] == Sent(ts);
  }

  /** The latch invariant over every endpoint at once. */
  ghost predicate AllLatched(s: State, threshold: int) {
    forall url :: Latched(HealthOf(s, url), threshold)
  }

  lemma CheckStepKeepsLatched(s: State, url: string, o: Outcome, threshold: int)
    requires AllLatched(s, threshold)
    ensures AllLatched(CheckStep(s, url, o, threshold), threshold)
  {
    var r := CheckStep(s, url, o, threshold);
    forall v ensures Latched(HealthOf(r, v), threshold) {
      CheckStepHealth(s, url, o, threshold, v);
      assert Latched(HealthOf(s, v), threshold);
    }
  }

  /** Two probes of different endpoints give the same state in either order, up to the order in
      which their alerts are sent: the per-URL updates do not interfere, so the goroutines of one
      cycle may finish in any order. */
  lemma ChecksCommute(s: State, u: string, ou: Outcome, v: string, ov: Outcome, threshold: int)
    requires u != v
    ensures var a := CheckStep(CheckStep(s, u, ou, threshold), v, ov, threshold);
      var b := CheckStep(CheckStep(s, v, ov, threshold), u, ou, threshold);
      a.(alerts := []) == b.(alerts := []) && multiset(a.alerts) == multiset(b.alerts)
  {
    var su := CheckStep(s, u, ou, threshold);
    var sv := CheckStep(s, v, ov, threshold);
    var a := CheckStep(su, v, ov, threshold);
    var b := CheckStep(sv, u, ou, threshold);
    AgreeAwayAt(sv, s, v, u);
    CheckStepLocal(sv, s, u, ou, threshold);
    AgreeAwayAt(su, s, u, v);
    CheckStepLocal(su, s, v, ov, threshold);
    AgreeAwayAt(a, su, v, u);
    AgreeAwayAt(b, sv, u, v);
    MapsCommute(s.offline, su.offline, sv.offline, a.offline, b.offline, u, v);
    MapsCommute(s.failures, su.failures, sv.failures, a.failures, b.failures, u, v);
    MapsCommute(s.siteStatus, su.siteStatus, sv.siteStatus, a.siteStatus, b.siteStatus, u, v);
    MapsCommute(s.errorCount, su.errorCount, sv.errorCount, a.errorCount, b.errorCount, u, v);
    CheckStepCountsOne(s, u, ou, v, ov, threshold);
  }

  lemma CheckStepCountsOne(s: State, u: string, ou: Outcome, v: string, ov: Outcome, threshold: int)
    ensures CheckStep(CheckStep(s, u, ou, threshold), v, ov, threshold).offlineSites
         == CheckStep(CheckStep(s, v, ov, threshold), u, ou, threshold).offlineSites
  {
  }

  /** Helper for ChecksCommute: one map updated at `u` then at `v`, or at `v` then at `u`, ends the
      same when each key's final entry is the same either way. */
  lemma MapsCommute<V>(m: map<string, V>, su: map<string, V>, sv: map<string, V>, a: map<string, V>, b: map<string, V>, u: string, v: string)
    requires u != v
    requires su - {u} == m - {u} && a - {v} == su - {v}
    requires sv - {v} == m - {v} && b - {u} == sv - {u}
    requires SameAt(b, su, u) && SameAt(a, sv, v)
    requires SameAt(a, su, u) && SameAt(b, sv, v)
    ensures a == b
  {
    forall k | k != u && k != v ensures SameAt(a, b, k) {
      SameAwayAt(a, su, v, k);
      SameAwayAt(su, m, u, k);
      SameAwayAt(sv, m, v, k);
      SameAwayAt(b, sv, u, k);
    }
    forall k | k in a ensures k in b && a[k] == b[k] {
      assert SameAt(a, b, k);
    }
    forall k | k in b ensures k in a {
      assert SameAt(a, b, k);
    }
  }

  // ---------------------------------------------------------------------------
  // The scenarios of monitor_test.go, stated on the alert log

  /** monitor_test.go:59-72: with the threshold left at its zero value, one failed request marks
      the URL offline and sends one alert. */
  lemma ScenarioFirstFailure(url: string, err: string)
    ensures var r := CheckStep(Initial, url, TransportFailed(err), 0);
      Lookup(r.offline, url, false) && r.alerts == [Down(url, UnreachablePrefix + err)]
  {
    assert HealthOf(Initial, url) == Fresh;
  }

  /** monitor_test.go:74-88: a 2xx for a URL marked offline clears the mark and sends one
      recovery alert. */
  lemma ScenarioRecovery(url: string, threshold: int)
    ensures var s := Initial.(offline := map[url := true]);
      var r := CheckStep(s, url, Response(200), threshold);
      !Lookup(r.offline, url, false) && r.alerts == [Up(url)]
  {
    var s := Initial.(offline := map[url := true]);
    assert HealthOf(s, url) == Health(true, 0);
  }

  /** monitor_test.go:90-107: with threshold 3, two failed requests send nothing and the third
      sends the one down alert. */
  lemma ScenarioThreshold(url: string, err: string)
    ensures var o := TransportFailed(err);
      var s1 := CheckStep(Initial, url, o, 3);
      var s2 := CheckStep(s1, url, o, 3);
      var s3 := CheckStep(s2, url, o, 3);
      s2.alerts == [] && s3.alerts == [Down(url, UnreachablePrefix + err)]
  {
    var o := TransportFailed(err);
    var s1 := CheckStep(Initial, url, o, 3);
    var s2 := CheckStep(s1, url, o, 3);
    assert HealthOf(Initial, url) == Fresh;
    assert HealthOf(s1, url) == Health(false, 1) && s1.alerts == [];
    assert HealthOf(s2, url) == Health(false, 2) && s2.alerts == [];
  }

  /** monitor_test.go:109-129: with threshold 2, the second failure sends the down alert, and a
      2xx afterwards resets the failure count to 0 (and sends the recovery). */
  lemma ScenarioResetOnRecovery(url: string, err: string)
    ensures var o := TransportFailed(err);
      var s1 := CheckStep(Initial, url, o, 2);
      var s2 := CheckStep(s1, url, o, 2);
      var s3 := CheckStep(s2, url, Response(200), 2);
      s2.alerts == [Down(url, UnreachablePrefix + err)] && Lookup(s3.failures, url, 0) == 0
      && s3.alerts == [Down(url, UnreachablePrefix + err), Up(url)]
  {
    var o := TransportFailed(err);
    var s1 := CheckStep(Initial, url, o, 2);
    var s2 := CheckStep(s1, url, o, 2);
    assert HealthOf(Initial, url) == Fresh;
    assert HealthOf(s1, url) == Health(false, 1) && s1.alerts == [];
    assert HealthOf(s2, url) == Health(true, 2);
  }
}

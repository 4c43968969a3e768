# Site monitor: down/up alert latch and probe cycle, in Dafny

This project models the core of a small Go service that probes a configured list of HTTP
endpoints at a fixed cadence, exports their status as Prometheus metrics, and sends an email when
an endpoint goes down and again when it comes back. The core is the per-URL alert state machine
and the probe cycle that drives it:

- `monitor.go` (the current variant): `checkSiteStatus` sorts one probe outcome into the recovery
  path (a 2xx status) or the error path (a request or transport error, or any other status, with a
  reason string). `handleSiteError` and `handleSiteRecovery` keep two maps keyed by URL,
  `offlineMap` (an alert is outstanding) and `failureCount` (consecutive failures). A down alert
  fires only when the URL enters offline, once its count reaches `alertThreshold`. A recovery alert
  fires only when it leaves offline. `recordMetrics` runs cycles: it checks for cancellation at the
  top, zeroes the `offline_sites` gauge, probes every URL and joins, then sleeps for what is left of
  the interval.
- `main.go:112-188` (the older variant): the same loop done sequentially, with `offlineMap` a local
  of the goroutine, no threshold and a fixed sleep of one whole interval.

Files (one module each):

- `probe.dfy` (`Probe`): the probe outcome as an input (`RequestFailed`, `TransportFailed`,
  `Response(code)`), the 2xx test, the classification into `Healthy` or `Unhealthy(reason)`, Go's
  `%d`, and reading a reason back into its cause.
- `latch.dfy` (`Latch`): one endpoint's record `Health(offline, failures)` and the two steps of the
  latch, `Fail` and `Recover`. `Replay` runs a whole history. The lemmas cover the threshold, the
  absence of repeated down alerts, the alternation of down and up alerts, the latch invariant and
  the reset on recovery.
- `cadence.dfy` (`Cadence`): the sleep after a cycle and when each cycle starts, given the pauses
  that actually pass.
- `transitions.dfy` (`Transitions`): the service state (the two maps, the three metric instruments
  the loop writes and the log of alerts) and pure functions for `handleSiteError`,
  `handleSiteRecovery`, `checkSiteStatus`, one cycle and a run of cycles. The lemmas tie each URL's
  entries and the alerts sent about it to `Latch`, count the failures of a cycle, show that probes
  of different URLs do not interfere, and replay the scenarios of monitor_test.go on the service.
- `monitor.dfy` (`Monitor`): class `Service` with the fields monitor.go uses, and methods that
  follow the Go code statement by statement. Each is proved to follow the matching function of
  `Transitions`.
- `legacy.dfy` (`Legacy`): the main.go loop as class `LegacyService`, its pure counterpart, and
  the proof that it is the threshold-1 latch except for the status gauge of a non-2xx response.

Inputs that stand for the outside world: the probe's outcome (no HTTP is performed), each cycle's
elapsed time, the interval, and whether the context is cancelled when a cycle begins (`Round`).
Sending an email is appending `Down(url, reason)` or `Up(url)` to the `alerts` log. In monitor.go
the body of a down alert is `"<url>: <reason>"` and that of a recovery is `"<url> is back online"`
(email.go:18 and :27). main.go writes `"<url> is unreachable: <err>"` and `"<url> returned status
<n>"`, so there the alert holds the text after the URL and a space.

The goroutine fan-out of a cycle is modelled as a loop over the URLs in configuration order, each
probe run to completion before the next begins. For distinct URLs that is faithful: a probe reads
and writes only its own URL's map entries and metric series, the mutex orders the map updates, and
`Transitions.ChecksCommute` and `Transitions.ProbesPerEndpoint` show that the order does not change
any endpoint's record, the metrics, or the set of alerts sent. It is not faithful for a URL listed
twice in the configuration (see "Left out").

The `Service` struct at main.go:23-26 and `appConfig` at config.go:14-23 lack the fields
monitor.go uses (`mu`, `offlineMap`, `failureCount`, `emailSender`, `alertThreshold`). The model
gives `Service` those fields as monitor.go and monitor_test.go:47-57 use them. A threshold left
unset is Go's zero value 0. Because the count is raised before the comparison, thresholds of 1 or
less all alert on the first failure (`Latch.AlertPosition`).

## Model

| member | source | states |
|---|---|---|
| Probe.NatToDecimal | monitor.go:75 | the `%d` rendering of a status code is a non-empty string of decimal digits with no leading zero |
| Probe.DecimalRoundTrip | monitor.go:75 | every status code, negative ones included, printed with `%d` reads back as the same integer |
| Probe.ReasonRoundTrip | monitor.go:49-75 | the two reason formats, `unreachable: <err>` and `returned status <n>`, can be told apart and read back into the cause that produced them |
| Probe.Classify | monitor.go:47-81 | a probe takes the recovery path exactly when it got a response with status in [200,300); otherwise it takes the error path, and its reason names whether the request failed or the status was bad, and which status |
| Latch.Fail | monitor.go:88-95 | a failure raises the count by exactly one; a down alert fires exactly when the URL was not offline and the new count reaches the threshold, and then the URL is offline; it never sends a recovery; it keeps the latch invariant |
| Latch.Recover | monitor.go:103-109 | a 2xx clears the count and the offline mark whatever they were; a recovery alert fires exactly when the URL had been offline; it never sends a down alert |
| Latch.Replay | monitor.go:83-114 | running a URL's history through the latch yields one transition per probe outcome |
| Latch.ReplayKeepsLatched | monitor.go:89-108 | along any history, offline implies a failure count of at least the threshold, once it holds at the start |
| Latch.FailureRunOnline | monitor.go:89-93 | in a run of failures of a URL not yet offline, the down alert fires on exactly the failure that first brings the count to the threshold, and the URL ends offline exactly when the count reached it |
| Latch.FailureRunOffline | monitor.go:91 | once a URL is offline, further failures send no alert and only raise the count |
| Latch.AlertPosition | monitor.go:90-91 | the failure that alerts is the threshold-th, or the first when the threshold is 1 or less |
| Latch.ThresholdIsExact | monitor.go:90-93 | from a fresh record with threshold T, failures 1 to T-1 send nothing, the T-th sends the one down alert, none sends a recovery, and the URL is offline exactly from the T-th on |
| Latch.NoLeakAcrossRecovery | monitor.go:102-108 | after a 2xx, the transitions and the final record depend only on what follows, so a down/up/down cycle repeats exactly like the first |
| Latch.ReplayAlternates | monitor.go:89-112 | down and recovery alerts strictly alternate: no second down alert before a recovery, no recovery without an outstanding down alert |
| Latch.SentAlternates | monitor.go:97-113 | dropping the quiet steps from a run of transitions keeps down and recovery alerts strictly alternating |
| Latch.ScenarioThresholdThree | monitor_test.go:90-129 | with threshold 3: two failures are quiet, the third sends the down alert, then a 2xx sends the recovery and leaves the count at 0 |
| Cadence.SleepFor | monitor.go:39-42 | the loop sleeps exactly the rest of the interval when the cycle took less, and not at all otherwise, so the next cycle starts the larger of the elapsed time and the interval after this one |
| Cadence.CycleStart | monitor.go:19-42 | cycle k starts exactly when all the probing and all the pauses of the earlier cycles add up, so cycles run back to back and never overlap |
| Cadence.CadenceHolds | monitor.go:18-42 | when every pause lasts at least the sleep asked for, as `time.Sleep` promises, cycle k never starts before k intervals have passed |
| Cadence.CadenceExact | monitor.go:39-42 | when every sleep is exact and no cycle overruns, cycle k starts exactly k intervals after the first |
| Cadence.CadenceExactOnlyIf | monitor.go:39-42 | conversely, when the pauses are at least the sleeps asked for and cycle k starts exactly k intervals after the first, no earlier cycle overran and every earlier sleep was exact |
| Transitions.ErrorStep | monitor.go:83-100 | the URL's record takes one `Fail` step and its down alert, if any, is sent with the given reason; its status gauge becomes 0, its error gauge and the offline count each rise by one; no other URL's entries change |
| Transitions.RecoveryStep | monitor.go:102-114 | the URL's record takes one `Recover` step and its recovery alert, if any, is sent; no metric and no other URL's entries change |
| Transitions.CheckStep | monitor.go:47-114 | one probe steps the URL's record through the latch and sends that step's alert with the classified reason; the status gauge ends at the code of a 2xx and at 0 otherwise (the code set at line 71 is overwritten at line 84); the error gauge is cleared by a 2xx and raised otherwise; a failure adds one to the offline count; every map entry of every other URL stays as it was |
| Transitions.CheckStepLocal | monitor.go:47-114 | what a probe does to its URL depends only on that URL's entries |
| Transitions.CheckStepHealth | monitor.go:47-114 | after a probe of one URL, its record has taken one latch step and every other record is unchanged |
| Transitions.CheckStepKeepsLatched | monitor.go:88-108 | if every URL that is offline has at least threshold failures, that stays true after any probe |
| Transitions.ChecksCommute | monitor.go:29-37 | probes of two different URLs give the same maps, metrics and multiset of alerts in either order |
| Transitions.Probes | monitor.go:29-37 | probing a list of URLs only appends alerts and raises the offline count by exactly the number of failed probes |
| Transitions.Cycle | monitor.go:27-37 | after the gauge is zeroed and the cycle joins, the offline gauge equals the number of probes of that cycle that failed; alerts are only appended |
| Transitions.Cycles | monitor.go:18-43 | over a run, alerts are only appended, and the offline gauge ends at the failures of the last cycle |
| Transitions.ProbesPerEndpoint | monitor.go:29-37 | within a cycle, each URL's record is its own outcomes, in order, replayed through the latch, whatever the other URLs do |
| Transitions.CyclesPerEndpoint | monitor.go:18-43 | over a whole run, each URL's record (offline mark and failure count) is its entire history replayed through the latch |
| Transitions.CheckStepAlertsAbout | monitor.go:47-114 | a probe adds to the alerts about a URL only when it probes that URL, and then exactly the alert of its latch step, if any |
| Transitions.ProbesAlertsPerEndpoint | monitor.go:29-37 | within a cycle, the alerts sent about a URL are the alerting transitions of its own outcomes replayed through the latch, in order |
| Transitions.CycleAlertsPerEndpoint | monitor.go:27-37 | the same for one cycle: zeroing the gauge sends nothing |
| Transitions.CyclesAlertsPerEndpoint | monitor.go:18-43 | over a whole run, the alerts sent about a URL, in order, are exactly the alerting transitions of its history replayed through the latch, so the threshold, no-repeat and alternation lemmas of `Latch` hold of the emails the service sends |
| Transitions.RunAlertsAlternate | monitor.go:83-114 | over a whole run, the emails about one URL strictly alternate between down and recovery, starting from whether an alert was outstanding |
| Transitions.ScenarioFirstFailure | monitor_test.go:59-72 | with the threshold unset, one failed request marks the URL offline and sends one down alert |
| Transitions.ScenarioRecovery | monitor_test.go:74-88 | a 2xx for a URL marked offline clears the mark and sends one recovery alert |
| Transitions.ScenarioThreshold | monitor_test.go:90-107 | with threshold 3, two failed requests send no email and the third sends exactly one |
| Transitions.ScenarioResetOnRecovery | monitor_test.go:109-129 | with threshold 2, the second failure sends the down alert and a 2xx then resets the failure count to 0 and sends the recovery |
| Monitor.FirstCancelled | monitor.go:20-25 | the loop returns at the first turn that finds the context cancelled; every earlier turn ran a full cycle |
| Monitor.Service.constructor | monitor_test.go:47-57 | a service starts with the given configuration, empty maps, no metrics and no alerts |
| Monitor.Service.SendSiteDownAlert | email.go:16-23 | appends exactly one down alert with the URL and the reason |
| Monitor.Service.SendSiteRecoveryAlert | email.go:25-32 | appends exactly one recovery alert for the URL |
| Monitor.Service.HandleSiteError | monitor.go:83-100 | the new state is `ErrorStep` of the old one: the URL's record takes one `Fail` step, and the alert log grows by that step's down alert, if any |
| Monitor.Service.HandleSiteRecovery | monitor.go:102-114 | the new state is `RecoveryStep` of the old one: the URL's record is fresh, and exactly one recovery alert is appended when the URL was offline, none otherwise |
| Monitor.Service.CheckSiteStatus | monitor.go:47-81 | the new state is `CheckStep` of the old one for that outcome |
| Monitor.Service.RunCycle | monitor.go:27-37 | the new state is one cycle applied to the old one, and the offline gauge ends at the number of failed probes |
| Monitor.Service.Turn | monitor.go:27-42 | one turn is one cycle applied to the old state, followed by a sleep of exactly `SleepFor(elapsed, interval)`: the rest of the interval, or none when the cycle overran |
| Monitor.Service.RecordMetrics | monitor.go:14-45 | the loop runs exactly the turns before the first cancellation, the state is those cycles applied in order, and each cycle's sleep is `SleepFor(elapsed, interval)` |
| Legacy.LegacyCheck | main.go:124-183 | after a legacy probe the URL is marked offline exactly when the probe failed; one alert about it, down for a failure and recovery for a 2xx, is sent exactly when the mark flips; the status gauge holds the code of any response and 0 for a failed request; a failure counts in both gauges and a 2xx clears the error gauge; no other URL's entries change |
| Legacy.LegacyProbes | main.go:124-184 | a legacy cycle's probes only append alerts and raise the offline count by the number of failed probes |
| Legacy.LegacyCycles | main.go:116-186 | over a legacy run alerts are only appended, and the offline gauge ends at the failures of the last cycle |
| Legacy.LegacyCheckIsThresholdOne | main.go:124-183 | one legacy probe leaves the same offline marks, error gauges and offline count, and sends an alert of the same kind about the same URL, as monitor.go with threshold 1; the status gauge holds the code for any response, non-2xx included, where monitor.go holds 0 |
| Legacy.LegacyProbesAreThresholdOne | main.go:123-184 | the same correspondence holds for a whole cycle of probes |
| Legacy.LegacyIsThresholdOne | main.go:112-188 | over any run, the legacy loop marks, counts and alerts exactly as monitor.go with threshold 1 |
| Legacy.LegacyDrifts | main.go:185 | with a whole-interval sleep after every cycle, cycle k starts no earlier than the probing time of the earlier cycles plus k intervals, and exactly then when the sleeps are exact; so never before k intervals, as in monitor.go |
| Legacy.LegacyService.ProbeSite | main.go:125-183 | one URL's turn of the inner loop is `LegacyCheck`: the request, transport and non-2xx paths count the failure and alert only if the URL is not marked offline; a 2xx clears the error gauge and sends the recovery only if it is marked |
| Legacy.LegacyService.RunCycle | main.go:123-184 | a cycle zeroes the offline gauge and probes the URLs one after another in configuration order |
| Legacy.LegacyService.RecordMetrics | main.go:112-188 | starting from an empty `offlineMap`, the loop runs exactly the turns before the first cancellation, the metrics and alerts are those cycles applied in order, and every cycle sleeps one whole interval |

## Left out

- HTTP: `http.NewRequest`, `client.Do`, the 10-second client timeout and `res.Body.Close` are not modelled. The probe's result is an input `Outcome`.
- The `res == nil` branches (monitor.go:64-67, main.go:153-164) are dead code: `res.Body` is dereferenced by the `defer` just before them. They are not modelled.
- main.go:151 defers `res.Body.Close()` inside the endless loop, so response bodies stay open until the goroutine returns. Resource handling is not modelled.
- Concurrency: the goroutines, the `sync.WaitGroup` and the mutex `s.mu` are not modelled. A cycle runs its URLs one after another, each probe to completion. The metric updates made outside the lock (monitor.go:70-71, 78, 84-86) rely on Prometheus being safe for concurrent use.
- A URL configured more than once is outside the serial model. `s.mu` covers only monitor.go:88-95 and 103-109, and the alert sends at 97-99 and 111-113 happen after the lock is released. So two goroutines probing the same URL can interleave. Take threshold 1 and the outcomes "transport error" then "200" for the two copies. The first copy latches the URL offline, the second clears the mark and sends the recovery, and only then does the first send its down alert. Go's log is then `[Up, Down]` with the URL online; the model gives `[Down, Up]` or `[Down]`.
- Real time: `time.Now`, `time.Since` and `time.Sleep` are not modelled. Elapsed time and the interval are integers. The methods return the sleep they ask for rather than perform it. The cadence lemmas take the pause that actually passes before the next cycle as an input, at least the sleep asked for.
- Cadence.CadenceExact and the exact half of Legacy.LegacyDrifts: these hold only under their hypothesis that every pause equals the sleep asked for. Go's `time.Sleep` may oversleep, and monitor.go re-reads `time.Now` every turn, so the oversleep adds up. What the program guarantees is the lower bound of Cadence.CadenceHolds.
- Email delivery (`sendEmail`, email.go:9-14) and the subjects and log lines: an alert is recorded as sent whether or not delivery succeeds, since a failure is only logged.
- Configuration loading (`readConfig`), metric registration (`initMetrics`), `main` with its signal handling and `/metrics` listener, and the `ci/` build pipeline are not part of this model. The `sites` counter is only written by `readConfig`, so it is not modelled.
- `failureCount` is an unbounded `nat`. Go's `int` would wrap after 2^63 consecutive failures; this is not modelled.
- Monitor.Service.RecordMetrics and Legacy.LegacyService.RecordMetrics: Go's loop runs until cancellation. The model runs over a finite list of turns, and a list that ends before any cancellation stands for a loop still running.
- Legacy.LegacyIsThresholdOne: compares alerts by URL and kind only, because the two variants word their reasons differently.

# EaseProbe orchestration core, modelled in Dafny

EaseProbe is a health-check daemon. Probers check their targets periodically
and publish a Result (status and previous status). A single dispatcher turns
status transitions into notifications to every configured notifier. A
scheduler sends an SLA report through every notifier. A small web server shows
the SLA page. This project models the daemon's sequential decision logic.

- `probe.dfy` (`Probe`): the `Status` values, the `ProbeResult` record and the
  `Prober` class, whose Result is updated in place.
- `notify.dfy` (`Notify`): the notifier fan-out, recorded as a call trace of
  `(notifier index, Dry | Live, payload)`.
- `dispatch.dfy` (`Dispatch`): the dispatcher loop, which consumes a channel
  modelled as a finite event sequence (`Publish(result)` or `Done`). It also
  holds the transition policy and lemmas over whole streams.
- `config.dfy` (`Config`): `configProbers` and `configNotifiers`. Each unit's
  `Config` outcome is an input.
- `sla.dfy` (`Sla`): SLA schedule resolution and one firing of the report job.
- `web.dfy` (`Web`): `SetProbers`, the host and port normalisation and the
  auto-refresh default of `Server`, and the millisecond refresh value.
- `strconv.dfy` (`StrConv`): Go's `strconv.Atoi` on a 64-bit platform and
  decimal formatting, as the web server uses them.
- `daemon.dfy` (`Daemon`): `getEnvOrDefault` and `run`, which composes the
  parts above.

Constants: the default listen address is `0.0.0.0:8181` and the default
probe interval is one minute. These are the values of the `global` package.
`global` is not part of this model.

Two behaviours of the code are easy to misread:

- One might expect a notifier whose configuration fails to be dropped from
  later fan-outs. `configNotifiers` (cmd/easeprobe/main.go:188-196) only logs
  the error, and the fan-out at line 134 iterates over the same, unchanged
  list. The model follows the code: `Daemon.FailedNotifierStillNotified`
  proves that such a notifier is still called.
- With the schedule `None`, no scheduler is created even when the debug flag
  is set. The `None` test (line 104) comes before the debug test (line 220).

## Model

| member | source | states |
|---|---|---|
| Daemon.GetEnvOrDefault | cmd/easeprobe/main.go:35-41 | the environment value when the key is set (even to ""), the default only when it is unset |
| Dispatch.DispatchOne | cmd/easeprobe/main.go:119-142 | an unchanged status or a first `Init`→`Up` produces no call; any other Result calls each notifier once, in order, through the dry path iff dry |
| Dispatch.TraceModes | cmd/easeprobe/main.go:134-142 | over a whole run every call uses the path the dry flag selects, so dry and live calls never mix |
| Dispatch.DoneStops | cmd/easeprobe/main.go:112-119 | nothing after the termination signal is dispatched: the trace and the dispatched Results equal those of the prefix before `Done` |
| Dispatch.TraceReceived | cmd/easeprobe/main.go:119-142 | every listed notifier receives exactly the dispatched Results, once each, in arrival order; no other notifier index is called |
| Dispatch.CountChanges | cmd/easeprobe/main.go:121-130 | on any stream whose previous statuses are chained (each is the status recorded before it), the number of notified Results is the number of status changes minus the `Init`→`Up` changes |
| Dispatch.CountTransitions | cmd/easeprobe/main.go:121-130 | on one prober's stream whose previous statuses are chained from `Init` and in which no Result reports `Init`, the number of notified Results is the number of status changes, plus one when the first status is not `Up` |
| Dispatch.ReplayUnchanged | cmd/easeprobe/main.go:121-125 | on any chained stream whose every Result reports the same status, at most one Result is notified |
| Dispatch.UpDownDown | cmd/easeprobe/main.go:119-142 | the stream Init→Up, Up→Down, Down→Down calls each notifier exactly once, with the Up→Down Result |
| Dispatch.Run | cmd/easeprobe/main.go:110-145 | the loop's trace is the stream's specified trace; it consumes events up to and including the first `Done`, or all of them |
| Notify.FanOut | cmd/easeprobe/main.go:134-142 | one fan-out has one call per notifier, at position i for notifier i, all through the selected path, all with the same payload |
| Notify.Broadcast | cmd/easeprobe/main.go:134-142 | the loop over the notifier list makes exactly the calls of `FanOut` |
| Notify.ReceivedByFanOut | cmd/easeprobe/main.go:134-142 | a fan-out reaches each listed notifier exactly once and no other |
| Config.MessageRecordsOutcome | cmd/easeprobe/main.go:170-177 | the Message written by configuration records the outcome: the error text after "Bad Configuration: ", or no error for "Good Configuration!" |
| Config.Positions | cmd/easeprobe/main.go:169-180 | the selected positions are those, and only those, with the wanted outcome, in ascending order |
| Config.ConfigProbers | cmd/easeprobe/main.go:148-181 | starts exactly the probers whose configuration succeeded, in order; each Message is updated with its outcome and nothing else changes |
| Config.ConfigNotifiers | cmd/easeprobe/main.go:183-197 | reports exactly the notifiers whose configuration failed; the notifier list is left as it is |
| Daemon.FailedNotifierStillNotified | cmd/easeprobe/main.go:183-197 | a notifier whose configuration failed still receives a later transition, once |
| Sla.Resolve | cmd/easeprobe/main.go:220-240 | no scheduler iff the schedule is `None`; debug fires every minute; otherwise daily, Sunday or last day of month at the configured time, and any other schedule daily at 00:00 |
| Sla.NeverSilentlyDisabled | cmd/easeprobe/main.go:104-108 | every schedule other than `None` yields a scheduler, and it fires at some real calendar minute when debug is on, the schedule is unrecognised, or the configured time is a valid "HH:MM" |
| Sla.Fire | cmd/easeprobe/main.go:205-214 | one firing calls each notifier's stat path once, in order, with the full prober list, dry iff the dry flag is set |
| Web.ResolvedPortValid | web/server.go:67-75 | the resolved port always parses into 1025..65535; the configured port is kept iff it is valid; resolving twice changes nothing |
| Web.PortLowerBound | web/server.go:70-75 | "1024" falls back to the default port; "1025" is kept |
| Web.PortUpperBound | web/server.go:70-75 | "65535" is kept; "65536" falls back to the default port |
| Web.PortSyntax | web/server.go:68-75 | a signed "+8080" is kept as written; a non-numeric port falls back to the default |
| Web.ResolvedHost | web/server.go:63-66 | the host is kept iff it is empty or an IP address; otherwise it becomes the default IP; resolving twice changes nothing |
| Web.Milliseconds | web/server.go:37-38 | whole milliseconds of a nanosecond duration, truncated toward zero for either sign |
| Web.RefreshReadsBack | web/server.go:36-39 | the refresh string parses back to the interval's milliseconds; whole milliseconds convert back exactly |
| Web.MinRefreshInterval | web/server.go:78-85 | the result is at most the default interval and at most every prober's interval, and equals one of them |
| Web.WebServer.SetProbers | web/server.go:50-53 | the stored prober list, unset until then, becomes the argument |
| Web.WebServer.Server | web/server.go:55-88 | host and port are normalised; an unset (zero) auto-refresh becomes the minimum interval over the published prober list, which must then be set; a set auto-refresh and the prober list are unchanged |
| StrConv.Atoi | web/server.go:67-70 | parses iff the text is an optional sign, then at least one digit, then a value within int64; the result is that signed value |
| StrConv.AtoiItoa | web/server.go:37-38 | formatting an int64 in decimal and parsing it back returns the same value |
| Daemon.Run | cmd/easeprobe/main.go:85-146 | composes configuration, web set-up, SLA plan and dispatch; the trace fans out to the full notifier list |

## Left out

- Goroutines, channels and `select`: the channel is a finite event sequence, and there is no interleaving of producers. The unsynchronised concurrent reads of a prober's Result are not modelled.
- Live-mode calls (`go n.Notify`, `go n.NotifyStat`) are recorded in launch order. Their completion order and failures are not modelled.
- The prober runner loop (`probeFn`: `Probe()`, sending to the channel, `time.Sleep`). The previous-status bookkeeping inside `Probe()` belongs to the probe package, which is not part of this model. It appears only as preconditions of the stream lemmas: `ChainedFrom` (each previous status is the status recorded before it) for `Dispatch.CountChanges`, `Dispatch.ReplayUnchanged` and `Dispatch.CountTransitions`, and in addition "no Result reports `Init`" for `Dispatch.CountTransitions`.
- Calendar arithmetic of the scheduling library (`NextRun`, `StartAsync`, next fire times). A job is described only by the minutes at which it fires.
- Sla.FiresAt: compares a job's time with a minute's "HH:MM" text exactly. The scheduling library's own parsing of the time is not modelled: other spellings it may accept (such as "3:00" or "03:00:00") and its handling of a malformed time (the error from `Do` is discarded) are not covered. `Sla.NeverSilentlyDisabled` promises a firing only for a time written exactly "HH:MM".
- Web.WebServer.Server: calling it with an unset auto-refresh before `SetProbers` dereferences a nil pointer in Go and panics. The model excludes that call by a precondition; `run` always calls `SetProbers` first.
- `net.ParseIP` is the parameter `isIP`, which stays uninterpreted.
- HTTP serving, SLA HTML/JSON rendering, response headers, all logging, flag and YAML parsing, `log.Fatalln`/`os.Exit` and log-file closing. These are I/O.
- probe/host/metrics.go: it only builds Prometheus gauges and holds no decision logic.
- Concrete prober and notifier behaviour: `Config` outcomes are inputs, and `Notify`/`NotifyStat` are trace entries. A prober's `Config` may also change its interval; that change is not modelled, and `interval` is a constant.
- Config.ConfigProbers: requires the probers to be distinct objects. The model does not cover a prober listed twice, whose Message would be written twice.
- Durations are unbounded integers. Go's `int64` overflow of durations is not modelled; `Web.RefreshReadsBack` assumes an `int64` interval.

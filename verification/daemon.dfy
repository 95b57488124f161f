/**
 * The daemon's entry points: the environment lookup used for its defaults,
 * and `run`, which wires configuration, the web server, the SLA scheduler
 * and the result dispatcher together.
 */
module Daemon {
  import opened Wrappers
  import opened Probe
  import opened Notify
  import Dispatch
  import Config
  import Sla
  import Web

  /**
   * The value of `key` in the environment when it is set, even to the empty
   * string; `defaultValue` only when it is not set at all.
   */
  function GetEnvOrDefault(env: map<string, string>, key: string, defaultValue: string): (v: string)
    ensures key in env ==> v == env[key]
    ensures key !in env ==> v == defaultValue
  {
    if key in env then env[key] else defaultValue
  }

  /** The settings `run` reads from the global configuration. */
  datatype Settings = Settings(dry: bool, schedule: Sla.Schedule, slaDebug: bool, slaTime: string)

  /** What one `run` did: which probers it started, which notifiers failed their
      configuration, where the web server listens, the SLA plan, and the
      dispatcher's notifier trace and consumed event count. */
  datatype Outcome = Outcome(
    started: seq<nat>,
    failedNotifiers: seq<nat>,
    host: string,
    port: string,
    plan: Sla.Plan,
    trace: seq<Call<ProbeResult>>,
    consumed: nat)

  /**
   * `run`: configure probers and notifiers, publish the probers to the web
   * pages and set the server up, resolve the SLA plan, then dispatch the
   * event stream. The dispatcher fans out to the whole notifier list,
   * including notifiers whose configuration failed.
   */
  method Run(
    probers: seq<Prober>, notifies: seq<Notifier>, settings: Settings,
    http: Web.HttpServerSettings, web: Web.WebServer, isIP: string -> bool,
    proberErrs: seq<Option<string>>, notifierErrs: seq<Option<string>>,
    events: seq<Dispatch.Event>)
    returns (o: Outcome)
    requires |proberErrs| == |probers| && |notifierErrs| == |notifies|
    requires forall i, j :: 0 <= i < j < |probers| ==> probers[i] != probers[j]
    modifies (set p | p in probers), http`autoRefreshTime, web
    ensures o.started == Config.Positions(proberErrs, false)
    ensures forall i :: 0 <= i < |probers| ==>
      probers[i].result == old(probers[i].result).(message := Config.ConfigMessage(proberErrs[i]))
    ensures o.failedNotifiers == Config.Positions(notifierErrs, true)
    ensures web.probers == Some(probers)
    ensures o.host == Web.ResolveHost(http.ip, isIP) && o.port == Web.ResolvePort(http.port)
    ensures old(http.autoRefreshTime) != 0 ==> http.autoRefreshTime == old(http.autoRefreshTime)
    ensures old(http.autoRefreshTime) == 0 ==> Web.IsRefreshMinimum(http.autoRefreshTime, probers)
    ensures o.plan == Sla.Resolve(settings.schedule, settings.slaDebug, settings.slaTime)
    ensures o.trace == Dispatch.Trace(events, |notifies|, settings.dry)
  {
    var started := Config.ConfigProbers(probers, proberErrs);
    var failed := Config.ConfigNotifiers(notifies, notifierErrs);
    web.SetProbers(probers);
    var host, port := web.Server(http, isIP);
    var plan := Sla.Resolve(settings.schedule, settings.slaDebug, settings.slaTime);
    var trace, consumed := Dispatch.Run(events, notifies, settings.dry);
    o := Outcome(started, failed, host, port, plan, trace, consumed);
  }

  /**
   * A notifier whose configuration failed stays in the list: a later
   * transition still reaches it, once.
   */
  lemma FailedNotifierStillNotified(
    notifies: seq<Notifier>, errs: seq<Option<string>>, r: ProbeResult, dry: bool, i: nat)
    requires |errs| == |notifies|
    requires i in Config.Positions(errs, true)
    requires r.preStatus != r.status && !(r.preStatus == Init && r.status == Up)
    ensures ReceivedBy(Dispatch.Trace([Dispatch.Publish(r)], |notifies|, dry), i) == [r]
  {
    Dispatch.TraceReceived([Dispatch.Publish(r)], |notifies|, dry, i);
    assert [Dispatch.Publish(r)][1..] == [];
  }
}

/**
 * The SLA report scheduler: which periodic job, if any, is set up for the
 * report, and what one firing of that job does. The scheduling library's
 * calendar arithmetic is not modelled; a job is described by the minutes
 * (UTC) at which it fires.
 */
module Sla {
  import opened Probe
  import opened Notify
  import StrConv

  /** The configured report period; `Unrecognized` is any other setting. */
  datatype Schedule = None | Daily | Weekly | Monthly | Unrecognized(code: int)

  /** The periodic jobs the scheduler can be given. */
  datatype Job =
    | EveryMinute
    | EveryDayAt(clock: string)
    | SundayAt(clock: string)
    | LastDayOfMonthAt(clock: string)

  /** Either no scheduler at all, or a scheduler running one job. */
  datatype Plan = NoReport | Scheduled(job: Job)

  /** A calendar minute, reduced to what the jobs look at; weekday 0 is Sunday. */
  datatype Minute = Minute(weekday: int, lastDayOfMonth: bool, clock: string)

  /** A time of day written "HH:MM", with hour below 24 and minute below 60. */
  predicate ValidClock(t: string)
  {
    && |t| == 5 && t[2] == ':'
    && StrConv.IsDigit(t[0]) && StrConv.IsDigit(t[1]) && StrConv.IsDigit(t[3]) && StrConv.IsDigit(t[4])
    && StrConv.DigitValue(t[0]) * 10 + StrConv.DigitValue(t[1]) < 24
    && StrConv.DigitValue(t[3]) < 6
  }

  /** A minute that exists on the calendar: a weekday 0 ..= 6 and a valid time of day. */
  predicate ValidMinute(m: Minute)
  {
    0 <= m.weekday < 7 && ValidClock(m.clock)
  }

  predicate FiresAt(job: Job, m: Minute)
  {
    match job
    case EveryMinute => true
    case EveryDayAt(t) => m.clock == t
    case SundayAt(t) => m.weekday == 0 && m.clock == t
    case LastDayOfMonthAt(t) => m.lastDayOfMonth && m.clock == t
  }

  /**
   * Resolution of the SLA settings: no scheduler when the schedule is `None`;
   * otherwise the debug flag makes the report fire every minute, and without
   * it the report fires daily, on Sundays or on the last day of the month at
   * the configured time, any other schedule falling back to daily at "00:00".
   */
  function Resolve(schedule: Schedule, debug: bool, time: string): (p: Plan)
    ensures p.NoReport? <==> schedule == None
    ensures p.Scheduled? && debug ==> forall m :: FiresAt(p.job, m)
    ensures p.Scheduled? && !debug ==> forall m :: FiresAt(p.job, m) <==>
      && m.clock == (if schedule.Unrecognized? then "00:00" else time)
      && (schedule == Weekly ==> m.weekday == 0)
      && (schedule == Monthly ==> m.lastDayOfMonth)
  {
    if schedule == None then NoReport
    else if debug then Scheduled(EveryMinute)
    else match schedule
      case Daily => Scheduled(EveryDayAt(time))
      case Weekly => Scheduled(SundayAt(time))
      case Monthly => Scheduled(LastDayOfMonthAt(time))
      case _ => Scheduled(EveryDayAt("00:00"))
  }

  /**
   * Every schedule other than `None` yields a job that fires at some real
   * calendar minute, provided the configured time is a valid "HH:MM" where
   * it is used: debug mode and the fallback use a fixed schedule and need no
   * valid time at all.
   */
  lemma NeverSilentlyDisabled(schedule: Schedule, debug: bool, time: string)
    requires schedule != None
    requires debug || schedule.Unrecognized? || ValidClock(time)
    ensures Resolve(schedule, debug, time).Scheduled?
    ensures exists m :: ValidMinute(m) && FiresAt(Resolve(schedule, debug, time).job, m)
  {
    var clock := if debug || schedule.Unrecognized? then "00:00" else time;
    assert ValidClock("00:00") by {
      assert StrConv.DigitValue('0') == 0;
    }
    var m := Minute(0, true, clock);
    assert ValidMinute(m);
    assert FiresAt(Resolve(schedule, debug, time).job, m);
  }

  /**
   * One firing of the report job: every notifier's statistics path
   * (`DryNotifyStat` when dry, a detached `NotifyStat` when live) once, in
   * list order, each given the full prober list.
   */
  method Fire(notifies: seq<Notifier>, probers: seq<Prober>, dry: bool)
    returns (calls: seq<Call<seq<Prober>>>)
    ensures calls == FanOut(|notifies|, dry, probers)
    ensures forall i :: 0 <= i < |notifies| ==> ReceivedBy(calls, i) == [probers]
  {
    calls := Broadcast(|notifies|, dry, probers);
    forall i | 0 <= i < |notifies| ensures ReceivedBy(calls, i) == [probers] {
      ReceivedByFanOut(|notifies|, dry, probers, i);
    }
  }
}

/**
 * The result dispatcher: the loop that takes probe Results off the shared
 * channel, drops those that carry no news, and fans the others out to every
 * notifier. The channel is modelled as the finite sequence of events it
 * delivers, and the notifier calls as an appended trace.
 */
module Dispatch {
  import opened Probe
  import opened Notify

  /** What the dispatcher's `select` receives: a Result, or the termination signal. */
  datatype Event = Publish(result: ProbeResult) | Done

  /** The dispatcher's verdict on one Result, in the order it tests them. */
  datatype Verdict = Unchanged | InitialUp | Transition

  function Classify(r: ProbeResult): Verdict
  {
    if r.preStatus == r.status then Unchanged
    else if r.preStatus == Init && r.status == Up then InitialUp
    else Transition
  }

  /** The calls the dispatcher makes for one Result. */
  function Batch(r: ProbeResult, count: nat, dry: bool): seq<Call<ProbeResult>>
  {
    if Classify(r) == Transition then FanOut(count, dry, r) else []
  }

  /** The whole notifier trace of an event stream: batches up to the first `Done`. */
  function Trace(events: seq<Event>, count: nat, dry: bool): seq<Call<ProbeResult>>
  {
    if events == [] then []
    else match events[0]
      case Done => []
      case Publish(r) => Batch(r, count, dry) + Trace(events[1..], count, dry)
  }

  /** The Results that were fanned out, in the order they arrived. */
  function Dispatched(events: seq<Event>): seq<ProbeResult>
  {
    if events == [] then []
    else match events[0]
      case Done => []
      case Publish(r) => (if Classify(r) == Transition then [r] else []) + Dispatched(events[1..])
  }

  /**
   * The transition policy for a single Result: no call at all when the status
   * did not change or when the first observation is healthy; otherwise every
   * notifier once, in order, through the one path the dry flag selects.
   */
  lemma DispatchOne(r: ProbeResult, count: nat, dry: bool)
    ensures r.preStatus == r.status ==> Trace([Publish(r)], count, dry) == []
    ensures r.preStatus == Init && r.status == Up ==> Trace([Publish(r)], count, dry) == []
    ensures r.preStatus != r.status && !(r.preStatus == Init && r.status == Up) ==>
      var t := Trace([Publish(r)], count, dry);
      |t| == count &&
      forall i :: 0 <= i < count ==> t[i] == Call(i, ModeOf(dry), r)
  {
    assert [Publish(r)][1..] == [];
  }

  /** Dry and live are exclusive: every call of a run goes through the one path the flag selects. */
  lemma {:induction false} TraceModes(events: seq<Event>, count: nat, dry: bool)
    ensures forall c :: c in Trace(events, count, dry) ==> c.mode == ModeOf(dry)
  {
    if events != [] && events[0].Publish? {
      TraceModes(events[1..], count, dry);
      var b := Batch(events[0].result, count, dry);
      forall c | c in b ensures c.mode == ModeOf(dry) {
        var k :| 0 <= k < |b| && b[k] == c;
      }
    }
  }

  /** Nothing that arrives after the termination signal is dispatched. */
  lemma {:induction false} DoneStops(pre: seq<Event>, post: seq<Event>, count: nat, dry: bool)
    ensures Trace(pre + [Done] + post, count, dry) == Trace(pre, count, dry)
    ensures Dispatched(pre + [Done] + post) == Dispatched(pre)
  {
    if pre != [] {
      assert (pre + [Done] + post)[1..] == pre[1..] + [Done] + post;
      if pre[0].Publish? {
        DoneStops(pre[1..], post, count, dry);
      }
    }
  }

  /**
   * Exactly once per notifier and per dispatched Result, in order: every
   * configured notifier receives precisely the dispatched Results, in arrival
   * order, and no call names a notifier outside the list.
   */
  lemma {:induction false} TraceReceived(events: seq<Event>, count: nat, dry: bool, i: nat)
    ensures ReceivedBy(Trace(events, count, dry), i) == if i < count then Dispatched(events) else []
  {
    if events != [] && events[0].Publish? {
      var r := events[0].result;
      TraceReceived(events[1..], count, dry, i);
      ReceivedByAppend(Batch(r, count, dry), Trace(events[1..], count, dry), i);
      if Classify(r) == Transition {
        ReceivedByFanOut(count, dry, r, i);
      }
    }
  }

  /** The Results a prober publishes, one event each, with nothing in between. */
  function Publishes(rs: seq<ProbeResult>): seq<Event>
  {
    if rs == [] then [] else [Publish(rs[0])] + Publishes(rs[1..])
  }

  function Statuses(rs: seq<ProbeResult>): seq<Status>
  {
    seq(|rs|, i requires 0 <= i < |rs| => rs[i].status)
  }

  /** Every Result's previous status is the status the execution before it recorded. */
  predicate ChainedFrom(prev: Status, rs: seq<ProbeResult>)
  {
    |rs| > 0 ==>
      rs[0].preStatus == prev &&
      forall i :: 0 < i < |rs| ==> rs[i].preStatus == rs[i - 1].status
  }

  /** The number of adjacent positions at which a status sequence changes value. */
  function Flips(s: seq<Status>): nat
  {
    if |s| < 2 then 0 else (if s[0] != s[1] then 1 else 0) + Flips(s[1..])
  }

  /** The number of adjacent positions at which the status goes from `Init` to `Up`. */
  function InitUps(s: seq<Status>): nat
  {
    if |s| < 2 then 0 else (if s[0] == Init && s[1] == Up then 1 else 0) + InitUps(s[1..])
  }

  /**
   * On any stream whose previous statuses are chained from `prev`, the
   * dispatcher notifies once for every change of status except the changes
   * from `Init` to `Up`.
   */
  lemma {:induction false} CountChanges(prev: Status, rs: seq<ProbeResult>)
    requires ChainedFrom(prev, rs)
    ensures |Dispatched(Publishes(rs))| + InitUps([prev] + Statuses(rs)) == Flips([prev] + Statuses(rs))
    decreases |rs|
  {
    if rs != [] {
      var r := rs[0];
      var rest := rs[1..];
      assert ChainedFrom(r.status, rest) by {
        if |rest| > 0 {
          assert rest[0] == rs[1];
          forall i | 0 < i < |rest| ensures rest[i].preStatus == rest[i - 1].status {
            assert rest[i] == rs[i + 1];
          }
        }
      }
      CountChanges(r.status, rest);
      assert Publishes(rs)[1..] == Publishes(rest);
      assert ([prev] + Statuses(rs))[1..] == [r.status] + Statuses(rest);
    }
  }

  lemma {:induction false} FlipsAfter(prev: Status, rs: seq<ProbeResult>)
    requires prev != Init
    requires ChainedFrom(prev, rs)
    requires forall i :: 0 <= i < |rs| ==> rs[i].status != Init
    ensures |Dispatched(Publishes(rs))| == Flips([prev] + Statuses(rs))
    decreases |rs|
  {
    if rs != [] {
      var r := rs[0];
      var rest := rs[1..];
      assert ChainedFrom(r.status, rest) by {
        if |rest| > 0 {
          assert rest[0] == rs[1];
          forall i | 0 < i < |rest| ensures rest[i].preStatus == rest[i - 1].status {
            assert rest[i] == rs[i + 1];
          }
        }
      }
      FlipsAfter(r.status, rest);
      assert Publishes(rs)[1..] == Publishes(rest);
      assert ([prev] + Statuses(rs))[1..] == [r.status] + Statuses(rest);
    }
  }

  /**
   * Over one prober's stream, starting from `Init` and never reporting `Init`
   * again, the dispatcher notifies once per change of status, plus once for
   * the first observation unless it is `Up`.
   */
  lemma {:induction false} CountTransitions(rs: seq<ProbeResult>)
    requires ChainedFrom(Init, rs)
    requires forall i :: 0 <= i < |rs| ==> rs[i].status != Init
    ensures |Dispatched(Publishes(rs))| ==
      Flips(Statuses(rs)) + (if |rs| > 0 && rs[0].status != Up then 1 else 0)
  {
    if rs != [] {
      var r := rs[0];
      var rest := rs[1..];
      assert ChainedFrom(r.status, rest) by {
        if |rest| > 0 {
          assert rest[0] == rs[1];
          forall i | 0 < i < |rest| ensures rest[i].preStatus == rest[i - 1].status {
            assert rest[i] == rs[i + 1];
          }
        }
      }
      FlipsAfter(r.status, rest);
      assert Publishes(rs)[1..] == Publishes(rest);
      assert Statuses(rs) == [r.status] + Statuses(rest);
    }
  }

  lemma {:induction false} FlipsConstant(s: seq<Status>, x: Status)
    requires forall i :: 0 <= i < |s| ==> s[i] == x
    ensures Flips(s) == 0
  {
    if |s| >= 2 {
      FlipsConstant(s[1..], x);
    }
  }

  /**
   * Replaying the same status over and over produces at most the one
   * notification of the transition into that status.
   */
  lemma ReplayUnchanged(prev: Status, rs: seq<ProbeResult>, x: Status)
    requires ChainedFrom(prev, rs)
    requires forall i :: 0 <= i < |rs| ==> rs[i].status == x
    ensures |Dispatched(Publishes(rs))| <= 1
  {
    CountChanges(prev, rs);
    var s := Statuses(rs);
    FlipsConstant(s, x);
    if |s| > 0 {
      assert ([prev] + s)[1..] == s;
    }
  }

  /**
   * A prober starts at `Init`, then reports Up, Down, Down: the only calls are
   * one per notifier for the Up-to-Down transition.
   */
  lemma UpDownDown(base: ProbeResult, count: nat, dry: bool)
    ensures
      var up := base.(preStatus := Init, status := Up);
      var down := base.(preStatus := Up, status := Down);
      var again := base.(preStatus := Down, status := Down);
      Trace([Publish(up), Publish(down), Publish(again)], count, dry) == FanOut(count, dry, down)
  {
    var up := base.(preStatus := Init, status := Up);
    var down := base.(preStatus := Up, status := Down);
    var again := base.(preStatus := Down, status := Down);
    var es := [Publish(up), Publish(down), Publish(again)];
    assert es[1..] == [Publish(down), Publish(again)];
    assert es[1..][1..] == [Publish(again)];
    assert es[1..][1..][1..] == [];
    assert Classify(up) == InitialUp && Classify(down) == Transition && Classify(again) == Unchanged;
    assert Trace(es[1..][1..], count, dry) == [];
    assert Trace(es[1..], count, dry) == FanOut(count, dry, down);
  }

  /** One step of the channel: the trace from position `j` on. */
  lemma TraceFrom(events: seq<Event>, j: nat, count: nat, dry: bool)
    requires j < |events|
    ensures Trace(events[j..], count, dry) ==
      if events[j] == Done then [] else Batch(events[j].result, count, dry) + Trace(events[j + 1..], count, dry)
  {
    assert events[j..][0] == events[j] && events[j..][1..] == events[j + 1..];
  }

  /**
   * The dispatcher's loop. `consumed` is how many events it took off the
   * channel: up to and including the first `Done`, or all of them.
   */
  method Run(events: seq<Event>, notifies: seq<Notifier>, dry: bool)
    returns (trace: seq<Call<ProbeResult>>, consumed: nat)
    ensures trace == Trace(events, |notifies|, dry)
    ensures consumed <= |events|
    ensures Done in events ==> 0 < consumed && events[consumed - 1] == Done && Done !in events[..consumed - 1]
    ensures Done !in events ==> consumed == |events|
  {
    trace := [];
    consumed := 0;
    while consumed < |events|
      invariant consumed <= |events|
      invariant Done !in events[..consumed]
      invariant trace + Trace(events[consumed..], |notifies|, dry) == Trace(events, |notifies|, dry)
    {
      var e := events[consumed];
      TraceFrom(events, consumed, |notifies|, dry);
      assert events[..consumed + 1] == events[..consumed] + [e];
      consumed := consumed + 1;
      if e == Done {
        return;
      }
      var r := e.result;
      ghost var later := Trace(events[consumed..], |notifies|, dry);
      if r.preStatus == r.status {
        // no status change: no notification
        assert Batch(r, |notifies|, dry) + later == later;
      } else if r.preStatus == Init && r.status == Up {
        // first healthy observation: no notification
        assert Batch(r, |notifies|, dry) + later == later;
      } else {
        var calls := Broadcast(|notifies|, dry, r);
        assert calls == Batch(r, |notifies|, dry);
        trace := trace + calls;
      }
    }
    assert events[consumed..] == [];
  }
}

/**
 * Notifier fan-out. A notifier's delivery is observed only as an entry in a
 * call trace: which notifier (its index in the configured list), through
 * which path (the dry, log-only path or the live one) and with what payload
 * (one Result for a transition, the whole prober list for an SLA report).
 */
module Notify {

  /** A configured notifier; its concrete behaviour is outside the model. */
  datatype Notifier = Notifier(kind: string)

  datatype Mode = Dry | Live

  /** The path selected by the global dry flag. */
  function ModeOf(dry: bool): (m: Mode)
    ensures m == Dry <==> dry
  {
    if dry then Dry else Live
  }

  datatype Call<P> = Call(notifier: nat, mode: Mode, payload: P)

  /**
   * The calls one fan-out makes over `count` notifiers: every notifier exactly
   * once, in list order, all through the path `dry` selects, all with the
   * same payload.
   */
  function FanOut<P>(count: nat, dry: bool, payload: P): (calls: seq<Call<P>>)
    ensures |calls| == count
    ensures forall i :: 0 <= i < count ==>
      calls[i].notifier == i && calls[i].mode == ModeOf(dry) && calls[i].payload == payload
  {
    if count == 0 then [] else FanOut(count - 1, dry, payload) + [Call(count - 1, ModeOf(dry), payload)]
  }

  /**
   * The loop over the notifier list: `DryNotify`/`DryNotifyStat` when dry,
   * a detached `Notify`/`NotifyStat` when live, one per notifier in order.
   */
  method Broadcast<P>(count: nat, dry: bool, payload: P) returns (calls: seq<Call<P>>)
    ensures calls == FanOut(count, dry, payload)
  {
    calls := [];
    var i := 0;
    while i < count
      invariant i <= count
      invariant calls == FanOut(i, dry, payload)
    {
      if dry {
        calls := calls + [Call(i, Dry, payload)];
      } else {
        calls := calls + [Call(i, Live, payload)];
      }
      i := i + 1;
    }
  }

  /** The payloads notifier `i` received, in the order its calls were made. */
  function ReceivedBy<P>(calls: seq<Call<P>>, i: nat): seq<P>
  {
    if calls == [] then []
    else (if calls[0].notifier == i then [calls[0].payload] else []) + ReceivedBy(calls[1..], i)
  }

  lemma {:induction false} ReceivedByAppend<P>(a: seq<Call<P>>, b: seq<Call<P>>, i: nat)
    ensures ReceivedBy(a + b, i) == ReceivedBy(a, i) + ReceivedBy(b, i)
  {
    if a == [] {
      assert a + b == b;
    } else {
      assert (a + b)[0] == a[0] && (a + b)[1..] == a[1..] + b;
      ReceivedByAppend(a[1..], b, i);
    }
  }

  /** One fan-out reaches each listed notifier exactly once and nobody else. */
  lemma {:induction false} ReceivedByFanOut<P>(count: nat, dry: bool, payload: P, i: nat)
    ensures ReceivedBy(FanOut(count, dry, payload), i) == if i < count then [payload] else []
  {
    if count > 0 {
      var last := Call(count - 1, ModeOf(dry), payload);
      ReceivedByFanOut(count - 1, dry, payload, i);
      ReceivedByAppend(FanOut(count - 1, dry, payload), [last], i);
      assert [last][1..] == [];
    }
  }
}

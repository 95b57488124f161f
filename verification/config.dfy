/**
 * Start-up configuration of probers and notifiers. Each unit's `Config`
 * call is outside the model; its outcome is an input: `None` for success,
 * `Some(text)` for an error whose `Error()` text is `text`.
 */
module Config {
  import opened Wrappers
  import opened Probe
  import opened Notify

  const BadPrefix: string := "Bad Configuration: "
  const GoodMessage: string := "Good Configuration!"

  /** The Message a prober's Result carries after its configuration. */
  function ConfigMessage(err: Option<string>): string
  {
    match err
    case Some(e) => BadPrefix + e
    case None => GoodMessage
  }

  /** Reads a configuration error back out of a Message. */
  function ErrorOf(message: string): Option<string>
  {
    if |BadPrefix| <= |message| && message[..|BadPrefix|] == BadPrefix
    then Some(message[|BadPrefix|..])
    else None
  }

  /** The Message tells success from failure, and keeps the error text whole. */
  lemma MessageRecordsOutcome(err: Option<string>)
    ensures ErrorOf(ConfigMessage(err)) == err
  {
    match err
    case Some(e) =>
      assert (BadPrefix + e)[..|BadPrefix|] == BadPrefix;
      assert (BadPrefix + e)[|BadPrefix|..] == e;
    case None =>
      assert GoodMessage[..|BadPrefix|] != BadPrefix by {
        assert GoodMessage[0] != BadPrefix[0];
      }
  }

  /** The positions whose configuration failed (`failed`) or succeeded (`!failed`), ascending. */
  function Positions(errs: seq<Option<string>>, failed: bool): (ix: seq<nat>)
    ensures forall k :: 0 <= k < |ix| ==> ix[k] < |errs| && errs[ix[k]].Some? == failed
    ensures forall i :: 0 <= i < |errs| && errs[i].Some? == failed ==> i in ix
    ensures forall k, l :: 0 <= k < l < |ix| ==> ix[k] < ix[l]
  {
    if errs == [] then []
    else
      var n := |errs| - 1;
      Positions(errs[..n], failed) + (if errs[n].Some? == failed then [n] else [])
  }

  lemma PositionsStep(errs: seq<Option<string>>, i: nat, failed: bool)
    requires i < |errs|
    ensures Positions(errs[..i + 1], failed) ==
      Positions(errs[..i], failed) + (if errs[i].Some? == failed then [i] else [])
  {
    assert errs[..i + 1][..i] == errs[..i];
  }

  /**
   * `configProbers`: configure each prober in order; one whose `Config`
   * failed gets `"Bad Configuration: " + err` as its Message and is not
   * started, one that succeeded gets `"Good Configuration!"` and is started.
   * `started` lists the probers whose runner was launched, in list order.
   */
  method ConfigProbers(probers: seq<Prober>, errs: seq<Option<string>>) returns (started: seq<nat>)
    requires |errs| == |probers|
    requires forall i, j :: 0 <= i < j < |probers| ==> probers[i] != probers[j]
    modifies set p | p in probers
    ensures started == Positions(errs, false)
    ensures forall i :: 0 <= i < |probers| ==>
      probers[i].result == old(probers[i].result).(message := ConfigMessage(errs[i]))
  {
    started := [];
    var i := 0;
    while i < |probers|
      invariant i <= |probers|
      invariant started == Positions(errs[..i], false)
      invariant forall k :: 0 <= k < i ==>
        probers[k].result == old(probers[k].result).(message := ConfigMessage(errs[k]))
      invariant forall k :: i <= k < |probers| ==> probers[k].result == old(probers[k].result)
    {
      var p := probers[i];
      PositionsStep(errs, i, false);
      if errs[i].Some? {
        p.result := p.result.(message := BadPrefix + errs[i].value);
      } else {
        p.result := p.result.(message := GoodMessage);
        started := started + [i];
      }
      i := i + 1;
    }
    assert errs[..i] == errs;
  }

  /**
   * `configNotifiers`: configure each notifier in order and report the ones
   * that failed (they are only logged). The notifier list itself is not
   * touched, so later fan-outs still reach a notifier that failed here.
   */
  method ConfigNotifiers(notifies: seq<Notifier>, errs: seq<Option<string>>) returns (failed: seq<nat>)
    requires |errs| == |notifies|
    ensures failed == Positions(errs, true)
  {
    failed := [];
    var i := 0;
    while i < |notifies|
      invariant i <= |notifies|
      invariant failed == Positions(errs[..i], true)
    {
      PositionsStep(errs, i, true);
      if errs[i].Some? {
        failed := failed + [i];
      }
      i := i + 1;
    }
    assert errs[..i] == errs;
  }
}

/**
 * The shared data model of a probe: its status, the Result record that one
 * probe execution produces, and the Prober object that owns that record.
 */
module Probe {

  /** The statuses the dispatcher recognises; `Other` stands for any richer
      severity a concrete prober may report. */
  datatype Status = Init | Up | Down | Other(code: int)

  /** One probe outcome together with the status of the execution before it. */
  datatype ProbeResult = ProbeResult(
    name: string,
    endpoint: string,
    status: Status,
    preStatus: Status,
    message: string)

  /**
   * A configured probe. Its Result record lives as long as the prober and is
   * updated in place; `interval` is the pause between two executions, in
   * nanoseconds (a Go `time.Duration`).
   */
  class Prober {
    const kind: string
    const interval: int
    var result: ProbeResult

    /** A fresh prober starts with status `Init` before and after. */
    constructor (kind: string, interval: int, name: string, endpoint: string)
      ensures this.kind == kind && this.interval == interval
      ensures result == ProbeResult(name, endpoint, Init, Init, "")
    {
      this.kind := kind;
      this.interval := interval;
      result := ProbeResult(name, endpoint, Init, Init, "");
    }
  }
}

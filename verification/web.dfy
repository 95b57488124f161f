/**
 * The SLA web page's server set-up: the prober list it renders, the
 * normalisation of the configured listen address, and the page's
 * auto-refresh interval.
 */
module Web {
  import opened Wrappers
  import opened Probe
  import StrConv

  const DefaultHttpServerIp: string := "0.0.0.0"
  const DefaultHttpServerPort: string := "8181"
  /** One minute, in nanoseconds. */
  const DefaultProbeInterval: int := 60_000_000_000
  const NanosPerMilli: int := 1_000_000

  /** A port setting is kept when it parses as an integer in 1025 ..= 65535. */
  predicate ValidPort(port: string)
  {
    var p := StrConv.Atoi(port);
    p.Some? && 1024 < p.value <= 65535
  }

  function ResolvePort(port: string): (r: string)
  {
    if !ValidPort(port) then DefaultHttpServerPort else port
  }

  lemma DefaultPortValid()
    ensures StrConv.Atoi(DefaultHttpServerPort) == Some(8181)
  {
    assert StrConv.Itoa(8181) == DefaultHttpServerPort by {
      assert 8181 / 10 == 818 && 818 / 10 == 81 && 81 / 10 == 8;
    }
    StrConv.AtoiItoa(8181);
  }

  /**
   * The resolved port always parses into the accepted range, and a setting
   * is kept exactly when it is valid: resolving is idempotent.
   */
  lemma ResolvedPortValid(port: string)
    ensures ValidPort(ResolvePort(port))
    ensures ResolvePort(port) == port <==> ValidPort(port)
    ensures ResolvePort(ResolvePort(port)) == ResolvePort(port)
  {
    DefaultPortValid();
  }

  /** The range excludes 1024 and includes 1025. */
  lemma PortLowerBound()
    ensures ResolvePort("1024") == DefaultHttpServerPort
    ensures ResolvePort("1025") == "1025"
  {
    ParsesAs(1024, "1024");
    ParsesAs(1025, "1025");
  }

  /** The range includes 65535 and excludes 65536. */
  lemma PortUpperBound()
    ensures ResolvePort("65535") == "65535"
    ensures ResolvePort("65536") == DefaultHttpServerPort
  {
    ParsesAs(65535, "65535");
    ParsesAs(65536, "65536");
  }

  /** A leading plus sign is accepted and kept; a name is not a port. */
  lemma PortSyntax()
    ensures ResolvePort("+8080") == "+8080"
    ensures ResolvePort("http") == DefaultHttpServerPort
  {
    ParsesAs(8080, "8080");
    assert StrConv.Unsigned("+8080") == "8080";
    assert !StrConv.IsDigit("http"[0]);
  }

  lemma ParsesAs(n: nat, s: string)
    requires StrConv.Itoa(n) == s && n <= StrConv.MaxInt64
    ensures StrConv.Atoi(s) == Some(n)
  {
    StrConv.AtoiItoa(n);
  }

  /** A non-empty host that is not an IP address is replaced by the default one. */
  function ResolveHost(host: string, isIP: string -> bool): (h: string)
  {
    if |host| > 0 && !isIP(host) then DefaultHttpServerIp else host
  }

  /**
   * The resolved host is empty or an IP address, and it is the configured
   * host exactly when that host was empty or an IP address.
   */
  lemma ResolvedHost(host: string, isIP: string -> bool)
    requires isIP(DefaultHttpServerIp)
    ensures var h := ResolveHost(host, isIP); h == "" || isIP(h)
    ensures ResolveHost(host, isIP) == host <==> (host == "" || isIP(host))
    ensures ResolveHost(ResolveHost(host, isIP), isIP) == ResolveHost(host, isIP)
  {
  }

  /** Go's `Duration.Milliseconds`: integer division truncating toward zero. */
  function Milliseconds(d: int): (ms: int)
    ensures d >= 0 ==> 0 <= ms && ms * NanosPerMilli <= d < (ms + 1) * NanosPerMilli
    ensures d < 0 ==> ms <= 0 && (ms - 1) * NanosPerMilli < d <= ms * NanosPerMilli
  {
    if d >= 0 then d / NanosPerMilli else -((-d) / NanosPerMilli)
  }

  /** The refresh value written into the page: the interval in whole milliseconds, in decimal. */
  function RefreshString(d: int): string
  {
    StrConv.Itoa(Milliseconds(d))
  }

  /** The refresh string reads back as the interval's whole milliseconds. */
  lemma RefreshReadsBack(d: int)
    requires StrConv.MinInt64 <= d <= StrConv.MaxInt64
    ensures StrConv.Atoi(RefreshString(d)) == Some(Milliseconds(d))
    ensures Milliseconds(d * NanosPerMilli) == d
  {
    StrConv.AtoiItoa(Milliseconds(d));
  }

  /**
   * The automatic refresh interval: no greater than the default probe
   * interval nor than any prober's interval, and equal to one of them.
   */
  ghost predicate IsRefreshMinimum(interval: int, probers: seq<Prober>)
  {
    && interval <= DefaultProbeInterval
    && (forall k :: 0 <= k < |probers| ==> interval <= probers[k].interval)
    && (interval == DefaultProbeInterval || exists k :: 0 <= k < |probers| && interval == probers[k].interval)
  }

  /** The minimum-finding loop of the auto-refresh default. */
  method MinRefreshInterval(probers: seq<Prober>) returns (interval: int)
    ensures IsRefreshMinimum(interval, probers)
  {
    interval := DefaultProbeInterval;
    var k := 0;
    while k < |probers|
      invariant k <= |probers|
      invariant IsRefreshMinimum(interval, probers[..k])
    {
      if interval > probers[k].interval {
        interval := probers[k].interval;
      }
      assert probers[..k + 1][k] == probers[k];
      k := k + 1;
    }
    assert probers[..k] == probers;
  }

  /** The HTTP server section of the global settings, shared and updated in place. */
  class HttpServerSettings {
    var ip: string
    var port: string
    var autoRefreshTime: int

    constructor (ip: string, port: string, autoRefreshTime: int)
      ensures this.ip == ip && this.port == port && this.autoRefreshTime == autoRefreshTime
    {
      this.ip := ip;
      this.port := port;
      this.autoRefreshTime := autoRefreshTime;
    }
  }

  /** The web package's state: the prober list the pages render, unset (a nil pointer) until published. */
  class WebServer {
    var probers: Option<seq<Prober>>

    constructor ()
      ensures probers == None
    {
      probers := None;
    }

    /** Publishes the prober list to the pages. */
    method SetProbers(p: seq<Prober>)
      modifies this
      ensures probers == Some(p)
    {
      probers := Some(p);
    }

    /**
     * Normalises the listen address and, when it is unset (zero), sets the
     * auto-refresh interval to the smallest probe interval. Returns the host
     * and port the server listens on. The prober list is only read, and only
     * when the interval is unset: before it is published it is a nil pointer,
     * which the server must not dereference.
     */
    method Server(c: HttpServerSettings, isIP: string -> bool) returns (host: string, port: string)
      requires probers.Some? || c.autoRefreshTime != 0
      modifies c`autoRefreshTime
      ensures host == ResolveHost(c.ip, isIP)
      ensures port == ResolvePort(c.port)
      ensures old(c.autoRefreshTime) != 0 ==> c.autoRefreshTime == old(c.autoRefreshTime)
      ensures old(c.autoRefreshTime) == 0 ==> probers.Some? && IsRefreshMinimum(c.autoRefreshTime, probers.value)
    {
      host := c.ip;
      port := c.port;
      if |host| > 0 && !isIP(host) {
        host := DefaultHttpServerIp;
      }
      var p := StrConv.Atoi(port);
      if p.None? || p.value <= 1024 || p.value > 65535 {
        port := DefaultHttpServerPort;
      } else {
        port := c.port;
      }
      if c.autoRefreshTime == 0 {
        var interval := MinRefreshInterval(probers.value);
        c.autoRefreshTime := interval;
      }
    }
  }
}

/** The network watchdog (src/kpf/network_watchdog.py): every round it checks
    that the Kubernetes API server accepts a TCP connection and, when a local
    port is configured, that the forwarded port does too; after
    `failure_threshold` unhealthy rounds in a row it sets the restart event.
    The `kubectl config view` result and the outcome of each `connect_ex`
    are inputs. */
module Watchdog {
  import opened Wrappers
  import opened Strings
  import opened Urls
  import opened Events

  const DefaultInterval := 5
  const DefaultFailureThreshold := 2
  const DefaultApiPort := 443

  /** What one `connect_ex` gives: its error code (0 is success), or one of
      the exceptions the checks catch. */
  datatype ConnectOutcome = ConnectResult(code: int) | ConnectTimeout | DnsFailure | ConnectError

  /** The outcome of `kubectl config view --minify -o jsonpath=...server`:
      its standard output, or any exception (non-zero exit, timeout, missing
      binary). */
  datatype ConfigLookup = ConfigOutput(stdout: string) | ConfigFailed

  /** The probes one round makes, in the order it may make them. */
  datatype Probes = Probes(config: ConfigLookup, api: ConnectOutcome, local: ConnectOutcome)

  /** The `_api_server_host` / `_api_server_port` cache. */
  datatype AddressState = AddressState(host: Option<string>, port: int)

  /** `_get_api_server_address`: the new cache and the returned (host, port).
      The host is stored before the port is read, so a malformed port leaves
      the host cached while the call itself answers (None, 443). A port of 0
      reads as falsy and becomes 443. */
  function ResolveAddress(cache: AddressState, config: ConfigLookup): (AddressState, (Option<string>, int))
  {
    if cache.host.Some? then (cache, (cache.host, cache.port))
    else
      match config
      case ConfigFailed => (cache, (None, DefaultApiPort))
      case ConfigOutput(stdout) =>
        var serverUrl := Strip(stdout);
        if serverUrl == "" then (cache, (None, DefaultApiPort))
        else AddressOfNetloc(UrlParse(serverUrl).netloc, cache)
  }

  /** The cache and answer once the server URL's network location is known. */
  function AddressOfNetloc(netloc: string, cache: AddressState): (AddressState, (Option<string>, int))
  {
    var host := Hostname(netloc);
    match Port(netloc)
    case InvalidPort => (AddressState(host, cache.port), (None, DefaultApiPort))
    case NoPort => (AddressState(host, DefaultApiPort), (host, DefaultApiPort))
    case PortNumber(n) =>
      var port := if n == 0 then DefaultApiPort else n;
      (AddressState(host, port), (host, port))
  }

  /** check_api_connectivity's answer: an unknown address counts as healthy. */
  predicate ApiHealthy(address: (Option<string>, int), api: ConnectOutcome)
  {
    address.0.None? || api == ConnectResult(0)
  }

  /** check_local_port's answer: no configured port counts as healthy. */
  predicate LocalHealthy(localPort: Option<int>, local: ConnectOutcome)
  {
    localPort.None? || local == ConnectResult(0)
  }

  /** What one call of check_connectivity leaves behind: the address cache,
      whether the round is healthy, and whether the local port was probed. */
  datatype Round = Round(cache: AddressState, healthy: bool, localProbed: bool)

  /** check_connectivity: the API server is probed first; the local port is
      probed only when that passed and a port is configured. */
  function Connectivity(localPort: Option<int>, cache: AddressState, p: Probes): Round
  {
    var (newCache, address) := ResolveAddress(cache, p.config);
    if !ApiHealthy(address, p.api) then Round(newCache, false, false)
    else if localPort.None? then Round(newCache, true, false)
    else Round(newCache, LocalHealthy(localPort, p.local), true)
  }

  /** One round of `run`: the new failure counter, and whether it sets the
      restart event. */
  function CounterStep(threshold: int, failures: int, healthy: bool): (int, bool)
  {
    if healthy then (0, false)
    else if failures + 1 >= threshold then (0, true)
    else (failures + 1, false)
  }

  /** The failure counter after the rounds whose health is `hs`. */
  function Counter(threshold: int, start: int, hs: seq<bool>): int
  {
    if hs == [] then start
    else CounterStep(threshold, Counter(threshold, start, hs[..|hs| - 1]), hs[|hs| - 1]).0
  }

  /** Whether any of the rounds whose health is `hs` set the restart event. */
  predicate AnyFired(threshold: int, start: int, hs: seq<bool>)
  {
    hs != [] &&
    (AnyFired(threshold, start, hs[..|hs| - 1]) ||
     CounterStep(threshold, Counter(threshold, start, hs[..|hs| - 1]), hs[|hs| - 1]).1)
  }

  /** The address cache after the given rounds. */
  function CacheAfter(cache: AddressState, rounds: seq<Probes>): AddressState
  {
    if rounds == [] then cache
    else ResolveAddress(CacheAfter(cache, rounds[..|rounds| - 1]), rounds[|rounds| - 1].config).0
  }

  /** The health of each of the given rounds. */
  function Healths(localPort: Option<int>, cache: AddressState, rounds: seq<Probes>): (hs: seq<bool>)
    ensures |hs| == |rounds|
  {
    if rounds == [] then []
    else
      var init := rounds[..|rounds| - 1];
      Healths(localPort, cache, init) + [Connectivity(localPort, CacheAfter(cache, init), rounds[|rounds| - 1]).healthy]
  }

  class NetworkWatchdog {
    const shutdownEvent: Event
    const restartEvent: Event
    const interval: int
    const failureThreshold: int
    const localPort: Option<int>
    var consecutiveFailures: int
    var apiServerHost: Option<string>
    var apiServerPort: int

    function Cache(): AddressState
      reads this
    {
      AddressState(apiServerHost, apiServerPort)
    }

    constructor (shutdownEvent: Event, restartEvent: Event, interval: int := DefaultInterval,
                 failureThreshold: int := DefaultFailureThreshold, localPort: Option<int> := None)
      ensures this.shutdownEvent == shutdownEvent && this.restartEvent == restartEvent
      ensures this.interval == interval && this.failureThreshold == failureThreshold
      ensures this.localPort == localPort
      ensures consecutiveFailures == 0 && Cache() == AddressState(None, DefaultApiPort)
    {
      this.shutdownEvent := shutdownEvent;
      this.restartEvent := restartEvent;
      this.interval := interval;
      this.failureThreshold := failureThreshold;
      this.localPort := localPort;
      consecutiveFailures := 0;
      apiServerHost := None;
      apiServerPort := DefaultApiPort;
    }

    method GetApiServerAddress(config: ConfigLookup) returns (host: Option<string>, port: int)
      modifies this`apiServerHost, this`apiServerPort
      ensures (Cache(), (host, port)) == ResolveAddress(old(Cache()), config)
    {
      if apiServerHost.Some? {
        return apiServerHost, apiServerPort;
      }
      if config.ConfigFailed? {
        return None, DefaultApiPort;
      }
      var serverUrl := Strip(config.stdout);
      if serverUrl != "" {
        var parsed := UrlParse(serverUrl);
        apiServerHost := Hostname(parsed.netloc);
        var portField := Port(parsed.netloc);
        if portField.InvalidPort? {
          // `parsed.port` raised ValueError; the handler falls through
          return None, DefaultApiPort;
        }
        apiServerPort := if portField.PortNumber? && portField.number != 0 then portField.number else DefaultApiPort;
        return apiServerHost, apiServerPort;
      }
      return None, DefaultApiPort;
    }

    method CheckApiConnectivity(config: ConfigLookup, api: ConnectOutcome) returns (ok: bool)
      modifies this`apiServerHost, this`apiServerPort
      ensures Cache() == ResolveAddress(old(Cache()), config).0
      ensures ok == ApiHealthy(ResolveAddress(old(Cache()), config).1, api)
    {
      var host, port := GetApiServerAddress(config);
      if host.None? {
        return true;
      }
      ok := api.ConnectResult? && api.code == 0;
    }

    method CheckLocalPort(local: ConnectOutcome) returns (ok: bool)
      ensures ok == LocalHealthy(localPort, local)
    {
      if localPort.None? {
        return true;
      }
      ok := local.ConnectResult? && local.code == 0;
    }

    method CheckConnectivity(p: Probes) returns (healthy: bool, localProbed: bool)
      modifies this`apiServerHost, this`apiServerPort
      ensures Round(Cache(), healthy, localProbed) == Connectivity(localPort, old(Cache()), p)
    {
      localProbed := false;
      var apiOk := CheckApiConnectivity(p.config, p.api);
      if !apiOk {
        return false, localProbed;
      }
      if localPort.Some? {
        var localOk := CheckLocalPort(p.local);
        localProbed := true;
        if !localOk {
          return false, localProbed;
        }
      }
      return true, localProbed;
    }

    /** `run`: `rounds` are the probe results of the rounds that start before
        another thread sets the shutdown event. The watchdog itself never
        sets shutdown and never clears restart. */
    method Run(rounds: seq<Probes>)
      requires shutdownEvent != restartEvent
      modifies this, restartEvent
      ensures shutdownEvent.isSet == old(shutdownEvent.isSet)
      ensures var n := if old(shutdownEvent.isSet) then 0 else |rounds|;
        Cache() == CacheAfter(old(Cache()), rounds[..n])
      ensures var n := if old(shutdownEvent.isSet) then 0 else |rounds|;
        consecutiveFailures == Counter(failureThreshold, old(consecutiveFailures), Healths(localPort, old(Cache()), rounds[..n]))
      ensures var n := if old(shutdownEvent.isSet) then 0 else |rounds|;
        restartEvent.isSet == (old(restartEvent.isSet) ||
          AnyFired(failureThreshold, old(consecutiveFailures), Healths(localPort, old(Cache()), rounds[..n])))
    {
      ghost var cache0 := Cache();
      ghost var failures0 := consecutiveFailures;
      ghost var restart0 := restartEvent.isSet;
      ghost var n := if shutdownEvent.isSet then 0 else |rounds|;
      var i := 0;
      while i < |rounds| && !shutdownEvent.isSet
        invariant 0 <= i <= n
        invariant shutdownEvent.isSet == old(shutdownEvent.isSet)
        invariant Cache() == CacheAfter(cache0, rounds[..i])
        invariant consecutiveFailures == Counter(failureThreshold, failures0, Healths(localPort, cache0, rounds[..i]))
        invariant restartEvent.isSet == (restart0 || AnyFired(failureThreshold, failures0, Healths(localPort, cache0, rounds[..i])))
      {
        ghost var hs := Healths(localPort, cache0, rounds[..i]);
        var healthy, _ := CheckConnectivity(rounds[i]);
        RoundStep(failureThreshold, failures0, localPort, cache0, rounds, i, Cache(), healthy);
        ghost var step := CounterStep(failureThreshold, consecutiveFailures, healthy);
        if !healthy {
          consecutiveFailures := consecutiveFailures + 1;
          if consecutiveFailures >= failureThreshold {
            restartEvent.Set();
            consecutiveFailures := 0;
          }
        } else {
          consecutiveFailures := 0;
        }
        assert consecutiveFailures == step.0 && restartEvent.isSet == (restart0 || AnyFired(failureThreshold, failures0, hs) || step.1);
        i := i + 1;
      }
    }
  }

  /** How the folds over the first `i + 1` rounds extend those over the
      first `i`. */
  lemma RoundStep(threshold: int, start: int, localPort: Option<int>, cache: AddressState, rounds: seq<Probes>, i: nat,
                  after: AddressState, healthy: bool)
    requires i < |rounds|
    requires var r := Connectivity(localPort, CacheAfter(cache, rounds[..i]), rounds[i]);
      after == r.cache && healthy == r.healthy
    ensures CacheAfter(cache, rounds[..i + 1]) == after
    ensures Healths(localPort, cache, rounds[..i + 1]) == Healths(localPort, cache, rounds[..i]) + [healthy]
    ensures var hs := Healths(localPort, cache, rounds[..i]);
      var step := CounterStep(threshold, Counter(threshold, start, hs), healthy);
      && Counter(threshold, start, hs + [healthy]) == step.0
      && (AnyFired(threshold, start, hs + [healthy]) <==> AnyFired(threshold, start, hs) || step.1)
  {
    assert rounds[..i + 1][..i] == rounds[..i];
    var hs := Healths(localPort, cache, rounds[..i]);
    assert (hs + [healthy])[..|hs|] == hs;
  }

  // ---- the counter ----

  /** The number of unhealthy rounds at the end of `hs`. */
  function Trailing(hs: seq<bool>): nat
  {
    if hs == [] || hs[|hs| - 1] then 0 else 1 + Trailing(hs[..|hs| - 1])
  }

  /** The rounds up to and including round `k` end in at least `n` failures. */
  predicate RunEndsAt(hs: seq<bool>, k: nat, n: int)
    requires k < |hs|
  {
    Trailing(hs[..k + 1]) >= n
  }

  /** Some prefix of `hs` ends in at least `n` unhealthy rounds. */
  predicate SomePrefixEndsInRun(hs: seq<bool>, n: int)
  {
    exists k :: 0 <= k < |hs| && RunEndsAt(hs, k, n)
  }

  /** From a fresh counter: until the restart event fires the counter equals
      the current run of failures, it never reaches the threshold, and the
      event fires exactly once some run of failures reaches the threshold. */
  lemma {:induction false} CounterFollowsFailureRuns(n: int, hs: seq<bool>)
    requires n >= 1
    ensures 0 <= Counter(n, 0, hs) < n
    ensures !AnyFired(n, 0, hs) ==> Counter(n, 0, hs) == Trailing(hs)
    ensures AnyFired(n, 0, hs) <==> SomePrefixEndsInRun(hs, n)
  {
    if hs != [] {
      var init := hs[..|hs| - 1];
      CounterFollowsFailureRuns(n, init);
      PrefixRuns(hs, n);
    }
  }

  /** `hs` has a prefix ending in a run of `n` failures exactly when all but
      its last round do, or `hs` itself ends in one. */
  lemma PrefixRuns(hs: seq<bool>, n: int)
    requires hs != []
    ensures SomePrefixEndsInRun(hs, n) <==>
            SomePrefixEndsInRun(hs[..|hs| - 1], n) || Trailing(hs) >= n
  {
    var init := hs[..|hs| - 1];
    assert hs[..|hs|] == hs;
    forall k | 0 <= k < |init| ensures RunEndsAt(init, k, n) == RunEndsAt(hs, k, n) {
      assert init[..k + 1] == hs[..k + 1];
    }
    if Trailing(hs) >= n {
      assert RunEndsAt(hs, |hs| - 1, n);
    }
  }

  /** `Trailing(s) >= n` means the last `n` rounds of `s` all failed. */
  lemma {:induction false} TrailingMeansRun(s: seq<bool>, n: nat)
    ensures Trailing(s) >= n <==> n <= |s| && forall t :: |s| - n <= t < |s| ==> !s[t]
  {
    if n > 0 && s != [] {
      var init := s[..|s| - 1];
      TrailingMeansRun(init, n - 1);
      forall t | 0 <= t < |init| ensures init[t] == s[t] { }
    }
  }

  /** Rounds `j` to `j + n - 1` all failed. */
  predicate FailedFrom(hs: seq<bool>, j: nat, n: nat)
    requires j + n <= |hs|
  {
    forall t :: j <= t < j + n ==> !hs[t]
  }

  /** N consecutive unhealthy rounds somewhere in `hs`. */
  predicate HasFailureRun(hs: seq<bool>, n: nat)
  {
    exists j: nat :: j + n <= |hs| && FailedFrom(hs, j, n)
  }

  /** A fresh watchdog with threshold N sets the restart event if and only if
      N consecutive checks fail. */
  lemma RestartIffConsecutiveFailures(n: nat, hs: seq<bool>)
    requires n >= 1
    ensures AnyFired(n, 0, hs) <==> HasFailureRun(hs, n)
  {
    CounterFollowsFailureRuns(n, hs);
    if SomePrefixEndsInRun(hs, n) {
      var k :| 0 <= k < |hs| && RunEndsAt(hs, k, n);
      var prefix := hs[..k + 1];
      TrailingMeansRun(prefix, n);
      var j: nat := k + 1 - n;
      forall t | j <= t < j + n ensures !hs[t] {
        assert prefix[t] == hs[t];
      }
      assert FailedFrom(hs, j, n);
    }
    if HasFailureRun(hs, n) {
      var j: nat :| j + n <= |hs| && FailedFrom(hs, j, n);
      var k := j + n - 1;
      var prefix := hs[..k + 1];
      forall t | |prefix| - n <= t < |prefix| ensures !prefix[t] {
        assert prefix[t] == hs[t];
      }
      TrailingMeansRun(prefix, n);
      assert RunEndsAt(hs, k, n);
    }
  }

  /** A healthy round resets the counter and never fires. */
  lemma HealthyRoundResets(threshold: int, failures: int)
    ensures CounterStep(threshold, failures, true) == (0, false)
  {
  }

  /** The two `run` scenarios of the watchdog's tests: two failures with
      the default threshold of 2 fire; one failure followed by recovery with threshold 3
      does not. */
  lemma {:induction false} RunScenarios()
    ensures AnyFired(DefaultFailureThreshold, 0, [false, false])
    ensures !AnyFired(3, 0, [false, true, true, true, true])
  {
    RestartIffConsecutiveFailures(2, [false, false]);
    assert FailedFrom([false, false], 0, 2);
    var hs := [false, true, true, true, true];
    RestartIffConsecutiveFailures(3, hs);
    forall j: nat | j + 3 <= |hs| ensures !FailedFrom(hs, j, 3) {
      assert hs[j + 1];
    }
  }

  // ---- the API server address ----

  /** Once a host is cached, the address comes from the cache and the
      configuration is not consulted. */
  lemma CachedAddressReused(cache: AddressState, config: ConfigLookup)
    requires cache.host.Some?
    ensures ResolveAddress(cache, config) == (cache, (cache.host, cache.port))
  {
  }

  /** A failed or empty `kubectl config view` gives (None, 443) and caches
      nothing. */
  lemma FailedLookupGivesDefault(cache: AddressState, config: ConfigLookup)
    requires cache.host.None?
    requires config.ConfigFailed? || Strip(config.stdout) == ""
    ensures ResolveAddress(cache, config) == (cache, (None, DefaultApiPort))
  {
  }

  /** A server URL `https://host:port` gives that host and port. */
  lemma HttpsServerWithPort(host: string, port: nat, cache: AddressState)
    requires PlainHost(host) && 1 <= port <= 65535 && cache.host.None?
    ensures var url := "https://" + host + ":" + NatToString(port);
      ResolveAddress(cache, ConfigOutput(url)) == (AddressState(Some(host), port), (Some(host), port))
  {
    var url := "https://" + host + ":" + NatToString(port);
    assert url[0] == 'h';
    assert IsDigit(url[|url| - 1]);
    StripUnchanged(url);
    HttpsUrlWithPort(host, port);
    var netloc := UrlParse(url).netloc;
    assert AddressOfNetloc(netloc, cache) == (AddressState(Some(host), port), (Some(host), port));
  }

  /** A server URL `https://host` without a port gives port 443. */
  lemma HttpsServerWithoutPort(host: string, cache: AddressState)
    requires PlainHost(host) && cache.host.None?
    ensures ResolveAddress(cache, ConfigOutput("https://" + host)) ==
            (AddressState(Some(host), DefaultApiPort), (Some(host), DefaultApiPort))
  {
    var url := "https://" + host;
    assert url[|url| - 1] == host[|host| - 1];
    StripUnchanged(url);
    HttpsUrlWithoutPort(host);
    var netloc := UrlParse(url).netloc;
    assert AddressOfNetloc(netloc, cache) == (AddressState(Some(host), DefaultApiPort), (Some(host), DefaultApiPort));
  }

  /** A malformed port answers (None, 443) but leaves the host cached, so the
      next call answers that host with the cached port, without consulting
      the configuration. */
  lemma MalformedPortCachesHost(stdout: string, later: ConfigLookup)
    requires Strip(stdout) != ""
    requires Port(UrlParse(Strip(stdout)).netloc) == InvalidPort
    requires Hostname(UrlParse(Strip(stdout)).netloc).Some?
    ensures var (cache, first) := ResolveAddress(AddressState(None, DefaultApiPort), ConfigOutput(stdout));
      && first == (None, DefaultApiPort)
      && ResolveAddress(cache, later).1 == (Hostname(UrlParse(Strip(stdout)).netloc), DefaultApiPort)
  {
  }

  // ---- one round ----

  /** A zombie tunnel: the API server accepts connections but the forwarded
      local port does not, and the round is unhealthy. */
  lemma ZombieTunnelDetected(localPort: Option<int>, cache: AddressState, p: Probes)
    requires ResolveAddress(cache, p.config).1.0.Some? && p.api == ConnectResult(0)
    requires localPort.Some? && p.local != ConnectResult(0)
    ensures !Connectivity(localPort, cache, p).healthy
  {
  }

  /** A round is healthy exactly when the API server is unknown or
      reachable, and the local port is unconfigured or accepting. */
  lemma RoundHealthyIff(localPort: Option<int>, cache: AddressState, p: Probes)
    ensures Connectivity(localPort, cache, p).healthy <==>
      (ResolveAddress(cache, p.config).1.0.None? || p.api == ConnectResult(0)) &&
      (localPort.None? || p.local == ConnectResult(0))
  {
  }

  /** The API server is checked first: when that check fails the round is
      unhealthy and the local port is never probed; otherwise it is probed
      exactly when one is configured. */
  lemma LocalProbedOnlyAfterApi(localPort: Option<int>, cache: AddressState, p: Probes)
    ensures var r := Connectivity(localPort, cache, p);
      !ApiHealthy(ResolveAddress(cache, p.config).1, p.api) ==> !r.localProbed && !r.healthy
    ensures var r := Connectivity(localPort, cache, p);
      r.localProbed <==> ApiHealthy(ResolveAddress(cache, p.config).1, p.api) && localPort.Some?
    ensures var r := Connectivity(localPort, cache, p);
      !r.localProbed ==> (r.healthy <==> ApiHealthy(ResolveAddress(cache, p.config).1, p.api))
  {
  }
}

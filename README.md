# kpf supervisor core, modelled in Dafny

kpf wraps `kubectl port-forward`. Before it starts anything it checks the
arguments and the cluster. While the forward runs, a network watchdog
restarts it when the API server or the forwarded port stops answering. On
Ctrl+C it shuts down, gracefully the first time and by force the second.
This project models the deterministic parts of that supervisor and proves
properties of them:

- `Validators` (src/kpf/validators.py): the four pre-flight checks.
  - The checks are the `local:remote` mapping format, whether the local port
    is free, the kubectl resource syntax, and whether a service has ready
    endpoints.
  - The argument scans are methods with loops. Each is proved equal to a
    specification function, and lemmas state first-match-wins, range checks
    and the error order.
- `Watchdog` (src/kpf/network_watchdog.py): the class `NetworkWatchdog`.
  - It holds the failure counter and the API-server address cache.
  - `Run` is the monitoring loop over a sequence of probe outcomes, one per
    round.
  - Lemmas prove that a restart is requested exactly when some run of
    `failure_threshold` unhealthy rounds occurs. They also prove that the
    counter stays below the threshold, and the "zombie tunnel" rule: API up
    but local port dead is unhealthy.
- `Logger` (src/kpf/logger.py): the rate-limited debug printer `Debug`.
  - Messages are keyed by their first 50 characters, with a 2000 ms window.
  - Lemmas show that only the message's own key changes, and that two
    printed rate-limited messages with one key are at least 2000 ms apart.
- `Main` (src/kpf/main.py):
  - `get_port_forward_args` and `get_watcher_args`, including the
    `svc|service|pod|deploy|deployment/<name>` pattern;
  - the ordered validator gate;
  - the SIGINT counter, the wait loop and the shutdown decision in
    `run_port_forward`, in the class `KpfMain`;
  - the module-level `Debug.print`, which is the same rate limiter as
    `Logger` and is specified by the same function `Logger.PrintEffect`.
- `RestartTestApp` (test-pod/restart-test-app.py): the test pod's HTTP
  server.
  - Modelled parts: uptime formatting, which is proved to parse back to the
    same number of seconds; routing on the path of the request target; and
    the JSON and metrics payloads, each proved to carry the uptime.
- Support modules:
  - `Strings`: split/join, `int()` on digit strings, `str()` of naturals,
    `strip`, ASCII `lower`.
  - `Urls`: the part of `urllib.parse.urlparse`, `.hostname` and `.port`
    these files rely on.
  - `Events`: `threading.Event` as a class with one boolean.
  - `Wrappers`: `Option`.

Inputs stand in for the outside world:
- Subprocess results (`kubectl version`, `kubectl get ...`,
  `kubectl config view`) and socket outcomes (`bind`, `connect_ex`,
  timeouts and DNS errors) are parameters.
- The current-context namespace is a parameter.
- Time is an integer number of milliseconds.
- Uptime is a natural number.
- The order in which threads stop and signals arrive is a script of events.

Where the code and its documentation disagree, the model follows the code:
- `get_watcher_args` leaves the namespace unset for a trailing `-n`, and
  the run model starts the watcher that way (see Findings). The corrected
  namespace, `Main.WatcherNamespace`, is proved to agree with the code
  everywhere else.
- The validators accept `rs`/`replicaset` and upper-case kinds that the
  watcher's pattern then rejects (`Main.ValidatedButNotWatched`).
- The service validator falls back to namespace `"default"`, not to the
  current context.
- `_get_api_server_address` caches the host before it reads the port, so a
  malformed port leaves the host cached (`Watchdog.MalformedPortCachesHost`).

## Model

| member | source | states |
|---|---|---|
| `Validators.LocalPortOfIsFirstMatch` | src/kpf/validators.py:20-29 | the extracted local port is the parsed prefix of the first argument that has a ':', is not a flag and has an integer before its first ':'; None exactly when no argument qualifies |
| `Validators.ExtractLocalPort` | src/kpf/validators.py:20-29 | the scanning loop returns exactly that first qualifying port |
| `Validators.PortFormatJudgesFirstMapping` | src/kpf/validators.py:42-82 | only the first non-flag argument containing ':' is judged; with no such argument the verdict is the no-mapping failure |
| `Validators.MappingPassIff` | src/kpf/validators.py:44-70 | a mapping passes iff its first two ':' fields both parse to integers in 1..65535; later fields are ignored |
| `Validators.LocalPortCheckedFirst` | src/kpf/validators.py:55-68 | an out-of-range local port fails with the local-port error whatever the remote field holds |
| `Validators.MappingRoundTrip` | src/kpf/validators.py:44-70 | the mapping `"<local>:<remote>"` built from two naturals is a mapping argument whose fields read back as those naturals, whose extracted local port is `local`, and which passes iff both are in range |
| `Validators.ValidatePortFormat` | src/kpf/validators.py:42-82 | the loop with early returns computes the verdict of the specification function |
| `Validators.FormatPassGivesLocalPort` | src/kpf/validators.py:20-82 | when the format check passes, `extract_local_port` finds a port and it lies in 1..65535 |
| `Validators.PortAvailabilityIff` | src/kpf/validators.py:318-335 | the availability check passes iff no local port is extracted, or the port is a valid socket port that can be bound |
| `Validators.ValidatePortAvailability` | src/kpf/validators.py:318-335 | the method computes that verdict, including the uncaught out-of-range bind error |
| `Validators.ValidateKubectlCommand` | src/kpf/validators.py:85-145 | the loop over arguments gives the verdict of the specification: kubectl must answer `version`, and some non-flag `type/name` argument must name a known type (case-insensitively) and a non-empty name |
| `Validators.ResourceOfIsFirst` | src/kpf/validators.py:152-176 | the service validator's target is the first non-flag argument containing '/', split at its first '/', whatever its type |
| `Validators.ResourceOfNoneIff` | src/kpf/validators.py:164-171 | the scan finds no target exactly when no argument is a non-flag argument containing '/' |
| `Validators.NoResourceArgPasses` | src/kpf/validators.py:164-176 | when no argument is a non-flag argument containing '/', the service check passes without any lookup |
| `Validators.FindResource` | src/kpf/validators.py:152-176 | the scanning loop finds exactly that target |
| `Validators.HasReadyEndpoints` | src/kpf/validators.py:259-264 | the loop answers true iff some subset has a non-empty address list |
| `Validators.SelectorTextRoundTrip` | src/kpf/validators.py:221-222 | the label-selector text splits back, at ',' and then '=', into the service's key/value pairs |
| `Validators.ValidateServiceAndEndpoints` | src/kpf/validators.py:148-315 | the method computes the verdict and the ordered list of kubectl lookups of the specification function |
| `Validators.ServiceFailsIff` | src/kpf/validators.py:182-264 | for a service target the check fails iff the service lookup fails, the endpoints lookup fails, or parsed endpoints have no ready address; unparseable endpoint data passes |
| `Validators.OtherTargetsNeedNoLookup` | src/kpf/validators.py:176-307 | with no target, or a type other than svc/service/pod/deploy/deployment, the check passes without any lookup |
| `Validators.LookupsNameTheTarget` | src/kpf/validators.py:152-307 | every lookup the check makes is for the target's name in the namespace after the first `-n`, or "default" |
| `Watchdog.NetworkWatchdog.constructor` | src/kpf/network_watchdog.py:18-46 | a new watchdog has no failures, no cached host and port 443, and keeps its events, interval, threshold and local port (by default 5, 2 and none) |
| `Watchdog.NetworkWatchdog.GetApiServerAddress` | src/kpf/network_watchdog.py:53-91 | the new cache and the answer follow the resolution function: a cached host is reused, otherwise the server URL's host and port (or 443) are cached and returned |
| `Watchdog.NetworkWatchdog.CheckApiConnectivity` | src/kpf/network_watchdog.py:93-128 | healthy when no host is known, otherwise iff the connect result is 0; every exception reads as unhealthy |
| `Watchdog.NetworkWatchdog.CheckLocalPort` | src/kpf/network_watchdog.py:130-165 | healthy when no local port is configured, otherwise iff the connect result is 0 |
| `Watchdog.NetworkWatchdog.CheckConnectivity` | src/kpf/network_watchdog.py:167-192 | the round's health, the new cache and whether the local port was probed are those of the composition of the two probes, the API server first |
| `Watchdog.NetworkWatchdog.Run` | src/kpf/network_watchdog.py:194-220 | after the loop the counter, the cache and the restart event are those that the rounds' health sequence determines; shutdown is untouched and no round runs once shutdown is set |
| `Watchdog.RoundStep` | src/kpf/network_watchdog.py:201-218 | one loop iteration extends the health sequence by one round and advances the counter by one step |
| `Watchdog.CounterFollowsFailureRuns` | src/kpf/network_watchdog.py:202-215 | from 0 with threshold at least 1 the counter stays in [0, threshold), equals the trailing failure count while no restart fired, and restart fired iff some prefix ends in threshold failures in a row |
| `Watchdog.PrefixRuns` | src/kpf/network_watchdog.py:202-215 | a prefix ending in a run of failures exists iff one exists in the shorter sequence or the whole sequence ends in such a run |
| `Watchdog.TrailingMeansRun` | src/kpf/network_watchdog.py:202-215 | at least n trailing failures means exactly that the last n rounds all failed |
| `Watchdog.RestartIffConsecutiveFailures` | src/kpf/network_watchdog.py:202-215 | restart is requested iff threshold consecutive unhealthy rounds occur somewhere |
| `Watchdog.HealthyRoundResets` | src/kpf/network_watchdog.py:212-215 | a healthy round resets the counter to 0 and does not request a restart |
| `Watchdog.RunScenarios` | tests/test_network_watchdog.py:267-319 | two failures at the default threshold 2 restart; fail then successes at threshold 3 never restart |
| `Watchdog.CachedAddressReused` | src/kpf/network_watchdog.py:59-60 | once a host is cached it is returned without a new lookup |
| `Watchdog.FailedLookupGivesDefault` | src/kpf/network_watchdog.py:79-91 | a failed lookup or empty output returns (None, 443) and caches nothing |
| `Watchdog.HttpsServerWithPort` | src/kpf/network_watchdog.py:79-86 | `https://host:port` resolves to and caches that host and port |
| `Watchdog.HttpsServerWithoutPort` | src/kpf/network_watchdog.py:79-86 | `https://host` resolves to that host and port 443 |
| `Watchdog.MalformedPortCachesHost` | src/kpf/network_watchdog.py:81-91 | a URL with a host but a malformed port answers (None, 443) yet caches the host, which later calls return |
| `Watchdog.LocalProbedOnlyAfterApi` | src/kpf/network_watchdog.py:177-192 | a failed API check makes the round unhealthy without probing the local port; otherwise the local port is probed exactly when one is configured |
| `Watchdog.ZombieTunnelDetected` | src/kpf/network_watchdog.py:177-192 | API reachable but local port dead makes the round unhealthy |
| `Watchdog.RoundHealthyIff` | src/kpf/network_watchdog.py:177-192 | a round is healthy iff the API probe passes and, when a local port is configured, the local probe passes |
| `Urls.HttpsUrlWithPort` | src/kpf/network_watchdog.py:82-83 | `urlparse` of `https://host:port` gives hostname `host` and port `port` |
| `Urls.HttpsUrlWithoutPort` | src/kpf/network_watchdog.py:82-83 | `urlparse` of `https://host` gives hostname `host` and no port |
| `Logger.MessageKey` | src/kpf/logger.py:27 | the key is the first 50 characters: `message[..50]` for a longer message, the whole message otherwise |
| `Logger.Debug.constructor` | src/kpf/logger.py:10-13 | a new logger is disabled with no timestamps |
| `Logger.Debug.Print` | src/kpf/logger.py:15-35 | whether it prints and the new timestamp map follow the rate-limit rule; `enabled` is unchanged |
| `Logger.DisabledOrUnlimited` | src/kpf/logger.py:22-25 | disabled prints nothing and changes nothing; enabled without rate limit always prints and changes nothing |
| `Logger.OnlyOwnKeyChanges` | src/kpf/logger.py:26-33 | only the message's own key can change, only when a rate-limited message prints, and then it becomes `now` |
| `Logger.SharedWindow` | src/kpf/logger.py:27-31 | messages sharing their first 50 characters are suppressed alike |
| `Logger.StampNeverFalls` | src/kpf/logger.py:26-33 | with a clock that never goes back, a key's stamp never drops below the time of a print of it |
| `Logger.RateLimitSpacing` | src/kpf/logger.py:26-33 | two printed rate-limited messages with one key are at least 2000 ms apart |
| `Events.Event.constructor` | src/kpf/main.py:23-24 | a new event is clear |
| `Events.Event.Set` | src/kpf/network_watchdog.py:210 | setting an event makes it set |
| `Main.GetPortForwardArgs` | src/kpf/main.py:79-86 | an empty argument list is rejected (exit 1); any other list is returned unchanged |
| `Main.MatchKindsSound` | src/kpf/main.py:114-121 | a regex match yields a non-empty single-line name that follows `<kind>/` at the start of the argument |
| `Main.SlashPrefixUnique` | src/kpf/main.py:114-121 | at most one slash-free kind can prefix an argument as `<kind>/` |
| `Main.MatchKindsFirst` | src/kpf/main.py:114-121 | the first alternative that prefixes the argument and is followed by a name gives that name, up to the first newline |
| `Main.WatchedNameOfResource` | src/kpf/main.py:114-121 | `<kind>/<name>` for a watched kind and a one-line name yields exactly `name` |
| `Main.NoPrefixNoMatch` | src/kpf/main.py:114-121 | when no alternative prefixes the argument there is no match |
| `Main.NoSlashNoMatch` | src/kpf/main.py:114-121 | an argument without '/' never matches |
| `Main.OtherInitialNoMatch` | src/kpf/main.py:114-121 | an argument starting with anything but 's', 'p' or 'd' never matches |
| `Main.NothingWatched` | src/kpf/main.py:114-126 | when no argument matches there is no watched resource |
| `Main.FindWatchedResource` | src/kpf/main.py:114-121 | the loop returns the name from the first matching argument |
| `Main.TrailingNamespaceFlag` | tests/test_main.py:79-86 | for `svc/backend 9090:9090 -n` the code as written starts the watcher on `backend` with no namespace; the corrected one uses the current context |
| `Main.WatcherNamespaceCorrection` | src/kpf/main.py:100-111 | the code as written and the corrected one agree whenever the former gives a namespace, and the former gives none iff the first `-n` is the last argument |
| `Main.WatcherNamespaceMatchesValidation` | src/kpf/main.py:100-111 | with a current context of "default", the watcher's namespace as written is the validator's exactly when `-n` is not the last argument; the corrected one always is |
| `Main.GetWatcherArgs` | src/kpf/main.py:89-129 | the method gives the watch target of the specification: the namespace as written (after `-n`, the current context without `-n`, none for a trailing `-n`) and the first matching resource name, or no target (exit 1) |
| `Main.ResourceIsNotFlag` | src/kpf/main.py:100-121 | a watched `<kind>/<name>` argument is never the `-n` flag |
| `Main.WatcherArgsWithNamespace` | tests/test_main.py:31-77 | `<kind>/<name> <mapping> -n <ns>` watches `name` in `ns` |
| `Main.WatcherArgsDefaultNamespace` | tests/test_main.py:31-77 | `<kind>/<name> <mapping>` watches `name` in the current-context namespace |
| `Main.WatcherArgsWithoutResource` | src/kpf/main.py:123-126 | arguments without a resource give no watch target (exit 1) |
| `Main.RunValidators` | src/kpf/main.py:142-156 | the four validators run in order and the first failure is the verdict |
| `Main.GatePassMeans` | src/kpf/main.py:142-156 | a passing gate means a free in-range local port, a working kubectl, a known resource and a passing service check |
| `Main.PortInUseStopsFirst` | src/kpf/main.py:143-148 | a well-formed mapping whose local port is taken fails on availability before kubectl is consulted |
| `Main.ValidatedButNotWatched` | src/kpf/main.py:114-156 | a kind that the validators accept but the watcher pattern does not (e.g. rs) passes the resource check yet has no watch target |
| `Main.ReplicaSetAndUpperCaseAreKnown` | src/kpf/validators.py:104-131 | `rs` and `SVC` are known resource types after lower-casing |
| `Main.KnownToKubectl` | src/kpf/validators.py:104-131 | a non-flag `<kind>/<name>` with a known kind and a non-empty name is a known resource |
| `Main.ExitStatus` | src/kpf/main.py:132-243 | every finished run has an exit status, 0 exactly for a clean exit and 1 otherwise; only a run still waiting has none |
| `Main.KpfMain.constructor` | src/kpf/main.py:23-33 | fresh distinct clear events, debug off, no timestamps, no signals |
| `Main.KpfMain.DebugPrint` | src/kpf/main.py:35-57 | the module-level `Debug.print` follows the same rate-limit rule as the logger |
| `Main.KpfMain.SignalHandler` | src/kpf/main.py:63-76 | each SIGINT adds one to the counter; the first sets shutdown and returns, every later one exits |
| `Main.KpfMain.HandleEvent` | src/kpf/main.py:188-193 | one event of the wait loop changes the state as the step function says |
| `Main.KpfMain.WaitForThreads` | src/kpf/main.py:190-193 | the wait loop ends in the state the event script leads to, or keeps waiting with nothing changed when the script runs out first |
| `Main.KpfMain.ShutDown` | src/kpf/main.py:200-243 | the `finally` block sets shutdown, joins, and exits by force with the names of units still alive, or cleanly |
| `Main.KpfMain.RunPortForward` | src/kpf/main.py:132-243 | the outcome, signal count and shutdown flag are those of the run specification, and the watch target (with the namespace as written) is computed only after the gate passes |
| `Main.WaitOutlastsScript` | src/kpf/main.py:190-193 | the wait outlasts a script iff it starts in a waiting state and no SIGINT or unit stop occurs |
| `Main.RejectedIffGateFails` | src/kpf/main.py:142-156 | the run is rejected iff the gate fails, and with the gate's error |
| `Main.EndOfRun` | src/kpf/main.py:200-243 | every finished run leaves shutdown set; unless a Ctrl+C during the joins raises SystemExit, the exit is forced iff a thread is alive after its join (naming exactly those threads) and clean iff none is and no SystemExit is pending; the status is 0 for a clean exit and 1 otherwise |
| `Main.WaitEndsWithExitOnlyAfterTwo` | src/kpf/main.py:63-76 | an exit is pending exactly when more than one SIGINT has been counted |
| `Main.Ticks` | src/kpf/main.py:190-193 | a script of k idle ticks |
| `Main.TicksWait` | src/kpf/main.py:190-193 | idle ticks change nothing while waiting |
| `Main.OneCtrlCIsGraceful` | src/kpf/main.py:63-76 | one SIGINT with units that stop on time gives a clean exit with shutdown set and a count of 1 |
| `Main.SecondCtrlCForcesExit` | src/kpf/main.py:63-76 | a second SIGINT during the joins ends the run by interruption with a count of 2 |
| `RestartTestApp.HoursMinutesSeconds` | test-pod/restart-test-app.py:205-209 | h*3600 + m*60 + r equals the seconds, with m < 60 |
| `RestartTestApp.UnitFieldOf` | test-pod/restart-test-app.py:197-209 | a number followed by its unit letter reads back as that number |
| `RestartTestApp.SecondsRoundTrip` | test-pod/restart-test-app.py:199-200 | under a minute the text is one field that parses back to the seconds |
| `RestartTestApp.TwoFieldsRoundTrip` | test-pod/restart-test-app.py:201-204 | "Mm Ss" is two fields that parse back to 60M + S |
| `RestartTestApp.ThreeFieldsRoundTrip` | test-pod/restart-test-app.py:205-209 | "Hh Mm Ss" is three fields that parse back to 3600H + 60M + S |
| `RestartTestApp.MinutesRoundTrip` | test-pod/restart-test-app.py:201-204 | from one minute to under an hour the text is two fields and parses back to the seconds |
| `RestartTestApp.HoursRoundTrip` | test-pod/restart-test-app.py:205-209 | from an hour on the text is three fields and parses back to the seconds |
| `RestartTestApp.FormatUptimeRoundTrip` | test-pod/restart-test-app.py:197-209 | every uptime text parses back to its seconds and has 1, 2 or 3 fields by range |
| `RestartTestApp.NotFoundIffUnknownPath` | test-pod/restart-test-app.py:42-51 | status 404 iff the path is not one of "/", "/health", "/metrics", "/api/uptime"; 200 otherwise |
| `RestartTestApp.RelativeTargetPath` | test-pod/restart-test-app.py:24 | the dispatched path of a relative target is the target cut at '#', then '?', then `;params` |
| `RestartTestApp.RequestPathPlain` | test-pod/restart-test-app.py:24 | a plain absolute path is dispatched as itself |
| `RestartTestApp.QueryNotInPath` | test-pod/restart-test-app.py:24 | a query string is not part of the dispatched path |
| `RestartTestApp.QueryIgnored` | test-pod/restart-test-app.py:22-51 | adding a query string does not change the response |
| `RestartTestApp.JsonDocumentsAgree` | test-pod/restart-test-app.py:32-51 | the JSON endpoints answer 200 with the CORS header and the uptime; /health reports "healthy" and /api/uptime's human text parses back to the uptime |
| `RestartTestApp.SampleLine` | test-pod/restart-test-app.py:180-188 | the metrics sample reads the number after `app_uptime_seconds ` on the second line |
| `RestartTestApp.MetricsRoundTrip` | test-pod/restart-test-app.py:180-188 | the metrics body carries the uptime on its sample line |

## Left out

- Subprocess calls (`kubectl`), sockets (`bind`, `connect_ex`), `pkill` and `os._exit` are not performed. Their outcomes are inputs, and a forced exit is an outcome value.
- Threads are not modelled: no thread starts, daemon flags, `Event.wait` delays, join timeouts or `time.sleep` polling. The order in which things happen is an event script, and each join says only whether the unit hangs. The port forwarder or endpoint watcher setting the shutdown event while the main thread waits has no event of its own: it is expressed by the run's initial shutdown flag, which ends the wait in the same state, since every event other than a tick ends the wait too.
- A SIGINT can arrive only at the points the script allows: while waiting, and at most once during the joins. A second Ctrl+C during the joins is not modelled. Signals before the handler is registered are not modelled.
- Watchdog.NetworkWatchdog.Run: the shutdown event is read once, so shutdown set by another thread between rounds is expressed by passing fewer rounds.
- `PortForwarder`, `EndpointWatcher` and `KubernetesClient` are not part of this model. The current-context namespace is an input. `main.py` never starts the network watchdog, so the model keeps the two apart.
- src/kpf/display.py (interactive UI), src/kpf/cli.py (argument parser), scripts/audit_dependencies.py and tests/test_completions.py are not modelled. They hold no logic of the core.
- The watcher-thread tests in tests/test_main.py refer to functions that main.py does not define, so no property is taken from them.
- Floats: time is integer milliseconds (a 2.0 s window becomes 2000). Uptime is a natural number, already truncated.
- Python's `int()` is modelled on an optional sign followed by ASCII digits. Surrounding whitespace, '_' and non-ASCII digits are not accepted.
- `str.lower()` is modelled for ASCII letters only, both for resource types and for the API server's `hostname`. Every known resource type is ASCII, and the host name is used only as the target of a connection probe whose outcome is an input.
- `urllib.parse` is modelled for the forms these files see: a scheme, `//netloc`, path, `;params`, `?query` and `#fragment`. Bracketed IPv6 hosts and the stripping of control characters are not modelled.
- JSON documents are already parsed: service selectors and endpoint subsets are inputs, with an "unparseable" case. The `indent=2` text encoding of responses is not modelled; a JSON body is its list of fields.
- Presentation: rich console text, the HTML page template and debug message wording are not modelled. Errors are an enumerated kind.
- The watchdog's debug output calls a callback that the caller supplies. The effects of that callback are not modelled.
- The test app's `log_message`, `main()` and server start-up are not modelled.
- The watchdog's `interval` (default 5) only sets the sleep between rounds, so no property depends on it.

## Findings

| source | as written | input that shows it | evidently intended | confidence | as-written member | corrected member |
|---|---|---|---|---|---|---|
| src/kpf/main.py:100-111 | a trailing `-n` with no value leaves the watcher's namespace unset | `["svc/backend", "9090:9090", "-n"]` | fall back to the current-context namespace, as tests/test_main.py:79-86 expects ("default") | not executed | `Main.TrailingNamespaceFlag` | `Main.WatcherNamespaceCorrection` |

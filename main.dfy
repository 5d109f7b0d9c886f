/** The entry point (src/kpf/main.py): it validates the port-forward
    arguments in a fixed order, works out what the endpoint watcher watches,
    starts the port-forward and endpoint-watcher threads, waits until one of
    them stops or Ctrl+C is pressed, and shuts both down. Thread lifetimes,
    SIGINT arrivals and the answers of `kubectl` are inputs. */
module Main {
  import opened Wrappers
  import opened Strings
  import opened Validators
  import opened Logger
  import opened Events

  // ---- get_port_forward_args ----

  /** `None` stands for the usage message and exit status 1. */
  function GetPortForwardArgs(args: seq<string>): (r: Option<seq<string>>)
    ensures r.None? <==> args == []
    ensures r.Some? ==> r.value == args
  {
    if args == [] then None else Some(args)
  }

  // ---- get_watcher_args ----

  /** The alternatives of the pattern, in the order `re` tries them. */
  const WatchedKinds: seq<string> := ["svc", "service", "pod", "deploy", "deployment"]

  /** Group 2 of `re.match(r"(svc|service|pod|deploy|deployment)\/(.+)", arg)`,
      trying `kinds` in order: the match is anchored at the start, is case
      sensitive, and `.+` takes at least one character, stopping at a newline. */
  function MatchKinds(arg: string, kinds: seq<string>): Option<string>
  {
    if kinds == [] then None
    else
      var prefix := kinds[0] + "/";
      if prefix <= arg && |arg| > |prefix| && arg[|prefix|] != '\n' then Some(BeforeFirst(arg[|prefix|..], '\n'))
      else MatchKinds(arg, kinds[1..])
  }

  function WatchedName(arg: string): Option<string>
  {
    MatchKinds(arg, WatchedKinds)
  }

  /** Whatever the pattern matches is a non-empty name, taken from right after
      `<kind>/` for one of the watched kinds. */
  lemma {:induction false} MatchKindsSound(arg: string, kinds: seq<string>)
    requires MatchKinds(arg, kinds).Some?
    ensures var name := MatchKinds(arg, kinds).value;
      name != [] && '\n' !in name &&
      exists k :: k in kinds && k + "/" + name <= arg
  {
    var prefix := kinds[0] + "/";
    if prefix <= arg && |arg| > |prefix| && arg[|prefix|] != '\n' {
      var name := BeforeFirst(arg[|prefix|..], '\n');
      assert name[0] == arg[|prefix|];
      assert prefix + name == arg[..|prefix| + |name|];
      assert kinds[0] in kinds;
    } else {
      MatchKindsSound(arg, kinds[1..]);
      var name := MatchKinds(arg, kinds).value;
      var k :| k in kinds[1..] && k + "/" + name <= arg;
      assert k in kinds;
    }
  }

  /** Two kinds without `/` can only both be followed by `/` at the start
      of the same text when they are equal. */
  lemma SlashPrefixUnique(k1: string, k2: string, rest: string)
    requires '/' !in k1 && '/' !in k2
    requires k1 + "/" <= k2 + "/" + rest
    ensures k1 == k2
  {
    var arg := k2 + "/" + rest;
    var after := arg[|k1| + 1..];
    assert arg == k1 + "/" + after;
    IndexOfAfter(k1, '/', after);
    IndexOfAfter(k2, '/', rest);
    assert k1 == (k1 + "/")[..|k1|] == arg[..|k1|] == k2;
  }

  /** The pattern takes the first alternative that `arg` starts with. */
  lemma {:induction false} MatchKindsFirst(arg: string, kinds: seq<string>, j: nat)
    requires j < |kinds| && forall i :: 0 <= i < j ==> !(kinds[i] + "/" <= arg)
    requires kinds[j] + "/" <= arg && |arg| > |kinds[j]| + 1 && arg[|kinds[j]| + 1] != '\n'
    ensures MatchKinds(arg, kinds) == Some(BeforeFirst(arg[|kinds[j]| + 1..], '\n'))
  {
    if j > 0 {
      assert !(kinds[0] + "/" <= arg);
      forall i | 0 <= i < j - 1 ensures !(kinds[1..][i] + "/" <= arg) {
        assert kinds[1..][i] == kinds[i + 1];
      }
      MatchKindsFirst(arg, kinds[1..], j - 1);
    }
  }

  /** `<kind>/<name>` names `<name>` for every watched kind and every
      non-empty single-line name. */
  lemma WatchedNameOfResource(kind: string, name: string)
    requires kind in WatchedKinds && name != [] && '\n' !in name
    ensures WatchedName(kind + "/" + name) == Some(name)
  {
    var arg := kind + "/" + name;
    assert forall k :: k in WatchedKinds ==> '/' !in k;
    var j := IndexOfArg(WatchedKinds, kind);
    forall i | 0 <= i < j ensures !(WatchedKinds[i] + "/" <= arg) {
      if WatchedKinds[i] + "/" <= arg {
        SlashPrefixUnique(WatchedKinds[i], kind, name);
      }
    }
    assert arg[..|kind| + 1] == kind + "/";
    assert arg[|kind| + 1..] == name;
    assert arg[|kind| + 1] == name[0];
    assert BeforeFirst(name, '\n') == name;
    MatchKindsFirst(arg, WatchedKinds, j);
  }

  /** An argument that starts with none of the `<kind>/` prefixes does not
      match. */
  lemma {:induction false} NoPrefixNoMatch(arg: string, kinds: seq<string>)
    requires forall i :: 0 <= i < |kinds| ==> !(kinds[i] + "/" <= arg)
    ensures MatchKinds(arg, kinds).None?
  {
    if kinds != [] {
      assert !(kinds[0] + "/" <= arg);
      assert forall i :: 0 <= i < |kinds| - 1 ==> kinds[1..][i] == kinds[i + 1];
      NoPrefixNoMatch(arg, kinds[1..]);
    }
  }

  /** An argument without `/` never matches the pattern. */
  lemma NoSlashNoMatch(arg: string)
    requires '/' !in arg
    ensures WatchedName(arg).None?
  {
    forall i | 0 <= i < |WatchedKinds| ensures !(WatchedKinds[i] + "/" <= arg) {
      var prefix := WatchedKinds[i] + "/";
      assert prefix[|prefix| - 1] == '/';
    }
    NoPrefixNoMatch(arg, WatchedKinds);
  }

  /** Nor does one that does not start with `s`, `p` or `d` (case matters). */
  lemma OtherInitialNoMatch(arg: string)
    requires arg != [] && arg[0] != 's' && arg[0] != 'p' && arg[0] != 'd'
    ensures WatchedName(arg).None?
  {
    forall i | 0 <= i < |WatchedKinds| ensures !(WatchedKinds[i] + "/" <= arg) {
      var prefix := WatchedKinds[i] + "/";
      assert prefix[0] in "spd";
    }
    NoPrefixNoMatch(arg, WatchedKinds);
  }

  lemma {:induction false} NothingWatched(args: seq<string>)
    requires forall i :: 0 <= i < |args| ==> WatchedName(args[i]).None?
    ensures WatchedResourceOf(args).None?
  {
    if args != [] {
      assert forall i :: 0 <= i < |args| - 1 ==> args[1..][i] == args[i + 1];
      NothingWatched(args[1..]);
    }
  }

  /** The first argument the pattern matches, as the scan with `break` finds it. */
  function WatchedResourceOf(args: seq<string>): Option<string>
  {
    if args == [] then None
    else if WatchedName(args[0]).Some? then WatchedName(args[0])
    else WatchedResourceOf(args[1..])
  }

  method FindWatchedResource(args: seq<string>) returns (name: Option<string>)
    ensures name == WatchedResourceOf(args)
  {
    for i := 0 to |args|
      invariant WatchedResourceOf(args) == WatchedResourceOf(args[i..])
    {
      var matched := MatchKinds(args[i], WatchedKinds);
      if matched.Some? {
        return matched;
      }
      assert args[i..][1..] == args[i + 1..];
    }
    return None;
  }

  /** The namespace as written: the token after the first `-n`, the current
      context's namespace when there is no `-n`, and `None` when `-n` is the
      last token. */
  function WatcherNamespaceAsWritten(args: seq<string>, currentNamespace: string): Option<string>
  {
    var n := IndexOfArg(args, "-n");
    if n == |args| then Some(currentNamespace)
    else if n + 1 < |args| then Some(args[n + 1])
    else None
  }

  /** The namespace as intended: a trailing `-n` falls back to the current
      context's namespace, like a missing one. */
  function WatcherNamespace(args: seq<string>, currentNamespace: string): string
  {
    var n := IndexOfArg(args, "-n");
    if n + 1 < |args| then args[n + 1] else currentNamespace
  }

  /** The argument list the tests use for a trailing `-n`: as written the
      watcher is started with no namespace at all; corrected, it gets the
      current one. */
  lemma TrailingNamespaceFlag(currentNamespace: string)
    ensures WatcherNamespaceAsWritten(["svc/backend", "9090:9090", "-n"], currentNamespace) == None
    ensures WatchTargetOf(["svc/backend", "9090:9090", "-n"], currentNamespace) == Some(WatchTarget(None, "backend"))
    ensures WatcherNamespace(["svc/backend", "9090:9090", "-n"], currentNamespace) == currentNamespace
  {
    var args := ["svc/backend", "9090:9090", "-n"];
    assert args[0] != "-n" && args[1] != "-n" && args[2] == "-n";
    assert IndexOfArg(args, "-n") == 2;
    WatchedNameOfResource("svc", "backend");
    assert args[0] == "svc" + "/" + "backend";
  }

  /** The correction changes only the trailing `-n` case, and there the
      as-written namespace is `None`. */
  lemma WatcherNamespaceCorrection(args: seq<string>, currentNamespace: string)
    ensures WatcherNamespaceAsWritten(args, currentNamespace).Some? ==>
            WatcherNamespaceAsWritten(args, currentNamespace) == Some(WatcherNamespace(args, currentNamespace))
    ensures WatcherNamespaceAsWritten(args, currentNamespace).None? <==>
            ("-n" in args && IndexOfArg(args, "-n") == |args| - 1)
  {
  }

  /** With "default" as the current namespace, the watcher watches the
      namespace in which the service was validated, except as written for a
      trailing `-n`, where it has none; corrected, it always does. */
  lemma WatcherNamespaceMatchesValidation(args: seq<string>)
    ensures WatcherNamespaceAsWritten(args, "default") == Some(NamespaceOf(args)) <==>
            !("-n" in args && IndexOfArg(args, "-n") == |args| - 1)
    ensures WatcherNamespace(args, "default") == NamespaceOf(args)
  {
  }

  /** What the endpoint watcher is started with; `namespace` is `None` for a
      trailing `-n`. */
  datatype WatchTarget = WatchTarget(namespace: Option<string>, name: string)

  /** get_watcher_args; `None` stands for "Could not determine resource name"
      and exit status 1. */
  function WatchTargetOf(args: seq<string>, currentNamespace: string): Option<WatchTarget>
  {
    match WatchedResourceOf(args)
    case None => None
    case Some(name) => Some(WatchTarget(WatcherNamespaceAsWritten(args, currentNamespace), name))
  }

  /** `currentNamespace` is what `KubernetesClient().get_current_namespace()`
      answers; it is consulted only when there is no `-n`. */
  method GetWatcherArgs(args: seq<string>, currentNamespace: string) returns (target: Option<WatchTarget>)
    ensures target == WatchTargetOf(args, currentNamespace)
  {
    var namespace: Option<string> := None;
    var n := IndexOfArg(args, "-n");
    if n < |args| {
      if n + 1 < |args| {
        namespace := Some(args[n + 1]);
      }
    } else {
      namespace := Some(currentNamespace);
    }
    var name := FindWatchedResource(args);
    if name.None? {
      return None;
    }
    return Some(WatchTarget(namespace, name.value));
  }

  /** `<kind>/<name>` is never the flag `-n`. */
  lemma ResourceIsNotFlag(kind: string, name: string)
    requires kind in WatchedKinds
    ensures kind + "/" + name != "-n"
  {
    assert (kind + "/" + name)[0] == kind[0] != '-';
  }

  /** The shape of the tests' `svc/frontend 8080:8080 -n production`: the
      resource and the namespace after `-n`. */
  lemma WatcherArgsWithNamespace(kind: string, name: string, mapping: string, namespace: string, currentNamespace: string)
    requires kind in WatchedKinds && name != [] && '\n' !in name
    requires '/' !in mapping && mapping != "-n"
    ensures WatchTargetOf([kind + "/" + name, mapping, "-n", namespace], currentNamespace) ==
            Some(WatchTarget(Some(namespace), name))
  {
    var args := [kind + "/" + name, mapping, "-n", namespace];
    WatchedNameOfResource(kind, name);
    ResourceIsNotFlag(kind, name);
    assert args[0] != "-n" && args[1] != "-n" && args[2] == "-n";
    assert IndexOfArg(args, "-n") == 2;
  }

  /** The shape of `deployment/my-deploy 8080:8080`: without `-n` the
      current context's namespace is watched. */
  lemma WatcherArgsDefaultNamespace(kind: string, name: string, mapping: string, currentNamespace: string)
    requires kind in WatchedKinds && name != [] && '\n' !in name
    requires '/' !in mapping && mapping != "-n"
    ensures WatchTargetOf([kind + "/" + name, mapping], currentNamespace) ==
            Some(WatchTarget(Some(currentNamespace), name))
  {
    var args := [kind + "/" + name, mapping];
    WatchedNameOfResource(kind, name);
    ResourceIsNotFlag(kind, name);
    assert "-n" !in args;
  }

  /** Without a resource argument there is no watch target. */
  lemma WatcherArgsWithoutResource(mapping: string, namespace: string, currentNamespace: string)
    requires '/' !in mapping && '/' !in namespace
    ensures WatchTargetOf([mapping, "-n", namespace], currentNamespace).None?
  {
    var args := [mapping, "-n", namespace];
    NoSlashNoMatch(args[0]);
    NoSlashNoMatch(args[1]);
    NoSlashNoMatch(args[2]);
    NothingWatched(args);
  }

  // ---- the validation gate of run_port_forward ----

  /** The outside answers the four validators get: the ports that cannot be
      bound, the outcome of `kubectl version --client`, and the cluster. */
  datatype Preflight = Preflight(unbindable: set<int>, kubectlVersion: CommandOutcome, cluster: Cluster)

  /** Format, then availability, then kubectl, then service; the first
      failure ends the run with exit status 1. */
  function Gate(args: seq<string>, pre: Preflight): Verdict
  {
    var format := PortFormatVerdict(args);
    if format.Fail? then format
    else
      var availability := PortAvailabilityVerdict(args, pre.unbindable);
      if availability.Fail? then availability
      else
        var kubectl := KubectlVerdict(args, pre.kubectlVersion);
        if kubectl.Fail? then kubectl
        else ServiceValidation(args, pre.cluster).0
  }

  /** The four validators of run_port_forward, run in order until one fails. */
  method RunValidators(args: seq<string>, pre: Preflight) returns (verdict: Verdict)
    ensures verdict == Gate(args, pre)
  {
    verdict := ValidatePortFormat(args);
    if verdict.Fail? {
      return;
    }
    verdict := ValidatePortAvailability(args, pre.unbindable);
    if verdict.Fail? {
      return;
    }
    verdict := ValidateKubectlCommand(args, pre.kubectlVersion);
    if verdict.Fail? {
      return;
    }
    var lookups;
    verdict, lookups := ValidateServiceAndEndpoints(args, pre.cluster);
  }

  /** Arguments that pass the gate name a local port in 1..65535 that can be
      bound, a resource kubectl knows, and a target whose lookups succeeded. */
  lemma GatePassMeans(args: seq<string>, pre: Preflight)
    requires Gate(args, pre) == Pass
    ensures LocalPortOf(args).Some?
    ensures InPortRange(LocalPortOf(args).value) && LocalPortOf(args).value !in pre.unbindable
    ensures pre.kubectlVersion == Exited(0) && HasKnownResource(args)
    ensures ServiceValidation(args, pre.cluster).0 == Pass
  {
    FormatPassGivesLocalPort(args);
  }

  /** A gate failure is the first failing validator's: with the local port
      in use, `svc/<name> <local>:<remote> -n <namespace>` stops at the
      availability check, before kubectl or the cluster is asked anything. */
  lemma PortInUseStopsFirst(name: string, namespace: string, local: nat, remote: nat, pre: Preflight)
    requires ':' !in name && InPortRange(local) && InPortRange(remote) && local in pre.unbindable
    ensures var args := ["svc/" + name, NatToString(local) + ":" + NatToString(remote), "-n", namespace];
      Gate(args, pre) == Fail(PortInUse(local))
  {
    var args := ["svc/" + name, NatToString(local) + ":" + NatToString(remote), "-n", namespace];
    MappingRoundTrip(local, remote);
    assert ':' !in args[0] by {
      assert forall k :: 0 <= k < |args[0]| ==> args[0][k] != ':' by {
        forall k | 0 <= k < |args[0]| ensures args[0][k] != ':' {
          if k >= 4 { assert args[0][k] == name[k - 4]; }
        }
      }
    }
    assert !IsMappingArg(args[0]) && LocalPortIn(args[0]).None?;
    assert PortFormatVerdict(args) == MappingVerdict(args[1]);
    assert LocalPortOf(args) == Some(local as int);
  }

  /** The kubectl check accepts resource types the watcher's pattern does not
      match: a kind that passes it but starts with neither `s`, `p` nor `d`
      (`rs`, `replicaset`, `SVC`) passes validation, and the run then stops
      for want of a watch target. */
  lemma ValidatedButNotWatched(kind: string, name: string, mapping: string, currentNamespace: string)
    requires '/' !in kind && kind != [] && kind[0] !in "-spd" && name != []
    requires AsciiLower(kind) in ResourceTypes && '/' !in mapping
    ensures HasKnownResource([kind + "/" + name, mapping])
    ensures WatchTargetOf([kind + "/" + name, mapping], currentNamespace).None?
  {
    var args := [kind + "/" + name, mapping];
    KnownToKubectl(kind, name);
    assert NamesKnownResource(args[0]);
    assert args[0][0] == kind[0];
    OtherInitialNoMatch(args[0]);
    NoSlashNoMatch(args[1]);
    NothingWatched(args);
  }

  /** `rs` and `SVC` are such kinds. */
  lemma ReplicaSetAndUpperCaseAreKnown()
    ensures AsciiLower("rs") in ResourceTypes && AsciiLower("SVC") in ResourceTypes
  {
    assert AsciiLower("rs") == "rs";
    assert AsciiLower("SVC") == "svc" by {
      assert LowerChar('S') == 's' && LowerChar('V') == 'v' && LowerChar('C') == 'c';
    }
  }

  /** `<kind>/<name>` passes the kubectl check when `kind`, lower-cased, is
      one of its resource types. */
  lemma KnownToKubectl(kind: string, name: string)
    requires '/' !in kind && kind != [] && kind[0] != '-' && name != []
    requires AsciiLower(kind) in ResourceTypes
    ensures NamesKnownResource(kind + "/" + name)
  {
    var arg := kind + "/" + name;
    assert arg == kind + ['/'] + name;
    IndexOfAfter(kind, '/', name);
    assert arg[..|kind|] == kind;
    assert arg[|kind| + 1..] == name;
    assert arg[0] == kind[0];
  }

  // ---- waiting for the threads ----

  /** What can happen while the main thread sleeps between polls. */
  datatype WaitEvent = Tick | Sigint | ForwarderStops | WatcherStops

  /** The state the wait loop polls, plus a pending SystemExit raised by a
      second Ctrl+C in the signal handler. */
  datatype WaitState = WaitState(forwarderAlive: bool, watcherAlive: bool, shutdown: bool, sigints: int, exitPending: bool)

  predicate KeepWaiting(s: WaitState)
  {
    s.forwarderAlive && s.watcherAlive && !s.shutdown && !s.exitPending
  }

  /** `_signal_handler`: the first Ctrl+C sets the shutdown event, any later
      one raises SystemExit(1). */
  function OnSigint(s: WaitState): WaitState
  {
    var count := s.sigints + 1;
    s.(sigints := count, shutdown := s.shutdown || count == 1, exitPending := s.exitPending || count != 1)
  }

  function Apply(s: WaitState, e: WaitEvent): WaitState
  {
    match e
    case Tick => s
    case Sigint => OnSigint(s)
    case ForwarderStops => s.(forwarderAlive := false)
    case WatcherStops => s.(watcherAlive := false)
  }

  /** The wait loop over an event script: the state when the loop ends, or
      `None` when the script runs out while the loop still waits. */
  function WaitFrom(s: WaitState, script: seq<WaitEvent>): Option<WaitState>
    decreases |script|
  {
    if !KeepWaiting(s) then Some(s)
    else if script == [] then None
    else WaitFrom(Apply(s, script[0]), script[1..])
  }

  /** How a run of run_port_forward ends. */
  datatype RunOutcome =
    | Rejected(error: ValidationError)     // a validator failed: exit status 1
    | NoWatchTarget                        // get_watcher_args found no resource: exit status 1
    | StillWaiting                         // the event script ended with both threads running
    | Interrupted                          // SystemExit(1) from a second Ctrl+C
    | ForcedExit(threadsAlive: seq<string>) // `pkill`, then `os._exit(1)`
    | CleanExit                            // both threads stopped: "[Main] Exiting."

  datatype RunResult = RunResult(outcome: RunOutcome, sigints: int, shutdown: bool)

  /** The names of the threads still alive after the joins, in report order. */
  function ThreadsAlive(forwarderAlive: bool, watcherAlive: bool): seq<string>
  {
    (if forwarderAlive then ["port-forward"] else []) + (if watcherAlive then ["endpoint-watcher"] else [])
  }

  /** The `finally` block: set shutdown, join each thread for 3 seconds (a
      thread that `hangs` outlives its join), report the survivors. A Ctrl+C
      during the joins that is not the first aborts the block. */
  function Finish(s: WaitState, forwarderHangs: bool, watcherHangs: bool, sigintDuringJoin: bool): RunResult
  {
    var count := if sigintDuringJoin then s.sigints + 1 else s.sigints;
    if sigintDuringJoin && count != 1 then RunResult(Interrupted, count, true)
    else
      var alive := ThreadsAlive(s.forwarderAlive && forwarderHangs, s.watcherAlive && watcherHangs);
      if alive != [] then RunResult(ForcedExit(alive), count, true)
      else if s.exitPending then RunResult(Interrupted, count, true)
      else RunResult(CleanExit, count, true)
  }

  /** run_port_forward from the given shutdown flag and SIGINT count. */
  function RunSpec(args: seq<string>, pre: Preflight, currentNamespace: string, shutdown: bool, sigints: int,
                   script: seq<WaitEvent>, forwarderHangs: bool, watcherHangs: bool, sigintDuringJoin: bool): RunResult
  {
    var gate := Gate(args, pre);
    if gate.Fail? then RunResult(Rejected(gate.error), sigints, shutdown)
    else if WatchTargetOf(args, currentNamespace).None? then RunResult(NoWatchTarget, sigints, shutdown)
    else
      match WaitFrom(WaitState(true, true, shutdown, sigints, false), script)
      case None => RunResult(StillWaiting, sigints, shutdown)
      case Some(s) => Finish(s, forwarderHangs, watcherHangs, sigintDuringJoin)
  }

  /** The exit status of a finished run. */
  function ExitStatus(o: RunOutcome): (code: Option<int>)
    ensures code.None? <==> o.StillWaiting?
    ensures code == Some(0) <==> o.CleanExit?
    ensures code.Some? && code != Some(0) ==> code == Some(1)
  {
    match o
    case StillWaiting => None
    case CleanExit => Some(0)
    case _ => Some(1)
  }

  /** The module-level state of main.py: the two events, the debug flag and
      timestamp table of its own copy of the debug logger, and the SIGINT
      count. */
  class KpfMain {
    const restartEvent: Event
    const shutdownEvent: Event
    var debugEnabled: bool
    var debugTimestamps: map<string, int>
    var sigintCount: int

    constructor ()
      ensures fresh(restartEvent) && fresh(shutdownEvent) && restartEvent != shutdownEvent
      ensures !restartEvent.isSet && !shutdownEvent.isSet
      ensures !debugEnabled && debugTimestamps == map[] && sigintCount == 0
    {
      restartEvent := new Event();
      shutdownEvent := new Event();
      debugEnabled := false;
      debugTimestamps := map[];
      sigintCount := 0;
    }

    /** main.py's `Debug.print`: the same rate limiter as the logger module,
        over the module-level flag and table. */
    method DebugPrint(message: string, rateLimit: bool, now: int) returns (printed: bool)
      modifies this`debugTimestamps
      ensures Emission(printed, debugTimestamps) == PrintEffect(debugEnabled, old(debugTimestamps), message, rateLimit, now)
    {
      if !debugEnabled {
        return false;
      }
      if rateLimit {
        var messageKey := Take(message, 50);
        var lastTime := if messageKey in debugTimestamps then debugTimestamps[messageKey] else 0;
        if now - lastTime < MessageInterval {
          return false;
        }
        debugTimestamps := debugTimestamps[messageKey := now];
      }
      return true;
    }

    /** `_signal_handler`; `exitRaised` is the SystemExit(1) of `sys.exit(1)`. */
    method SignalHandler() returns (exitRaised: bool)
      modifies this`sigintCount, shutdownEvent
      ensures sigintCount == old(sigintCount) + 1
      ensures exitRaised <==> sigintCount != 1
      ensures shutdownEvent.isSet == (old(shutdownEvent.isSet) || sigintCount == 1)
    {
      sigintCount := sigintCount + 1;
      if sigintCount == 1 {
        shutdownEvent.Set();
        exitRaised := false;
      } else {
        exitRaised := true;
      }
    }

    /** One event of the wait loop: a Ctrl+C runs the signal handler, a
        thread that stops is no longer alive. */
    method HandleEvent(e: WaitEvent, forwarderAlive: bool, watcherAlive: bool, exitPending: bool)
      returns (forwarderAlive': bool, watcherAlive': bool, exitPending': bool)
      modifies this`sigintCount, shutdownEvent
      ensures WaitState(forwarderAlive', watcherAlive', shutdownEvent.isSet, sigintCount, exitPending') ==
              Apply(WaitState(forwarderAlive, watcherAlive, old(shutdownEvent.isSet), old(sigintCount), exitPending), e)
    {
      forwarderAlive', watcherAlive', exitPending' := forwarderAlive, watcherAlive, exitPending;
      match e {
        case Tick =>
        case Sigint =>
          var raised := SignalHandler();
          exitPending' := exitPending || raised;
        case ForwarderStops =>
          forwarderAlive' := false;
        case WatcherStops =>
          watcherAlive' := false;
      }
    }

    /** run_port_forward. `script` is what happens while the main thread
        waits; `forwarderHangs`/`watcherHangs` say whether a thread still
        running outlives its 3-second join; `sigintDuringJoin` is a Ctrl+C
        arriving during the joins. `target` is what the endpoint watcher is
        started with. */
    method RunPortForward(args: seq<string>, debugMode: bool, pre: Preflight, currentNamespace: string,
                          script: seq<WaitEvent>, forwarderHangs: bool, watcherHangs: bool, sigintDuringJoin: bool)
      returns (outcome: RunOutcome, target: Option<WatchTarget>)
      requires restartEvent != shutdownEvent
      modifies this, shutdownEvent
      ensures debugEnabled == debugMode && debugTimestamps == old(debugTimestamps)
      ensures var r := RunSpec(args, pre, currentNamespace, old(shutdownEvent.isSet), old(sigintCount),
                               script, forwarderHangs, watcherHangs, sigintDuringJoin);
        outcome == r.outcome && sigintCount == r.sigints && shutdownEvent.isSet == r.shutdown
      ensures target == if Gate(args, pre).Pass? then WatchTargetOf(args, currentNamespace) else None
    {
      debugEnabled := debugMode;
      target := None;
      var verdict := RunValidators(args, pre);
      if verdict.Fail? {
        return Rejected(verdict.error), target;
      }
      target := GetWatcherArgs(args, currentNamespace);
      if target.None? {
        return NoWatchTarget, target;
      }

      // both threads are started; the signal handler is registered
      var forwarderAlive, watcherAlive, exitPending, finished := WaitForThreads(script);
      if !finished {
        return StillWaiting, target;
      }
      outcome := ShutDown(forwarderAlive, watcherAlive, exitPending, forwarderHangs, watcherHangs, sigintDuringJoin);
    }

    /** The `while` loop of run_port_forward: polls until a thread stops, the
        shutdown event is set or a SystemExit is raised; `finished` is false
        when the script runs out first. */
    method WaitForThreads(script: seq<WaitEvent>)
      returns (forwarderAlive: bool, watcherAlive: bool, exitPending: bool, finished: bool)
      modifies this`sigintCount, shutdownEvent
      ensures match WaitFrom(WaitState(true, true, old(shutdownEvent.isSet), old(sigintCount), false), script)
        case None => !finished && sigintCount == old(sigintCount) && shutdownEvent.isSet == old(shutdownEvent.isSet)
        case Some(s) => finished && s == WaitState(forwarderAlive, watcherAlive, shutdownEvent.isSet, sigintCount, exitPending)
    {
      forwarderAlive, watcherAlive, exitPending := true, true, false;
      ghost var start := WaitState(true, true, shutdownEvent.isSet, sigintCount, false);
      var i := 0;
      while forwarderAlive && watcherAlive && !shutdownEvent.isSet && !exitPending && i < |script|
        invariant 0 <= i <= |script|
        decreases |script| - i
        invariant WaitFrom(start, script) ==
                  WaitFrom(WaitState(forwarderAlive, watcherAlive, shutdownEvent.isSet, sigintCount, exitPending), script[i..])
        invariant forwarderAlive && watcherAlive && !shutdownEvent.isSet && !exitPending ==>
                  sigintCount == start.sigints && shutdownEvent.isSet == start.shutdown
      {
        assert script[i..][1..] == script[i + 1..];
        forwarderAlive, watcherAlive, exitPending := HandleEvent(script[i], forwarderAlive, watcherAlive, exitPending);
        i := i + 1;
      }
      finished := !(forwarderAlive && watcherAlive && !shutdownEvent.isSet && !exitPending);
    }

    /** The `finally` block of run_port_forward: sets the shutdown event, joins
        both threads (a Ctrl+C may arrive meanwhile) and chooses between a
        forced and a clean exit. */
    method ShutDown(forwarderAlive: bool, watcherAlive: bool, exitPending: bool,
                    forwarderHangs: bool, watcherHangs: bool, sigintDuringJoin: bool) returns (outcome: RunOutcome)
      modifies this`sigintCount, shutdownEvent
      ensures RunResult(outcome, sigintCount, shutdownEvent.isSet) ==
              Finish(WaitState(forwarderAlive, watcherAlive, old(shutdownEvent.isSet), old(sigintCount), exitPending),
                     forwarderHangs, watcherHangs, sigintDuringJoin)
    {
      shutdownEvent.Set();
      if sigintDuringJoin {
        var raised := SignalHandler();
        if raised {
          return Interrupted;
        }
      }
      var forwarderStillAlive := forwarderAlive && forwarderHangs;
      var watcherStillAlive := watcherAlive && watcherHangs;
      var threadsAlive: seq<string> := [];
      if forwarderStillAlive {
        threadsAlive := threadsAlive + ["port-forward"];
      }
      if watcherStillAlive {
        threadsAlive := threadsAlive + ["endpoint-watcher"];
      }
      assert threadsAlive == ThreadsAlive(forwarderStillAlive, watcherStillAlive);
      if threadsAlive != [] {
        return ForcedExit(threadsAlive);
      }
      if exitPending {
        return Interrupted;
      }
      return CleanExit;
    }
  }

  /** The wait loop outlasts its script only when no Ctrl+C arrived and
      neither thread stopped: each of those ends the wait. */
  lemma {:induction false} WaitOutlastsScript(s: WaitState, script: seq<WaitEvent>)
    ensures WaitFrom(s, script).None? <==>
            KeepWaiting(s) && Sigint !in script && ForwarderStops !in script && WatcherStops !in script
    decreases |script|
  {
    if KeepWaiting(s) && script != [] {
      WaitOutlastsScript(Apply(s, script[0]), script[1..]);
      assert script == [script[0]] + script[1..];
    }
  }

  // ---- properties of a run ----

  /** A run is rejected exactly when the gate fails, with the gate's error. */
  lemma RejectedIffGateFails(args: seq<string>, pre: Preflight, ns: string, shutdown: bool, sigints: int,
                             script: seq<WaitEvent>, fh: bool, wh: bool, sj: bool)
    ensures var o := RunSpec(args, pre, ns, shutdown, sigints, script, fh, wh, sj).outcome;
      o.Rejected? <==> Gate(args, pre).Fail?
    ensures var o := RunSpec(args, pre, ns, shutdown, sigints, script, fh, wh, sj).outcome;
      o.Rejected? ==> Gate(args, pre) == Fail(o.error)
  {
  }

  /** Once the threads were started and the wait is over, the shutdown event
      is set. Unless a Ctrl+C during the joins raises SystemExit, the exit is
      forced (status 1) exactly when a thread is still alive after its join,
      naming those threads, and clean (status 0) exactly when none is and no
      SystemExit is pending from the wait. */
  lemma EndOfRun(args: seq<string>, pre: Preflight, ns: string, shutdown: bool, sigints: int,
                 script: seq<WaitEvent>, fh: bool, wh: bool, sj: bool)
    requires Gate(args, pre).Pass? && WatchTargetOf(args, ns).Some?
    requires WaitFrom(WaitState(true, true, shutdown, sigints, false), script).Some?
    ensures var r := RunSpec(args, pre, ns, shutdown, sigints, script, fh, wh, sj);
      r.shutdown && (sigints == 0 && r.outcome.CleanExit? ==> r.sigints <= 1)
    ensures var r := RunSpec(args, pre, ns, shutdown, sigints, script, fh, wh, sj);
      var s := WaitFrom(WaitState(true, true, shutdown, sigints, false), script).value;
      var survivors := ThreadsAlive(s.forwarderAlive && fh, s.watcherAlive && wh);
      var joinsInterrupted := sj && s.sigints != 0;
      && (r.outcome.ForcedExit? <==> !joinsInterrupted && survivors != [])
      && (r.outcome.ForcedExit? ==> r.outcome.threadsAlive == survivors)
      && (r.outcome.CleanExit? <==> !joinsInterrupted && survivors == [] && !s.exitPending)
    ensures var r := RunSpec(args, pre, ns, shutdown, sigints, script, fh, wh, sj);
      ExitStatus(r.outcome) == Some(if r.outcome.CleanExit? then 0 else 1)
  {
    if sigints == 0 {
      WaitEndsWithExitOnlyAfterTwo(WaitState(true, true, shutdown, sigints, false), script);
    }
  }

  /** From a fresh count, the wait loop has a SystemExit pending exactly
      when more than one SIGINT arrived. */
  lemma {:induction false} WaitEndsWithExitOnlyAfterTwo(s: WaitState, script: seq<WaitEvent>)
    requires s.sigints >= 0 && (s.exitPending <==> s.sigints > 1)
    requires WaitFrom(s, script).Some?
    ensures WaitFrom(s, script).value.exitPending <==> WaitFrom(s, script).value.sigints > 1
    decreases |script|
  {
    if KeepWaiting(s) {
      WaitEndsWithExitOnlyAfterTwo(Apply(s, script[0]), script[1..]);
    }
  }

  function Ticks(k: nat): (ts: seq<WaitEvent>)
    ensures |ts| == k && forall i :: 0 <= i < k ==> ts[i] == Tick
  {
    if k == 0 then [] else [Tick] + Ticks(k - 1)
  }

  /** Polls change nothing while both threads run. */
  lemma {:induction false} TicksWait(s: WaitState, k: nat, rest: seq<WaitEvent>)
    requires KeepWaiting(s)
    ensures WaitFrom(s, Ticks(k) + rest) == WaitFrom(s, rest)
  {
    if k > 0 {
      assert (Ticks(k) + rest)[0] == Tick;
      assert (Ticks(k) + rest)[1..] == Ticks(k - 1) + rest;
      TicksWait(s, k - 1, rest);
    } else {
      assert Ticks(k) + rest == rest;
    }
  }

  /** One Ctrl+C while both threads run, threads that stop within their
      joins, no second Ctrl+C: the run ends cleanly with one SIGINT seen. */
  lemma OneCtrlCIsGraceful(args: seq<string>, pre: Preflight, ns: string, k: nat, rest: seq<WaitEvent>)
    requires Gate(args, pre).Pass? && WatchTargetOf(args, ns).Some?
    ensures RunSpec(args, pre, ns, false, 0, Ticks(k) + [Sigint] + rest, false, false, false) ==
            RunResult(CleanExit, 1, true)
  {
    var s := WaitState(true, true, false, 0, false);
    assert Ticks(k) + [Sigint] + rest == Ticks(k) + ([Sigint] + rest);
    TicksWait(s, k, [Sigint] + rest);
    assert ([Sigint] + rest)[1..] == rest;
  }

  /** A second Ctrl+C during the joins ends the run with status 1 whether
      or not the threads stop. */
  lemma SecondCtrlCForcesExit(args: seq<string>, pre: Preflight, ns: string, k: nat, rest: seq<WaitEvent>, fh: bool, wh: bool)
    requires Gate(args, pre).Pass? && WatchTargetOf(args, ns).Some?
    ensures RunSpec(args, pre, ns, false, 0, Ticks(k) + [Sigint] + rest, fh, wh, true) ==
            RunResult(Interrupted, 2, true)
  {
    var s := WaitState(true, true, false, 0, false);
    assert Ticks(k) + [Sigint] + rest == Ticks(k) + ([Sigint] + rest);
    TicksWait(s, k, [Sigint] + rest);
    assert ([Sigint] + rest)[1..] == rest;
  }
}

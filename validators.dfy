/** Pre-flight validation of the `kubectl port-forward` arguments
    (src/kpf/validators.py). Each validator scans the argument list and
    answers pass or fail; every `kubectl` run and every socket call is an
    input outcome rather than a side effect. */
module Validators {
  import opened Wrappers
  import opened Strings

  /** How an external command ended, as `subprocess.run` reports it. */
  datatype CommandOutcome =
    | Exited(returnCode: int)   // it ran and returned this code
    | TimedOut                  // `subprocess.TimeoutExpired`
    | NotInstalled              // `FileNotFoundError`: the binary is not on PATH
    | Raised                    // any other exception

  /** Why a validator failed: one kind per diagnostic the source prints. */
  datatype ValidationError =
    | InvalidPortFormat(arg: string)
    | LocalPortOutOfRange(port: int)
    | RemotePortOutOfRange(port: int)
    | NoPortMapping
    | PortInUse(port: int)
    | PortOutsideSocketRange(port: int)   // `bind` raises an uncaught OverflowError
    | KubectlNotWorking(returnCode: int)
    | KubectlTimedOut
    | KubectlNotFound
    | KubectlCheckFailed
    | NoValidResource
    | ServiceNotFound(service: string, namespace: string)
    | NoEndpoints(service: string, namespace: string)
    | NoReadyEndpoints(service: string, namespace: string, selector: string)
    | WorkloadNotFound(kind: string, name: string, namespace: string)
    | LookupTimedOut
    | LookupFailed

  datatype Verdict = Pass | Fail(error: ValidationError)

  predicate InPortRange(port: int)
  {
    1 <= port <= 65535
  }

  predicate IsFlag(arg: string)
  {
    "-" <= arg
  }

  /** An argument the port scans look at: holds `:` and is not a flag. */
  predicate IsMappingArg(arg: string)
  {
    ':' in arg && !IsFlag(arg)
  }

  /** An argument the resource scans look at: holds `/` and is not a flag. */
  predicate IsResourceArg(arg: string)
  {
    '/' in arg && !IsFlag(arg)
  }

  // ---- extract_local_port ----

  /** The local port `arg` yields to extract_local_port, if it yields one. */
  function LocalPortIn(arg: string): Option<int>
  {
    if IsMappingArg(arg) then ParseInt(BeforeFirst(arg, ':')) else None
  }

  /** The local port of the first argument that yields one. */
  function LocalPortOf(args: seq<string>): Option<int>
  {
    if args == [] then None
    else if LocalPortIn(args[0]).Some? then LocalPortIn(args[0])
    else LocalPortOf(args[1..])
  }

  predicate NoLocalPortBefore(args: seq<string>, i: nat)
    requires i <= |args|
  {
    forall j :: 0 <= j < i ==> LocalPortIn(args[j]).None?
  }

  /** LocalPortOf is a first-match scan: it yields the port of the first
      argument that has one, skipping arguments whose prefix does not parse,
      and nothing when no argument qualifies. */
  lemma {:induction false} LocalPortOfIsFirstMatch(args: seq<string>)
    ensures LocalPortOf(args).None? <==> NoLocalPortBefore(args, |args|)
    ensures forall i :: 0 <= i < |args| && LocalPortIn(args[i]).Some? && NoLocalPortBefore(args, i)
                        ==> LocalPortOf(args) == LocalPortIn(args[i])
  {
    if args != [] {
      LocalPortOfIsFirstMatch(args[1..]);
      forall i | 0 < i <= |args| && NoLocalPortBefore(args, i)
        ensures NoLocalPortBefore(args[1..], i - 1)
      {
        forall j | 0 <= j < i - 1 ensures LocalPortIn(args[1..][j]).None? {
          assert args[1..][j] == args[j + 1];
        }
      }
      if LocalPortIn(args[0]).None? {
        forall i | 0 < i <= |args| && NoLocalPortBefore(args[1..], i - 1)
          ensures NoLocalPortBefore(args, i)
        {
          forall j | 0 < j < i ensures LocalPortIn(args[j]).None? {
            assert args[j] == args[1..][j - 1];
          }
        }
        forall i | 0 < i < |args| ensures args[1..][i - 1] == args[i] { }
      }
    }
  }

  method ExtractLocalPort(args: seq<string>) returns (port: Option<int>)
    ensures port == LocalPortOf(args)
  {
    for i := 0 to |args|
      invariant LocalPortOf(args) == LocalPortOf(args[i..])
    {
      var arg := args[i];
      if ':' in arg && !IsFlag(arg) {
        var parsed := ParseInt(BeforeFirst(arg, ':'));
        if parsed.Some? {
          return parsed;
        }
      }
      assert args[i..][1..] == args[i + 1..];
    }
    return None;
  }

  // ---- validate_port_format ----

  /** The verdict on the first mapping argument: local field first, then
      remote field; fields after the second `:` are ignored. */
  function MappingVerdict(arg: string): Verdict
    requires ':' in arg
  {
    var parts := Split(arg, ':');
    match ParseInt(parts[0])
    case None => Fail(InvalidPortFormat(arg))
    case Some(local) =>
      if !InPortRange(local) then Fail(LocalPortOutOfRange(local))
      else
        match ParseInt(parts[1])
        case None => Fail(InvalidPortFormat(arg))
        case Some(remote) =>
          if !InPortRange(remote) then Fail(RemotePortOutOfRange(remote)) else Pass
  }

  function PortFormatVerdict(args: seq<string>): Verdict
  {
    if args == [] then Fail(NoPortMapping)
    else if IsMappingArg(args[0]) then MappingVerdict(args[0])
    else PortFormatVerdict(args[1..])
  }

  predicate NoMappingBefore(args: seq<string>, i: nat)
    requires i <= |args|
  {
    forall j :: 0 <= j < i ==> !IsMappingArg(args[j])
  }

  /** Only the first mapping argument is judged; later ones are never read,
      and a list without one fails. */
  lemma {:induction false} PortFormatJudgesFirstMapping(args: seq<string>)
    ensures NoMappingBefore(args, |args|) ==> PortFormatVerdict(args) == Fail(NoPortMapping)
    ensures forall i :: 0 <= i < |args| && IsMappingArg(args[i]) && NoMappingBefore(args, i)
                        ==> PortFormatVerdict(args) == MappingVerdict(args[i])
  {
    if args != [] {
      PortFormatJudgesFirstMapping(args[1..]);
      if !IsMappingArg(args[0]) {
        assert NoMappingBefore(args, |args|) ==> NoMappingBefore(args[1..], |args| - 1) by {
          if NoMappingBefore(args, |args|) {
            forall j | 0 <= j < |args| - 1 ensures !IsMappingArg(args[1..][j]) {
              assert args[1..][j] == args[j + 1];
            }
          }
        }
        forall i | 0 < i < |args| && IsMappingArg(args[i]) && NoMappingBefore(args, i)
          ensures PortFormatVerdict(args) == MappingVerdict(args[i])
        {
          assert args[1..][i - 1] == args[i];
          forall j | 0 <= j < i - 1 ensures !IsMappingArg(args[1..][j]) {
            assert args[1..][j] == args[j + 1];
          }
          assert NoMappingBefore(args[1..], i - 1);
        }
      }
    }
  }

  /** The format check passes exactly when the first mapping argument's
      first two `:` fields are both integers in 1..65535. */
  lemma MappingPassIff(arg: string)
    requires ':' in arg
    ensures MappingVerdict(arg) == Pass <==>
      (var parts := Split(arg, ':');
       && ParseInt(parts[0]).Some? && InPortRange(ParseInt(parts[0]).value)
       && ParseInt(parts[1]).Some? && InPortRange(ParseInt(parts[1]).value))
  {
  }

  /** The local field is range-checked before the remote field is parsed: an
      out-of-range local port is reported whatever the remote field holds. */
  lemma LocalPortCheckedFirst(arg: string, local: int)
    requires ':' in arg
    requires ParseInt(Split(arg, ':')[0]) == Some(local) && !InPortRange(local)
    ensures MappingVerdict(arg) == Fail(LocalPortOutOfRange(local))
  {
  }

  /** The mapping `<local>:<remote>` is read back as the two numbers, and
      passes the format check exactly when both are in 1..65535. */
  lemma MappingRoundTrip(local: nat, remote: nat)
    ensures var arg := NatToString(local) + ":" + NatToString(remote);
      && IsMappingArg(arg)
      && Split(arg, ':') == [NatToString(local), NatToString(remote)]
      && LocalPortIn(arg) == Some(local as int)
      && (MappingVerdict(arg) == Pass <==> InPortRange(local) && InPortRange(remote))
  {
    var l, r := NatToString(local), NatToString(remote);
    var arg := l + ":" + r;
    NatToStringHasNo(local, ':');
    NatToStringHasNo(remote, ':');
    NatToStringRoundTrip(local);
    NatToStringRoundTrip(remote);
    assert arg == Join([l, r], ':');
    SplitJoin([l, r], ':');
    assert arg[0] == l[0] && IsDigit(l[0]);
    assert ':' in arg by { assert arg[|l|] == ':'; }
    assert BeforeFirst(arg, ':') == l;
  }

  method ValidatePortFormat(args: seq<string>) returns (verdict: Verdict)
    ensures verdict == PortFormatVerdict(args)
  {
    for i := 0 to |args|
      invariant PortFormatVerdict(args) == PortFormatVerdict(args[i..])
    {
      var arg := args[i];
      if ':' in arg && !IsFlag(arg) {
        var parts := Split(arg, ':');
        var local := ParseInt(parts[0]);
        if local.None? {
          return Fail(InvalidPortFormat(arg));
        }
        if !(1 <= local.value <= 65535) {
          return Fail(LocalPortOutOfRange(local.value));
        }
        var remote := ParseInt(parts[1]);
        if remote.None? {
          return Fail(InvalidPortFormat(arg));
        }
        if !(1 <= remote.value <= 65535) {
          return Fail(RemotePortOutOfRange(remote.value));
        }
        return Pass;
      }
      assert args[i..][1..] == args[i + 1..];
    }
    return Fail(NoPortMapping);
  }

  /** A list that passes the format check also yields a local port, taken
      from the same argument, in 1..65535. */
  lemma {:induction false} FormatPassGivesLocalPort(args: seq<string>)
    requires PortFormatVerdict(args) == Pass
    ensures LocalPortOf(args).Some? && InPortRange(LocalPortOf(args).value)
  {
    if IsMappingArg(args[0]) {
      assert LocalPortIn(args[0]) == ParseInt(Split(args[0], ':')[0]);
    } else {
      assert LocalPortIn(args[0]).None?;
      FormatPassGivesLocalPort(args[1..]);
    }
  }

  // ---- validate_port_availability ----

  /** The verdict on the extracted local port. `unbindable` holds the ports
      whose `bind` on localhost fails with an OSError. */
  function PortAvailabilityVerdict(args: seq<string>, unbindable: set<int>): Verdict
  {
    match LocalPortOf(args)
    case None => Pass
    case Some(port) =>
      if !(0 <= port <= 65535) then Fail(PortOutsideSocketRange(port))
      else if port in unbindable then Fail(PortInUse(port))
      else Pass
  }

  /** The availability check passes when no local port can be extracted, and
      otherwise exactly when that port can be bound. */
  lemma PortAvailabilityIff(args: seq<string>, unbindable: set<int>)
    ensures PortAvailabilityVerdict(args, unbindable) == Pass <==>
      (LocalPortOf(args).None? ||
       (0 <= LocalPortOf(args).value <= 65535 && LocalPortOf(args).value !in unbindable))
  {
  }

  method ValidatePortAvailability(args: seq<string>, unbindable: set<int>) returns (verdict: Verdict)
    ensures verdict == PortAvailabilityVerdict(args, unbindable)
  {
    var localPort := ExtractLocalPort(args);
    if localPort.None? {
      return Pass;
    }
    var port := localPort.value;
    if !(0 <= port <= 65535) {
      return Fail(PortOutsideSocketRange(port));
    }
    if port in unbindable {
      return Fail(PortInUse(port));
    }
    return Pass;
  }

  // ---- validate_kubectl_command ----

  const ResourceTypes: seq<string> := ["svc", "service", "pod", "deploy", "deployment", "rs", "replicaset"]

  /** `arg.split("/", 1)[0].lower()`. */
  function ResourceType(arg: string): string
  {
    AsciiLower(BeforeFirst(arg, '/'))
  }

  /** `arg.split("/", 1)[1]`. */
  function ResourceName(arg: string): string
    requires '/' in arg
  {
    AfterFirst(arg, '/')
  }

  predicate NamesKnownResource(arg: string)
  {
    IsResourceArg(arg) && ResourceType(arg) in ResourceTypes && ResourceName(arg) != ""
  }

  predicate HasKnownResource(args: seq<string>)
  {
    exists i :: 0 <= i < |args| && NamesKnownResource(args[i])
  }

  function KubectlVerdict(args: seq<string>, version: CommandOutcome): Verdict
  {
    match version
    case Exited(code) =>
      if code != 0 then Fail(KubectlNotWorking(code))
      else if HasKnownResource(args) then Pass
      else Fail(NoValidResource)
    case TimedOut => Fail(KubectlTimedOut)
    case NotInstalled => Fail(KubectlNotFound)
    case Raised => Fail(KubectlCheckFailed)
  }

  /** `version` is the outcome of `kubectl version --client`. */
  method ValidateKubectlCommand(args: seq<string>, version: CommandOutcome) returns (verdict: Verdict)
    ensures verdict == KubectlVerdict(args, version)
  {
    if !version.Exited? {
      return match version
        case TimedOut => Fail(KubectlTimedOut)
        case NotInstalled => Fail(KubectlNotFound)
        case _ => Fail(KubectlCheckFailed);
    }
    if version.returnCode != 0 {
      return Fail(KubectlNotWorking(version.returnCode));
    }
    var resourceFound := false;
    var i := 0;
    while i < |args|
      invariant 0 <= i <= |args|
      invariant !resourceFound ==> forall j :: 0 <= j < i ==> !NamesKnownResource(args[j])
      invariant resourceFound ==> HasKnownResource(args)
    {
      var arg := args[i];
      if '/' in arg && !IsFlag(arg) {
        var resourceType := AsciiLower(BeforeFirst(arg, '/'));
        var resourceName := AfterFirst(arg, '/');
        if resourceType in ResourceTypes && resourceName != "" {
          assert NamesKnownResource(args[i]);
          resourceFound := true;
          break;
        }
      }
      i := i + 1;
    }
    if !resourceFound {
      return Fail(NoValidResource);
    }
    return Pass;
  }

  // ---- validate_service_and_endpoints ----

  /** The token after the first `-n`, or "default" when there is no `-n` or
      it is the last token. */
  function NamespaceOf(args: seq<string>): string
  {
    var n := IndexOfArg(args, "-n");
    if n + 1 < |args| then args[n + 1] else "default"
  }

  /** Type (lower-cased) and name of the first resource argument, whatever
      its type. */
  function ResourceOf(args: seq<string>): Option<(string, string)>
  {
    if args == [] then None
    else if IsResourceArg(args[0]) then Some((ResourceType(args[0]), ResourceName(args[0])))
    else ResourceOf(args[1..])
  }

  /** ResourceOf takes the first resource argument, and only that one. */
  lemma {:induction false} ResourceOfIsFirst(args: seq<string>, i: nat)
    requires i < |args| && IsResourceArg(args[i])
    requires forall j :: 0 <= j < i ==> !IsResourceArg(args[j])
    ensures ResourceOf(args) == Some((ResourceType(args[i]), ResourceName(args[i])))
  {
    if i > 0 {
      assert !IsResourceArg(args[0]);
      assert args[1..][i - 1] == args[i];
      forall j | 0 <= j < i - 1 ensures !IsResourceArg(args[1..][j]) {
        assert args[1..][j] == args[j + 1];
      }
      ResourceOfIsFirst(args[1..], i - 1);
    }
  }

  /** ResourceOf finds nothing exactly when no argument is a resource
      argument. */
  lemma {:induction false} ResourceOfNoneIff(args: seq<string>)
    ensures ResourceOf(args).None? <==> forall j :: 0 <= j < |args| ==> !IsResourceArg(args[j])
    decreases |args|
  {
    if args != [] && !IsResourceArg(args[0]) {
      ResourceOfNoneIff(args[1..]);
      forall j | 1 <= j < |args| ensures args[j] == args[1..][j - 1] {
      }
    }
  }

  method FindResource(args: seq<string>) returns (resource: Option<(string, string)>)
    ensures resource == ResourceOf(args)
  {
    resource := None;
    for i := 0 to |args|
      invariant ResourceOf(args) == ResourceOf(args[i..])
    {
      var arg := args[i];
      if '/' in arg && !IsFlag(arg) {
        resource := Some((AsciiLower(BeforeFirst(arg, '/')), AfterFirst(arg, '/')));
        return;
      }
      assert args[i..][1..] == args[i + 1..];
    }
  }

  /** An endpoints subset; a missing `addresses` key reads as empty. */
  datatype Subset = Subset(addresses: seq<string>)

  /** What `json.loads` made of `kubectl get svc -o json`: unreadable, or the
      `spec.selector` pairs in document order. */
  datatype ServiceDoc = UnreadableService | ServiceSpec(selector: seq<(string, string)>)

  /** What `json.loads` made of `kubectl get endpoints -o json`. */
  datatype EndpointsDoc = UnreadableEndpoints | EndpointsSpec(subsets: seq<Subset>)

  /** The answers the cluster gives to the lookups the validator may make. */
  datatype Cluster = Cluster(
    getService: CommandOutcome,
    serviceDoc: ServiceDoc,
    getEndpoints: CommandOutcome,
    endpointsDoc: EndpointsDoc,
    getWorkload: CommandOutcome)

  /** A `kubectl get` the validator runs. */
  datatype Lookup =
    | GetService(name: string, namespace: string)
    | GetEndpoints(name: string, namespace: string)
    | GetWorkload(kind: string, name: string, namespace: string)

  predicate AnyReady(subsets: seq<Subset>)
  {
    exists i :: 0 <= i < |subsets| && subsets[i].addresses != []
  }

  method HasReadyEndpoints(subsets: seq<Subset>) returns (ready: bool)
    ensures ready <==> AnyReady(subsets)
  {
    ready := false;
    for i := 0 to |subsets|
      invariant !ready ==> forall j :: 0 <= j < i ==> subsets[j].addresses == []
      invariant ready ==> AnyReady(subsets)
    {
      if subsets[i].addresses != [] {
        ready := true;
        break;
      }
    }
  }

  /** `k=v` pairs joined by commas, or the placeholder when the selector is
      empty or unreadable. */
  function SelectorText(doc: ServiceDoc): string
  {
    match doc
    case UnreadableService => "<service-selector>"
    case ServiceSpec(selector) =>
      if selector == [] then "<service-selector>"
      else Join(seq(|selector|, i requires 0 <= i < |selector| => selector[i].0 + "=" + selector[i].1), ',')
  }

  /** The selector text lists every pair, in order, when keys and values
      hold neither `,` nor `=`. */
  lemma SelectorTextRoundTrip(selector: seq<(string, string)>)
    requires selector != []
    requires forall i :: 0 <= i < |selector| ==>
      ',' !in selector[i].0 && '=' !in selector[i].0 && ',' !in selector[i].1 && '=' !in selector[i].1
    ensures var pieces := Split(SelectorText(ServiceSpec(selector)), ',');
      |pieces| == |selector| &&
      forall i :: 0 <= i < |selector| ==> Split(pieces[i], '=') == [selector[i].0, selector[i].1]
  {
    var pieces := seq(|selector|, i requires 0 <= i < |selector| => selector[i].0 + "=" + selector[i].1);
    forall i | 0 <= i < |pieces| ensures ',' !in pieces[i] {
      assert pieces[i] == selector[i].0 + "=" + selector[i].1;
    }
    SplitJoin(pieces, ',');
    forall i | 0 <= i < |selector| ensures Split(pieces[i], '=') == [selector[i].0, selector[i].1] {
      SplitJoin([selector[i].0, selector[i].1], '=');
      assert Join([selector[i].0, selector[i].1], '=') == pieces[i];
    }
  }

  function LookupError(outcome: CommandOutcome): ValidationError
  {
    if outcome.TimedOut? then LookupTimedOut else LookupFailed
  }

  /** The service branch: the service must exist, its endpoints object must
      exist, and a readable endpoints document must list a ready address. */
  function ServiceCheck(name: string, namespace: string, cluster: Cluster): (Verdict, seq<Lookup>)
  {
    var first := [GetService(name, namespace)];
    if !cluster.getService.Exited? then (Fail(LookupError(cluster.getService)), first)
    else if cluster.getService.returnCode != 0 then (Fail(ServiceNotFound(name, namespace)), first)
    else
      var both := first + [GetEndpoints(name, namespace)];
      if !cluster.getEndpoints.Exited? then (Fail(LookupError(cluster.getEndpoints)), both)
      else if cluster.getEndpoints.returnCode != 0 then (Fail(NoEndpoints(name, namespace)), both)
      else
        match cluster.endpointsDoc
        case UnreadableEndpoints => (Pass, both)
        case EndpointsSpec(subsets) =>
          if AnyReady(subsets) then (Pass, both)
          else (Fail(NoReadyEndpoints(name, namespace, SelectorText(cluster.serviceDoc))), both)
  }

  /** `kubectl get pod|deployment <name>` must succeed. */
  function WorkloadCheck(kind: string, name: string, namespace: string, cluster: Cluster): (Verdict, seq<Lookup>)
  {
    var resource := if kind in ["deploy", "deployment"] then "deployment" else kind;
    var lookups := [GetWorkload(resource, name, namespace)];
    if !cluster.getWorkload.Exited? then (Fail(LookupError(cluster.getWorkload)), lookups)
    else if cluster.getWorkload.returnCode != 0 then (Fail(WorkloadNotFound(resource, name, namespace)), lookups)
    else (Pass, lookups)
  }

  /** validate_service_and_endpoints: the verdict and the lookups it runs. */
  function ServiceValidation(args: seq<string>, cluster: Cluster): (Verdict, seq<Lookup>)
  {
    var namespace := NamespaceOf(args);
    match ResourceOf(args)
    case None => (Pass, [])
    case Some((kind, name)) =>
      if name == "" then (Pass, [])
      else if kind in ["svc", "service"] then ServiceCheck(name, namespace, cluster)
      else if kind in ["pod", "deploy", "deployment"] then WorkloadCheck(kind, name, namespace, cluster)
      else (Pass, [])
  }

  method ValidateServiceAndEndpoints(args: seq<string>, cluster: Cluster)
    returns (verdict: Verdict, lookups: seq<Lookup>)
    ensures (verdict, lookups) == ServiceValidation(args, cluster)
  {
    var namespace := NamespaceOf(args);
    var resource := FindResource(args);
    if resource.None? || resource.value.1 == "" {
      return Pass, [];
    }
    var (kind, name) := resource.value;
    lookups := [];
    if kind in ["svc", "service"] {
      assert ServiceValidation(args, cluster) == ServiceCheck(name, namespace, cluster);
      lookups := [GetService(name, namespace)];
      if !cluster.getService.Exited? {
        return Fail(LookupError(cluster.getService)), lookups;
      }
      if cluster.getService.returnCode != 0 {
        return Fail(ServiceNotFound(name, namespace)), lookups;
      }
      var selectorText := SelectorText(cluster.serviceDoc);
      lookups := lookups + [GetEndpoints(name, namespace)];
      if !cluster.getEndpoints.Exited? {
        return Fail(LookupError(cluster.getEndpoints)), lookups;
      }
      if cluster.getEndpoints.returnCode != 0 {
        return Fail(NoEndpoints(name, namespace)), lookups;
      }
      if cluster.endpointsDoc.EndpointsSpec? {
        var ready := HasReadyEndpoints(cluster.endpointsDoc.subsets);
        if !ready {
          return Fail(NoReadyEndpoints(name, namespace, selectorText)), lookups;
        }
      }
      return Pass, lookups;
    } else if kind in ["pod", "deploy", "deployment"] {
      var resourceKind := if kind in ["deploy", "deployment"] then "deployment" else kind;
      lookups := [GetWorkload(resourceKind, name, namespace)];
      if !cluster.getWorkload.Exited? {
        return Fail(LookupError(cluster.getWorkload)), lookups;
      }
      if cluster.getWorkload.returnCode != 0 {
        return Fail(WorkloadNotFound(resourceKind, name, namespace)), lookups;
      }
    }
    return Pass, lookups;
  }

  /** For a service target the check fails exactly when one of the two
      lookups does not return 0, or the endpoints document is readable and
      no subset lists an address. */
  lemma ServiceFailsIff(args: seq<string>, cluster: Cluster)
    requires ResourceOf(args).Some? && ResourceOf(args).value.1 != ""
    requires ResourceOf(args).value.0 in ["svc", "service"]
    ensures ServiceValidation(args, cluster).0.Fail? <==>
      (|| cluster.getService != Exited(0)
       || cluster.getEndpoints != Exited(0)
       || (cluster.endpointsDoc.EndpointsSpec? && !AnyReady(cluster.endpointsDoc.subsets)))
  {
  }

  /** Types other than svc/service/pod/deploy/deployment (rs, replicaset,
      anything else) pass with no lookup at all, as does a missing resource. */
  lemma OtherTargetsNeedNoLookup(args: seq<string>, cluster: Cluster)
    requires ResourceOf(args).None? ||
             ResourceOf(args).value.0 !in ["svc", "service", "pod", "deploy", "deployment"]
    ensures ServiceValidation(args, cluster) == (Pass, [])
  {
  }

  /** Every lookup names the parsed resource in the parsed namespace. */
  /** Without any resource argument the service check passes and looks
      nothing up. */
  lemma NoResourceArgPasses(args: seq<string>, cluster: Cluster)
    requires forall j :: 0 <= j < |args| ==> !IsResourceArg(args[j])
    ensures ServiceValidation(args, cluster) == (Pass, [])
  {
    ResourceOfNoneIff(args);
    OtherTargetsNeedNoLookup(args, cluster);
  }

  lemma LookupsNameTheTarget(args: seq<string>, cluster: Cluster)
    ensures forall l :: l in ServiceValidation(args, cluster).1 ==>
      ResourceOf(args).Some? && l.name == ResourceOf(args).value.1 && l.namespace == NamespaceOf(args)
  {
  }
}

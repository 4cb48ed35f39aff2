/** The `up` command (app/commands/up.py): start the workload, then report on
    its health. In Compose mode every declared service is resolved by a fixed
    chain (native health status, then the published host port, then a probe
    from inside the network); in Dockerfile mode the image's exposed ports are
    merged into the port list and each host port is probed over HTTP, then TCP.

    The engine, the network and the file system are the `Env` the command
    runs in: the files present, the decoded Compose document, the project's
    containers and the outcomes of every probe. */
module UpCmd {
  import opened Wrappers
  import opened Strings
  import opened PyValues
  import opened ComposeYaml
  import opened DockerSvc
  import opened NetSvc

  // ---------------------------------------------------------------------
  // Containers and the service -> container map
  // ---------------------------------------------------------------------

  const ServiceLabelKey := "com.docker.compose.service"

  /** A container of the project as the engine lists it: its name and its
      label mapping, None when the engine reports no mapping at all. */
  datatype Container = Container(name: string, labels: Option<map<string, string>>)

  /** `labels.get("com.docker.compose.service")` when that is truthy. */
  function ServiceOf(c: Container): Option<string>
  {
    if c.labels.Some? && ServiceLabelKey in c.labels.value && c.labels.value[ServiceLabelKey] != ""
    then Some(c.labels.value[ServiceLabelKey])
    else None
  }

  /** `c` is the last of the first `upTo` containers labelled with service `n`. */
  predicate LastLabelled(containers: seq<Container>, upTo: int, n: string, c: Container)
    requires 0 <= upTo <= |containers|
  {
    exists k :: 0 <= k < upTo && containers[k] == c && ServiceOf(containers[k]) == Some(n)
      && forall j :: k < j < upTo ==> ServiceOf(containers[j]) != Some(n)
  }

  /** The service -> container map built from a list of labelled containers:
      a later container with the same label replaces an earlier one. */
  function LabelMap(containers: seq<Container>): map<string, Container>
    decreases |containers|
  {
    if containers == [] then map[]
    else
      var m := LabelMap(containers[..|containers| - 1]);
      var c := containers[|containers| - 1];
      if ServiceOf(c).Some? then m[ServiceOf(c).value := c] else m
  }

  /** The map holds exactly the services some container is labelled with. */
  lemma {:induction false} LabelMapKeys(containers: seq<Container>)
    ensures forall n :: n in LabelMap(containers) <==> exists i :: 0 <= i < |containers| && ServiceOf(containers[i]) == Some(n)
    decreases |containers|
  {
    if containers != [] {
      var front := containers[..|containers| - 1];
      LabelMapKeys(front);
      assert forall i :: 0 <= i < |front| ==> front[i] == containers[i];
    }
  }

  /** Under each service the map holds the last container labelled with it. */
  lemma {:induction false} LabelMapLastWins(containers: seq<Container>)
    ensures forall n :: n in LabelMap(containers) ==> LastLabelled(containers, |containers|, n, LabelMap(containers)[n])
    decreases |containers|
  {
    if containers != [] {
      var front := containers[..|containers| - 1];
      LabelMapLastWins(front);
      var last := |containers| - 1;
      forall n | n in LabelMap(containers)
        ensures LastLabelled(containers, |containers|, n, LabelMap(containers)[n])
      {
        if ServiceOf(containers[last]) != Some(n) {
          assert LastLabelled(front, |front|, n, LabelMap(front)[n]);
          var k :| 0 <= k < |front| && front[k] == LabelMap(front)[n] && ServiceOf(front[k]) == Some(n)
            && forall j :: k < j < |front| ==> ServiceOf(front[j]) != Some(n);
          assert containers[k] == front[k];
          assert forall j :: k < j < |containers| ==> ServiceOf(containers[j]) != Some(n) by {
            forall j | k < j < |containers| ensures ServiceOf(containers[j]) != Some(n) {
              if j < last {
                assert containers[j] == front[j];
              }
            }
          }
        } else {
          assert containers[last] == LabelMap(containers)[n];
        }
      }
    }
  }

  /** The service -> container map: every labelled container is stored under its
      service, and a later container with the same label replaces an earlier
      one. A container without a label mapping makes `.get` raise. */
  method BuildServiceContainerMap(containers: seq<Container>) returns (r: Result<map<string, Container>, PyError>)
    ensures r.Err? <==> exists i :: 0 <= i < |containers| && containers[i].labels.None?
    ensures r.Err? ==> r.error == AttributeError
    ensures r.Ok? ==> r.value == LabelMap(containers)
    ensures r.Ok? ==> forall n :: n in r.value <==> exists i :: 0 <= i < |containers| && ServiceOf(containers[i]) == Some(n)
    ensures r.Ok? ==> forall n :: n in r.value ==> LastLabelled(containers, |containers|, n, r.value[n])
  {
    var serviceContainerMap: map<string, Container> := map[];
    var i := 0;
    while i < |containers|
      invariant 0 <= i <= |containers|
      invariant forall j :: 0 <= j < i ==> containers[j].labels.Some?
      invariant serviceContainerMap == LabelMap(containers[..i])
    {
      var c := containers[i];
      if c.labels.None? {
        return Err(AttributeError);
      }
      assert containers[..i + 1][..i] == containers[..i];
      var svcName := ServiceOf(c);
      if svcName.Some? {
        serviceContainerMap := serviceContainerMap[svcName.value := c];
      }
      i := i + 1;
    }
    assert containers[..i] == containers;
    LabelMapKeys(containers);
    LabelMapLastWins(containers);
    return Ok(serviceContainerMap);
  }

  // ---------------------------------------------------------------------
  // Probe-source selection
  // ---------------------------------------------------------------------

  /** A capable container labelled with an exposed service. */
  predicate ExposedVantage(c: Container, exposedNames: set<string>, hasNc: string -> bool)
  {
    hasNc(c.name) && ServiceOf(c).Some? && ServiceOf(c).value in exposedNames
  }

  /** A capable container whose labels cannot be read. */
  predicate Unlabelled(c: Container, hasNc: string -> bool)
  {
    hasNc(c.name) && c.labels.None?
  }

  /** Container `i` is the first capable one labelled with an exposed service. */
  predicate FirstExposedVantage(containers: seq<Container>, i: int, exposedNames: set<string>, hasNc: string -> bool)
  {
    && 0 <= i < |containers|
    && ExposedVantage(containers[i], exposedNames, hasNc)
    && forall j :: 0 <= j < i ==> !ExposedVantage(containers[j], exposedNames, hasNc)
  }

  /** Container `i` is the first capable one. */
  predicate FirstCapable(containers: seq<Container>, i: int, hasNc: string -> bool)
  {
    && 0 <= i < |containers|
    && hasNc(containers[i].name)
    && forall j :: 0 <= j < i ==> !hasNc(containers[j].name)
  }

  /** The scan of the probe-source loop from some point on, with `fallback` the
      first capable container seen so far: a capable container of an exposed
      service ends it, one whose labels cannot be read raises. */
  function ProbeScan(rest: seq<Container>, exposedNames: set<string>, hasNc: string -> bool,
                     fallback: Option<Container>): Result<Option<Container>, PyError>
    decreases |rest|
  {
    if rest == [] then Ok(fallback)
    else
      var c := rest[0];
      if !hasNc(c.name) then ProbeScan(rest[1..], exposedNames, hasNc, fallback)
      else if c.labels.None? then Err(AttributeError)
      else if ServiceOf(c).Some? && ServiceOf(c).value in exposedNames then Ok(Some(c))
      else ProbeScan(rest[1..], exposedNames, hasNc, if fallback.None? then Some(c) else fallback)
  }

  /** The probe source the whole scan selects. */
  function ProbeSource(containers: seq<Container>, exposedNames: set<string>, hasNc: string -> bool)
    : Result<Option<Container>, PyError>
  {
    ProbeScan(containers, exposedNames, hasNc, None)
  }

  /** The container internal probes run from: the first capable container whose
      service is exposed, else the first capable container, else none.
      Containers without `nc` are never chosen and their labels are not read. */
  method SelectProbeSource(containers: seq<Container>, exposedNames: set<string>, hasNc: string -> bool)
    returns (r: Result<Option<Container>, PyError>)
    ensures r.Err? <==> exists i :: 0 <= i < |containers| && Unlabelled(containers[i], hasNc)
                                   && forall j :: 0 <= j < i ==> !ExposedVantage(containers[j], exposedNames, hasNc)
    ensures r.Err? ==> r.error == AttributeError
    ensures r.Ok? && r.value.Some? ==> r.value.value in containers && hasNc(r.value.value.name)
    ensures r.Ok? ==> (r.value.None? <==> forall i :: 0 <= i < |containers| ==> !hasNc(containers[i].name))
    ensures r.Ok? ==> forall i :: FirstExposedVantage(containers, i, exposedNames, hasNc) ==> r.value == Some(containers[i])
    ensures r.Ok? && (forall i :: 0 <= i < |containers| ==> !ExposedVantage(containers[i], exposedNames, hasNc)) ==>
      forall i :: FirstCapable(containers, i, hasNc) ==> r.value == Some(containers[i])
    ensures r == ProbeSource(containers, exposedNames, hasNc)
  {
    var candidateFallback: Option<Container> := None;
    var candidateExposed: Option<Container> := None;
    var i := 0;
    while i < |containers|
      invariant 0 <= i <= |containers|
      invariant candidateExposed.None?
      invariant forall j :: 0 <= j < i ==> !Unlabelled(containers[j], hasNc) && !ExposedVantage(containers[j], exposedNames, hasNc)
      invariant candidateFallback.None? <==> forall j :: 0 <= j < i ==> !hasNc(containers[j].name)
      invariant candidateFallback.Some? ==>
        exists j :: 0 <= j < i && containers[j] == candidateFallback.value && hasNc(containers[j].name)
                    && forall k :: 0 <= k < j ==> !hasNc(containers[k].name)
      invariant ProbeSource(containers, exposedNames, hasNc) == ProbeScan(containers[i..], exposedNames, hasNc, candidateFallback)
    {
      assert containers[i..][1..] == containers[i + 1..];
      var c := containers[i];
      if !hasNc(c.name) {
        i := i + 1;
        continue;
      }
      if c.labels.None? {
        return Err(AttributeError);
      }
      var serviceName := ServiceOf(c);
      if serviceName.Some? && serviceName.value in exposedNames {
        candidateExposed := Some(c);
        break;
      }
      if candidateFallback.None? {
        candidateFallback := Some(c);
      }
      i := i + 1;
    }
    return Ok(if candidateExposed.Some? then candidateExposed else candidateFallback);
  }

  // ---------------------------------------------------------------------
  // The per-service strategy chain
  // ---------------------------------------------------------------------

  datatype CheckType = Native | Exposed | Internal

  datatype Status = UP | DOWN | UNKNOWN | SKIPPED

  /** One row of the service health report. */
  datatype ServiceHealth = ServiceHealth(name: string, kind: CheckType, status: Status, details: string)

  /** The probes the engine offers: whether a container has `nc`, whether a host
      port accepts connections, whether a container reaches `host:port`, and
      what `docker inspect` says about a container. */
  datatype Probes = Probes(
    hasNc: string -> bool,
    hostPortOpen: int -> bool,
    internalTcp: (string, string, int) -> bool,
    inspect: string -> Inspection)

  /** `exposed.get(name) or internal.get(name)`: for an exposed service this is
      its raw `ports` value, not its definition. */
  function SvcDef(name: string, exposed: map<string, Value>, internal: map<string, Value>): Value
  {
    if name in exposed && Truthy(exposed[name]) then exposed[name]
    else if name in internal then internal[name]
    else Null
  }

  /** `f"{health}"` for the value get_container_health returned. */
  function HealthText(health: Option<string>): string
  {
    if health.Some? then health.value else "None"
  }

  /** What one `ports` entry says about the host port: a text gives its piece
      before the first `:`, a dict with a `published` key gives that value, and
      anything else assigns nothing. A text that is not a number raises. */
  function EntryHostPort(pd: Value): Result<Option<int>, PyError>
  {
    match pd
    case Str(s) =>
      var n :- ParseText(BeforeFirst(s, ':'));
      Ok(Some(n))
    case Dict(_) =>
      if HasKey(pd, "published") then
        var n :- ToInt(Get(pd, "published", Null).value);
        Ok(Some(n))
      else Ok(None)
    case _ => Ok(None)
  }

  /** The first non-zero host port among the entries. */
  function HostPortScan(pds: seq<Value>): (r: Result<Option<int>, PyError>)
    ensures r.Ok? && r.value.Some? ==> r.value.value != 0
    decreases |pds|
  {
    if pds == [] then Ok(None)
    else
      var h :- EntryHostPort(pds[0]);
      if h.Some? && h.value != 0 then Ok(h) else HostPortScan(pds[1..])
  }

  /** The host port of an exposed service, from its raw `ports` value. */
  function HostPortOf(portDef: Value): Result<Option<int>, PyError>
  {
    var pds :- Iterate(portDef);
    HostPortScan(pds)
  }

  /** One step of the scan from entry `i`. */
  lemma HostPortScanStep(pds: seq<Value>, i: int)
    requires 0 <= i < |pds|
    ensures var e := EntryHostPort(pds[i]);
      HostPortScan(pds[i..]) == if e.Err? then Err(e.error)
                                else if e.value.Some? && e.value.value != 0 then Ok(e.value)
                                else HostPortScan(pds[i + 1..])
  {
    assert pds[i..][0] == pds[i] && pds[i..][1..] == pds[i + 1..];
  }

  /** The host-port loop of the exposed check. `host_port` keeps the last value
      assigned, and only a non-zero one stops the loop or counts afterwards. */
  method FindHostPort(portDef: Value) returns (r: Result<Option<int>, PyError>)
    ensures r.Err? <==> HostPortOf(portDef).Err?
    ensures r.Err? ==> r.error == HostPortOf(portDef).error
    ensures r.Ok? ==> HostPortOf(portDef).value == if r.value.Some? && r.value.value != 0 then r.value else None
  {
    var pds :- Iterate(portDef);
    assert HostPortOf(portDef) == HostPortScan(pds);
    var hostPort: Option<int> := None;
    var i := 0;
    while i < |pds|
      invariant 0 <= i <= |pds|
      invariant hostPort.None? || hostPort.value == 0
      invariant HostPortScan(pds) == HostPortScan(pds[i..])
    {
      HostPortScanStep(pds, i);
      var e := EntryHostPort(pds[i]);
      if e.Err? {
        assert HostPortScan(pds) == Err(e.error);
        return Err(e.error);
      }
      var h := e.value;
      if h.Some? {
        hostPort := h;
      }
      if hostPort.Some? && hostPort.value != 0 {
        assert HostPortScan(pds) == Ok(hostPort);
        break;
      }
      i := i + 1;
    }
    assert HostPortOf(portDef).value == if hostPort.Some? && hostPort.value != 0 then hostPort else None;
    return Ok(hostPort);
  }

  /** The report row of service `name`: Native when its `svc_def` contains
      "healthcheck", else Exposed when it is exposed, else Internal. */
  function Resolve(name: string, exposed: map<string, Value>, internal: map<string, Value>,
                   cmap: map<string, Container>, source: Option<Container>, probes: Probes): (r: Result<ServiceHealth, PyError>)
    ensures HasNativeHealthcheck(SvcDef(name, exposed, internal)).Err? ==> r.Err?
    ensures r.Ok? ==> r.value.name == name
    ensures r.Ok? ==> (r.value.kind == Native <==> HasNativeHealthcheck(SvcDef(name, exposed, internal)) == Ok(true))
    ensures r.Ok? && r.value.kind != Native ==> (r.value.kind == Exposed <==> name in exposed)
    ensures r.Ok? && r.value.status == SKIPPED ==> r.value.kind == Internal && source.None?
    ensures r.Ok? && r.value.kind == Internal && name in internal && source.None? ==> r.value.status == SKIPPED
    ensures r.Ok? && r.value.kind == Native ==> r.value.status in {UP, DOWN}
  {
    var svcDef := SvcDef(name, exposed, internal);
    var native :- HasNativeHealthcheck(svcDef);
    if native then
      if name in cmap then
        var health := GetContainerHealth(probes.inspect(cmap[name].name));
        if health == Some("healthy") then Ok(ServiceHealth(name, Native, UP, "Native Docker Health Check Passed"))
        else Ok(ServiceHealth(name, Native, DOWN, "Native Check: " + HealthText(health)))
      else Ok(ServiceHealth(name, Native, DOWN, "Container not found for native check"))
    else if name in exposed then
      var hostPort :- HostPortOf(exposed[name]);
      if hostPort.Some? then
        var isUp := probes.hostPortOpen(hostPort.value);
        Ok(ServiceHealth(name, Exposed, if isUp then UP else DOWN,
                         "localhost:" + IntToString(hostPort.value) + (if isUp then " (Port Open)" else " (Port Closed)")))
      else Ok(ServiceHealth(name, Exposed, UNKNOWN, "No host port found"))
    else if name in internal then
      if source.Some? then
        var targetPort :- GetServiceInternalPort(svcDef);
        if targetPort.Some? && targetPort.value != 0 then
          var targetHost := if name in cmap then cmap[name].name else name;
          var isUp := probes.internalTcp(source.value.name, targetHost, targetPort.value);
          Ok(ServiceHealth(name, Internal, if isUp then UP else DOWN,
                           targetHost + ":" + IntToString(targetPort.value) + " from " + source.value.name))
        else Ok(ServiceHealth(name, Internal, UNKNOWN, "No internal port defined"))
      else Ok(ServiceHealth(name, Internal, SKIPPED, "No source container for internal check"))
    else Ok(ServiceHealth(name, Internal, UNKNOWN, "Service not found in analysis?"))
  }

  /** One pass of the service loop: `status` and `details` start as UNKNOWN and
      are overwritten by the first strategy that applies. */
  method CheckService(name: string, exposed: map<string, Value>, internal: map<string, Value>,
                      cmap: map<string, Container>, source: Option<Container>, probes: Probes)
    returns (r: Result<ServiceHealth, PyError>)
    ensures r == Resolve(name, exposed, internal, cmap, source, probes)
  {
    var svcDef := SvcDef(name, exposed, internal);
    var native :- HasNativeHealthcheck(svcDef);
    ghost var spec := Resolve(name, exposed, internal, cmap, source, probes);
    var status := UNKNOWN;
    var details := "Service not found in analysis?";
    if native {
      if name in cmap {
        var health := GetContainerHealth(probes.inspect(cmap[name].name));
        if health == Some("healthy") {
          status := UP;
          details := "Native Docker Health Check Passed";
        } else {
          status := DOWN;
          details := "Native Check: " + HealthText(health);
        }
      } else {
        status := DOWN;
        details := "Container not found for native check";
      }
      assert spec == Ok(ServiceHealth(name, Native, status, details));
    } else if name in exposed {
      var hostPort :- FindHostPort(exposed[name]);
      if hostPort.Some? && hostPort.value != 0 {
        var isUp := probes.hostPortOpen(hostPort.value);
        status := if isUp then UP else DOWN;
        details := "localhost:" + IntToString(hostPort.value) + (if isUp then " (Port Open)" else " (Port Closed)");
      } else {
        details := "No host port found";
      }
      assert spec == Ok(ServiceHealth(name, Exposed, status, details));
    } else if name in internal {
      if source.Some? {
        var targetPort :- GetServiceInternalPort(svcDef);
        if targetPort.Some? && targetPort.value != 0 {
          var targetHost := name;
          if name in cmap {
            targetHost := cmap[name].name;
          }
          var isUp := probes.internalTcp(source.value.name, targetHost, targetPort.value);
          status := if isUp then UP else DOWN;
          details := targetHost + ":" + IntToString(targetPort.value) + " from " + source.value.name;
        } else {
          details := "No internal port defined";
        }
      } else {
        status := SKIPPED;
        details := "No source container for internal check";
      }
      assert spec == Ok(ServiceHealth(name, Internal, status, details));
    }
    var kind := if native then Native else if name in exposed then Exposed else Internal;
    return Ok(ServiceHealth(name, kind, status, details));
  }

  /** The order in which Python iterates a set: every member once, in an
      order the model leaves open. */
  method Enumerate(names: set<string>) returns (order: seq<string>)
    ensures |order| == |names|
    ensures forall n :: n in names <==> n in order
    ensures forall j, k :: 0 <= j < k < |order| ==> order[j] != order[k]
  {
    var rest := names;
    order := [];
    while rest != {}
      invariant rest <= names
      invariant forall n :: n in order ==> n in names && n !in rest
      invariant forall n :: n in names ==> n in rest || n in order
      invariant |order| + |rest| == |names|
      invariant forall j, k :: 0 <= j < k < |order| ==> order[j] != order[k]
      decreases |rest|
    {
      var n :| n in rest;
      order := order + [n];
      rest := rest - {n};
    }
  }

  /** Every service resolves without an exception. */
  predicate AllResolve(names: set<string>, exposed: map<string, Value>, internal: map<string, Value>,
                       cmap: map<string, Container>, source: Option<Container>, probes: Probes)
  {
    forall n :: n in names ==> Resolve(n, exposed, internal, cmap, source, probes).Ok?
  }

  /** Some service raises `e`. */
  predicate SomeRaises(names: set<string>, exposed: map<string, Value>, internal: map<string, Value>,
                       cmap: map<string, Container>, source: Option<Container>, probes: Probes, e: PyError)
  {
    exists n :: n in names && Resolve(n, exposed, internal, cmap, source, probes) == Err(e)
  }

  /** The rows are one per service, in some order: each is the resolution of a
      service, every service has a row, and no service has two. */
  predicate ReportRows(rows: seq<ServiceHealth>, names: set<string>, exposed: map<string, Value>,
                       internal: map<string, Value>, cmap: map<string, Container>, source: Option<Container>,
                       probes: Probes)
  {
    && |rows| == |names|
    && (forall k :: 0 <= k < |rows| ==>
          rows[k].name in names && Resolve(rows[k].name, exposed, internal, cmap, source, probes) == Ok(rows[k]))
    && (forall n :: n in names ==> exists k :: 0 <= k < |rows| && rows[k].name == n)
    && (forall j, k :: 0 <= j < k < |rows| ==> rows[j].name != rows[k].name)
  }

  /** The service loop. The services are visited in the unspecified order of a
      Python set: the report holds exactly one row per service, each the
      service's resolution, and the first service that raises ends the loop. */
  method ResolveAll(names: set<string>, exposed: map<string, Value>, internal: map<string, Value>,
                    cmap: map<string, Container>, source: Option<Container>, probes: Probes)
    returns (r: Result<seq<ServiceHealth>, PyError>)
    ensures r.Ok? <==> forall n :: n in names ==> Resolve(n, exposed, internal, cmap, source, probes).Ok?
    ensures r.Err? ==> exists n :: n in names && Resolve(n, exposed, internal, cmap, source, probes) == Err(r.error)
    ensures r.Ok? ==> |r.value| == |names|
    ensures r.Ok? ==> forall k :: 0 <= k < |r.value| ==>
      r.value[k].name in names && Resolve(r.value[k].name, exposed, internal, cmap, source, probes) == Ok(r.value[k])
    ensures r.Ok? ==> forall n :: n in names ==> exists k :: 0 <= k < |r.value| && r.value[k].name == n
    ensures r.Ok? ==> forall j, k :: 0 <= j < k < |r.value| ==> r.value[j].name != r.value[k].name
  {
    var order := Enumerate(names);
    var results: seq<ServiceHealth> := [];
    var i := 0;
    while i < |order|
      invariant 0 <= i <= |order| && |results| == i
      invariant forall k :: 0 <= k < i ==>
        results[k].name == order[k] && Resolve(order[k], exposed, internal, cmap, source, probes) == Ok(results[k])
    {
      var res := CheckService(order[i], exposed, internal, cmap, source, probes);
      if res.Err? {
        return Err(res.error);
      }
      results := results + [res.value];
      i := i + 1;
    }
    return Ok(results);
  }

  // ---------------------------------------------------------------------
  // Compose file lookup
  // ---------------------------------------------------------------------

  /** The order in which the health report looks for the Compose file. */
  const UpComposeOrder: seq<string> := ["compose.yaml", "compose.yml", "docker-compose.yaml", "docker-compose.yml"]

  /** The first name of `order` present among `files`. */
  function FirstPresent(order: seq<string>, files: set<string>): (r: Option<string>)
    ensures r.None? <==> forall k :: 0 <= k < |order| ==> order[k] !in files
    ensures r.Some? ==> exists k :: 0 <= k < |order| && order[k] == r.value && r.value in files
                                    && forall j :: 0 <= j < k ==> order[j] !in files
    decreases |order|
  {
    if order == [] then None
    else if order[0] in files then Some(order[0])
    else
      var r := FirstPresent(order[1..], files);
      assert r.Some? ==> exists k :: 0 <= k < |order| && order[k] == r.value && r.value in files
                                     && forall j :: 0 <= j < k ==> order[j] !in files by {
        if r.Some? {
          var k :| 0 <= k < |order[1..]| && order[1..][k] == r.value && r.value in files
                   && forall j :: 0 <= j < k ==> order[1..][j] !in files;
          assert order[k + 1] == r.value;
        }
      }
      r
  }

  /** The lookup loop of the health report. */
  method FindComposeFile(files: set<string>) returns (r: Option<string>)
    ensures r == FirstPresent(UpComposeOrder, files)
  {
    var k := 0;
    while k < |UpComposeOrder|
      invariant 0 <= k <= |UpComposeOrder|
      invariant FirstPresent(UpComposeOrder, files) == FirstPresent(UpComposeOrder[k..], files)
    {
      assert UpComposeOrder[k..][1..] == UpComposeOrder[k + 1..];
      if UpComposeOrder[k] in files {
        return Some(UpComposeOrder[k]);
      }
      k := k + 1;
    }
    return None;
  }

  /** The default names start_compose tries, in its order. */
  const StartComposeOrder: seq<string> := ["docker-compose.yaml", "docker-compose.yml", "compose.yaml", "compose.yml"]

  /** Without an explicit file, the candidate start_compose picks is the first
      of its default names that is present. */
  lemma StartedIsFirstPresent(files: set<string>, k: int)
    requires 0 <= k < |ComposeCandidates(None)| && Usable(ComposeCandidates(None)[k], files)
    requires forall j :: 0 <= j < k ==> !Usable(ComposeCandidates(None)[j], files)
    ensures FirstPresent(StartComposeOrder, files) == Some(ComposeCandidates(None)[k].value)
  {
    var cands := ComposeCandidates(None);
    assert forall i :: 1 <= i < |cands| ==> cands[i] == Some(StartComposeOrder[i - 1]);
    var r := FirstPresent(StartComposeOrder, files);
    var i :| 0 <= i < |StartComposeOrder| && StartComposeOrder[i] == r.value && r.value in files
             && forall j :: 0 <= j < i ==> StartComposeOrder[j] !in files;
    assert Usable(cands[i + 1], files);
  }


  /** With both `compose.yaml` and `docker-compose.yaml` present, start_compose
      starts `docker-compose.yaml` while the report reads `compose.yaml`. */
  lemma ComposeOrdersDisagree()
    ensures var files := {"compose.yaml", "docker-compose.yaml"};
      && FirstPresent(UpComposeOrder, files) == Some("compose.yaml")
      && forall k :: 0 <= k < |ComposeCandidates(None)| && Usable(ComposeCandidates(None)[k], files)
                     && (forall j :: 0 <= j < k ==> !Usable(ComposeCandidates(None)[j], files))
                     ==> ComposeCandidates(None)[k].value == "docker-compose.yaml"
  {
    var files := {"compose.yaml", "docker-compose.yaml"};
    assert Usable(ComposeCandidates(None)[1], files);
  }

  // ---------------------------------------------------------------------
  // Dockerfile mode: ports
  // ---------------------------------------------------------------------

  /** The container ports the user's mappings cover: the last `:`-piece of
      every entry that has at least two pieces. */
  function MappedContainerPorts(port: seq<string>): set<string>
    decreases |port|
  {
    if port == [] then {}
    else
      var last := port[|port| - 1];
      MappedContainerPorts(port[..|port| - 1]) + (if |Split(last, ':')| >= 2 then {AfterLast(last, ':')} else {})
  }

  /** `"ep:ep"` for each exposed port `ep` not in `skip`, in order. */
  function SelfMappings(exposedPorts: seq<string>, skip: set<string>): (r: seq<string>)
    ensures |r| <= |exposedPorts|
    decreases |exposedPorts|
  {
    if exposedPorts == [] then []
    else
      var ep := exposedPorts[|exposedPorts| - 1];
      SelfMappings(exposedPorts[..|exposedPorts| - 1], skip) + (if ep in skip then [] else [ep + ":" + ep])
  }

  /** The port list after the Dockerfile step: unchanged when the image exposes
      nothing; every exposed port mapped to itself when the user gave none;
      otherwise the user's entries followed by `ep:ep` for each exposed port
      they do not map. */
  function MergedPorts(port: seq<string>, exposedPorts: seq<string>): seq<string>
  {
    if exposedPorts == [] then port
    else if port == [] then SelfMappings(exposedPorts, {})
    else port + SelfMappings(exposedPorts, MappedContainerPorts(port))
  }

  /** The auto-map and merge step. The set of mapped ports is built once from
      the user's entries, so an exposed port listed twice is appended twice. */
  method MergeExposedPorts(port: seq<string>, exposedPorts: seq<string>) returns (ports: seq<string>)
    ensures ports == MergedPorts(port, exposedPorts)
  {
    ports := port;
    if exposedPorts != [] {
      if port == [] {
        ports := SelfMappings(exposedPorts, {});
      } else {
        var userMappedContainerPorts: set<string> := {};
        var i := 0;
        while i < |port|
          invariant 0 <= i <= |port|
          invariant userMappedContainerPorts == MappedContainerPorts(port[..i])
        {
          assert port[..i + 1][..i] == port[..i];
          var parts := Split(port[i], ':');
          if |parts| >= 2 {
            userMappedContainerPorts := userMappedContainerPorts + {parts[|parts| - 1]};
          }
          i := i + 1;
        }
        assert port[..i] == port;
        var j := 0;
        while j < |exposedPorts|
          invariant 0 <= j <= |exposedPorts|
          invariant ports == port + SelfMappings(exposedPorts[..j], userMappedContainerPorts)
        {
          assert exposedPorts[..j + 1][..j] == exposedPorts[..j];
          var ep := exposedPorts[j];
          if ep !in userMappedContainerPorts {
            ports := ports + [ep + ":" + ep];
          }
          j := j + 1;
        }
        assert exposedPorts[..j] == exposedPorts;
      }
    }
  }

  lemma {:induction false} MappedAppend(a: seq<string>, b: seq<string>)
    ensures MappedContainerPorts(a + b) == MappedContainerPorts(a) + MappedContainerPorts(b)
    decreases |b|
  {
    if b == [] {
      assert a + b == a;
    } else {
      var front := b[..|b| - 1];
      MappedAppend(a, front);
      assert (a + b)[..|a + b| - 1] == a + front;
    }
  }

  /** Every exposed port (written without `:`) that is not skipped is mapped
      by the self-mappings, and nothing else is. */
  lemma {:induction false} SelfMappingsMapped(exposedPorts: seq<string>, skip: set<string>)
    requires forall k :: 0 <= k < |exposedPorts| ==> ':' !in exposedPorts[k]
    ensures forall p :: p in MappedContainerPorts(SelfMappings(exposedPorts, skip)) <==> p in exposedPorts && p !in skip
    decreases |exposedPorts|
  {
    if exposedPorts != [] {
      var front := exposedPorts[..|exposedPorts| - 1];
      var ep := exposedPorts[|exposedPorts| - 1];
      SelfMappingsMapped(front, skip);
      var tail := if ep in skip then [] else [ep + ":" + ep];
      MappedAppend(SelfMappings(front, skip), tail);
      if ep !in skip {
        assert ep + ":" + ep == ep + [':'] + ep;
        AfterLastPiece(ep, ep, ':');
        assert MappedContainerPorts(tail) == MappedContainerPorts([]) + {ep} by {
          assert tail[..0] == [];
        }
      }
      assert exposedPorts == front + [ep];
    }
  }

  /** Nothing is added when every exposed port is skipped. */
  lemma {:induction false} SelfMappingsAllSkipped(exposedPorts: seq<string>, skip: set<string>)
    requires forall k :: 0 <= k < |exposedPorts| ==> exposedPorts[k] in skip
    ensures SelfMappings(exposedPorts, skip) == []
    decreases |exposedPorts|
  {
    if exposedPorts != [] {
      SelfMappingsAllSkipped(exposedPorts[..|exposedPorts| - 1], skip);
    }
  }

  /** After the merge every exposed port is mapped, and the user's entries
      come first, unchanged. */
  lemma MergeCoversExposed(port: seq<string>, exposedPorts: seq<string>)
    requires forall k :: 0 <= k < |exposedPorts| ==> ':' !in exposedPorts[k]
    ensures forall k :: 0 <= k < |exposedPorts| ==> exposedPorts[k] in MappedContainerPorts(MergedPorts(port, exposedPorts))
    ensures exposedPorts != [] && port == [] ==> |MergedPorts(port, exposedPorts)| == |exposedPorts|
    ensures port != [] ==> MergedPorts(port, exposedPorts)[..|port|] == port
  {
    if exposedPorts != [] {
      if port == [] {
        SelfMappingsMapped(exposedPorts, {});
        SelfMappingsCount(exposedPorts);
      } else {
        var mapped := MappedContainerPorts(port);
        SelfMappingsMapped(exposedPorts, mapped);
        MappedAppend(port, SelfMappings(exposedPorts, mapped));
      }
    }
  }

  lemma {:induction false} SelfMappingsCount(exposedPorts: seq<string>)
    ensures |SelfMappings(exposedPorts, {})| == |exposedPorts|
    decreases |exposedPorts|
  {
    if exposedPorts != [] {
      SelfMappingsCount(exposedPorts[..|exposedPorts| - 1]);
    }
  }

  /** Without user ports, the list is `"ep:ep"` for each exposed port, in order. */
  lemma {:induction false} AutoMapEveryPort(exposedPorts: seq<string>)
    ensures |SelfMappings(exposedPorts, {})| == |exposedPorts|
    ensures forall k :: 0 <= k < |exposedPorts| ==>
      SelfMappings(exposedPorts, {})[k] == exposedPorts[k] + ":" + exposedPorts[k]
    decreases |exposedPorts|
  {
    if exposedPorts != [] {
      var front := exposedPorts[..|exposedPorts| - 1];
      AutoMapEveryPort(front);
      assert forall k :: 0 <= k < |front| ==> front[k] == exposedPorts[k];
    }
  }

  /** Merging again changes nothing: a merged list already maps every exposed port. */
  lemma MergeIdempotent(port: seq<string>, exposedPorts: seq<string>)
    requires forall k :: 0 <= k < |exposedPorts| ==> ':' !in exposedPorts[k]
    ensures MergedPorts(MergedPorts(port, exposedPorts), exposedPorts) == MergedPorts(port, exposedPorts)
  {
    if exposedPorts != [] {
      var merged := MergedPorts(port, exposedPorts);
      MergeCoversExposed(port, exposedPorts);
      assert merged != [];
      SelfMappingsAllSkipped(exposedPorts, MappedContainerPorts(merged));
      assert merged + [] == merged;
    }
  }

  /** An exposed port the user does not map and the image lists twice is
      appended twice. */
  lemma DuplicateExposedAppendedTwice(port: seq<string>, ep: string)
    requires port != [] && ep !in MappedContainerPorts(port)
    ensures MergedPorts(port, [ep, ep]) == port + [ep + ":" + ep, ep + ":" + ep]
  {
    var skip := MappedContainerPorts(port);
    assert [ep, ep][..1] == [ep];
    assert [ep][..0] == [];
    assert SelfMappings([ep], skip) == SelfMappings([], skip) + [ep + ":" + ep];
    assert SelfMappings([ep, ep], skip) == SelfMappings([ep], skip) + [ep + ":" + ep];
  }

  /** `[int(p.split(":", 1)[0]) for p in port]`. */
  function HostPorts(ports: seq<string>): (r: Result<seq<int>, PyError>)
    ensures r.Ok? <==> forall k :: 0 <= k < |ports| ==> ParseInt(BeforeFirst(ports[k], ':')).Some?
    ensures r.Err? ==> r.error == ValueError
    ensures r.Ok? ==> |r.value| == |ports|
    ensures r.Ok? ==> forall k :: 0 <= k < |ports| ==> ParseInt(BeforeFirst(ports[k], ':')) == Some(r.value[k])
    decreases |ports|
  {
    if ports == [] then Ok([])
    else
      var front :- HostPorts(ports[..|ports| - 1]);
      var h :- ParseText(BeforeFirst(ports[|ports| - 1], ':'));
      Ok(front + [h])
  }

  /** The host half of "n:n" reads back as n. */
  lemma SelfMappingHostPort(n: nat)
    ensures ParseInt(BeforeFirst(NatToString(n) + ":" + NatToString(n), ':')) == Some(n)
  {
    var ep := NatToString(n);
    NatTextHasNoColon(n);
    assert ep + ":" + ep == ep + [':'] + ep;
    SplitAfterPiece(ep, ep, ':');
    SplitFirstPiece(ep + ":" + ep, ':');
    ParseShowInt(n);
  }

  /** The host port of a self-mapping `n:n` is `n`. */
  lemma {:induction false} AutoMappedHostPorts(exposedPorts: seq<string>, ns: seq<nat>)
    requires |exposedPorts| == |ns|
    requires forall k :: 0 <= k < |ns| ==> exposedPorts[k] == NatToString(ns[k])
    ensures HostPorts(SelfMappings(exposedPorts, {})) == Ok(ns)
    decreases |ns|
  {
    if ns != [] {
      var last := |ns| - 1;
      var fe, fn := exposedPorts[..last], ns[..last];
      AutoMappedHostPorts(fe, fn);
      SelfMappingsLast(exposedPorts);
      AutoMappedStep(SelfMappings(fe, {}), fn, ns[last]);
      assert ns == fn + [ns[last]];
    }
  }


  /** With nothing skipped, the last exposed port contributes the last mapping. */
  lemma SelfMappingsLast(exposedPorts: seq<string>)
    requires exposedPorts != []
    ensures SelfMappings(exposedPorts, {}) == SelfMappings(exposedPorts[..|exposedPorts| - 1], {})
      + [exposedPorts[|exposedPorts| - 1] + ":" + exposedPorts[|exposedPorts| - 1]]
  {
  }

  /** One more self-mapping `n:n` appends `n` to the host ports. */
  lemma AutoMappedStep(front: seq<string>, fn: seq<int>, n: nat)
    requires HostPorts(front) == Ok(fn)
    ensures HostPorts(front + [NatToString(n) + ":" + NatToString(n)]) == Ok(fn + [n])
  {
    SelfMappingHostPort(n);
    HostPortsSnoc(front, NatToString(n) + ":" + NatToString(n));
  }

  /** Reading the host ports of one more entry appends its host port. */
  lemma HostPortsSnoc(ps: seq<string>, e: string)
    requires HostPorts(ps).Ok? && ParseInt(BeforeFirst(e, ':')).Some?
    ensures HostPorts(ps + [e]) == Ok(HostPorts(ps).value + [ParseInt(BeforeFirst(e, ':')).value])
  {
    assert (ps + [e])[..|ps|] == ps;
  }


  // ---------------------------------------------------------------------
  // Dockerfile mode: probes
  // ---------------------------------------------------------------------

  /** The URL the HTTP check of a host port uses. */
  function LocalUrl(p: int): string
  {
    "http://localhost:" + IntToString(p)
  }

  /** One of the five HTTP attempts on the port answered with a 2xx status. */
  predicate HttpHealthy(http: string -> (nat -> Attempt), p: int)
  {
    exists j :: 0 <= j < 5 && Is2xx(http(LocalUrl(p))(j))
  }

  /** "UP", "UP (TCP)" and "DOWN" in the container report. */
  datatype PortState = PortUp | PortUpTcp | PortDown

  datatype PortRow = PortRow(port: int, state: PortState, message: string)

  /** The report row of one host port: HTTP first, with five attempts; when
      none answers 2xx, a TCP connect decides between "UP (TCP)" and "DOWN". */
  function PortReport(http: string -> (nat -> Attempt), hostPortOpen: int -> bool, p: int): PortRow
  {
    if HttpHealthy(http, p) then PortRow(p, PortUp, HealthyMessage)
    else if hostPortOpen(p) then PortRow(p, PortUpTcp, "Port is open, but HTTP failed")
    else PortRow(p, PortDown, "Port unreachable")
  }

  /** The container report, one row per host port in order. */
  method CheckPorts(hostPorts: seq<int>, http: string -> (nat -> Attempt), hostPortOpen: int -> bool)
    returns (rows: seq<PortRow>)
    ensures |rows| == |hostPorts|
    ensures forall k :: 0 <= k < |rows| ==> rows[k] == PortReport(http, hostPortOpen, hostPorts[k])
    ensures forall k :: 0 <= k < |rows| ==> rows[k].port == hostPorts[k]
    ensures forall k :: 0 <= k < |rows| ==> (rows[k].state == PortUp <==> HttpHealthy(http, hostPorts[k]))
    ensures forall k :: 0 <= k < |rows| ==>
      (rows[k].state == PortUpTcp <==> !HttpHealthy(http, hostPorts[k]) && hostPortOpen(hostPorts[k]))
    ensures forall k :: 0 <= k < |rows| ==> rows[k].state == PortUp ==> rows[k].message == HealthyMessage
    ensures forall k :: 0 <= k < |rows| ==> rows[k].state == PortUpTcp ==> rows[k].message == "Port is open, but HTTP failed"
    ensures forall k :: 0 <= k < |rows| ==> rows[k].state == PortDown ==> rows[k].message == "Port unreachable"
  {
    rows := [];
    var i := 0;
    while i < |hostPorts|
      invariant 0 <= i <= |hostPorts|
      invariant |rows| == i
      invariant forall k :: 0 <= k < i ==> rows[k] == PortReport(http, hostPortOpen, hostPorts[k])
    {
      var p := hostPorts[i];
      var res, _ := CheckHealth(http(LocalUrl(p)), 5);
      if res.Ok? && res.value.success {
        rows := rows + [PortRow(p, PortUp, res.value.message)];
      } else if hostPortOpen(p) {
        rows := rows + [PortRow(p, PortUpTcp, "Port is open, but HTTP failed")];
      } else {
        rows := rows + [PortRow(p, PortDown, "Port unreachable")];
      }
      i := i + 1;
    }
  }

  // ---------------------------------------------------------------------
  // The command
  // ---------------------------------------------------------------------

  /** The exception each Docker engine call raises, or None when it succeeds:
      `docker compose up` at the end of start_compose, `docker compose ps` in
      get_project_containers, the image inspection of get_image_exposed_ports,
      `docker build` in build_dockerfile, the stop and remove of an existing
      container and `docker run` in run_container. */
  datatype Engine = Engine(composeUp: Option<PyError>, ps: Option<PyError>, imageInspect: Option<PyError>,
                           build: Option<PyError>, replace: Option<PyError>, run: Option<PyError>)

  /** Everything `up` observes: whether the path is a directory and the file
      names in it, the directory's name, the decoded Compose document of a
      file, the project's containers, the probes, the ports the Dockerfile's
      image exposes, the existing container names, and the HTTP attempts
      made against each URL. */
  datatype Env = Env(
    isDir: bool,
    files: set<string>,
    dirName: string,
    loadCompose: string -> Result<Value, PyError>,
    containers: seq<Container>,
    probes: Probes,
    imageExposedPorts: seq<string>,
    existingContainers: set<string>,
    http: string -> (nat -> Attempt),
    engine: Engine)

  /** How `up` ends.
      Crashed: an exception escapes the command.
      NoConfigFound: the error is printed and nothing runs.
      Failed: an exception is caught by the outer handler and reported.
      ComposeReport: the file started, the file read and the service rows.
      DockerfileReport: the ports published, the image, the container and the port rows. */
  datatype UpOutcome =
    | Crashed(error: PyError)
    | NoConfigFound
    | Failed(error: PyError)
    | ComposeReport(started: string, file: string, results: seq<ServiceHealth>)
    | DockerfileReport(ports: seq<string>, image: string, container: string, rows: seq<PortRow>)

  /** The Compose branch of up: start the stack, then check the health of
      its services. An exception from any step is caught and reported. */
  method UpCompose(env: Env, pull: PullArg) returns (out: UpOutcome)
    requires DetectConfiguration(env.isDir, env.files) == Ok(ComposeConfig)
    ensures out.ComposeReport? || out.Failed?
    ensures !PullAccepted(pull) ==> out == Failed(ValueError)
    ensures PullAccepted(pull) && env.engine.composeUp.Some? ==> out == Failed(env.engine.composeUp.value)
    ensures out.ComposeReport? ==>
      && PullAccepted(pull)
      && env.engine.composeUp.None? && env.engine.ps.None?
      && Some(out.started) == FirstPresent(StartComposeOrder, env.files)
      && Some(out.file) == FirstPresent(UpComposeOrder, env.files)
      && forall j, k :: 0 <= j < k < |out.results| ==> out.results[j].name != out.results[k].name
    ensures PullAccepted(pull) && env.engine.composeUp.None? ==>
      && FirstPresent(StartComposeOrder, env.files).Some?
      && FirstPresent(UpComposeOrder, env.files).Some?
      && ComposeHealthOutcome(env, FirstPresent(StartComposeOrder, env.files).value,
                              FirstPresent(UpComposeOrder, env.files).value, out)
  {
    ghost var present :| present in ComposeFileNames && present in env.files;
    assert Usable(ComposeCandidates(None)[if present == "docker-compose.yaml" then 1
                                          else if present == "docker-compose.yml" then 2
                                          else if present == "compose.yaml" then 3 else 4], env.files);
    var started := StartCompose(env.files, None, pull);
    if started.Err? {
      return Failed(started.error);
    }
    ghost var k :| 0 <= k < |ComposeCandidates(None)| && Usable(ComposeCandidates(None)[k], env.files)
                   && ComposeCandidates(None)[k].value == started.value
                   && forall j :: 0 <= j < k ==> !Usable(ComposeCandidates(None)[j], env.files);
    StartedIsFirstPresent(env.files, k);
    if env.engine.composeUp.Some? {
      return Failed(env.engine.composeUp.value);
    }
    out := CheckComposeHealth(env, started.value);
    if out.ComposeReport? {
      ComposeReportCoversTable(env, started.value, FirstPresent(UpComposeOrder, env.files).value, out);
    }
  }

  /** Every container's labels can be read. */
  predicate AllLabelled(containers: seq<Container>)
  {
    forall i :: 0 <= i < |containers| ==> containers[i].labels.Some?
  }

  /** What the health check works from: the two service maps, the container
      of each labelled service and the probe source. */
  datatype HealthInputs = HealthInputs(
    exposed: map<string, Value>,
    internal: map<string, Value>,
    cmap: map<string, Container>,
    source: Option<Container>)

  /** The steps of the Compose health check before the service loop, for the
      report file `file`, in the order they run, each with the exception that
      ends it: load, classify, `compose ps`, the label map, the probe source. */
  function ComposeHealthInputs(env: Env, file: string): Result<HealthInputs, PyError>
  {
    var data :- env.loadCompose(file);
    var classified :- Classification(data);
    if env.engine.ps.Some? then Err(env.engine.ps.value)
    else if !AllLabelled(env.containers) then Err(AttributeError)
    else
      var source :- ProbeSource(env.containers, classified.0.Keys, env.probes.hasNc);
      Ok(HealthInputs(classified.0, classified.1, LabelMap(env.containers), source))
  }

  /** The outcome of the Compose health check: the first failing step's
      exception; otherwise, when every service resolves, a report with one row
      per service, each the service's Resolve; otherwise the exception of some
      service that does not resolve. */
  predicate ComposeHealthOutcome(env: Env, started: string, file: string, out: UpOutcome)
  {
    var inputs := ComposeHealthInputs(env, file);
    if inputs.Err? then out == Failed(inputs.error)
    else
      var h := inputs.value;
      var names := h.exposed.Keys + h.internal.Keys;
      if AllResolve(names, h.exposed, h.internal, h.cmap, h.source, env.probes) then
        && out.ComposeReport? && out.started == started && out.file == file
        && ReportRows(out.results, names, h.exposed, h.internal, h.cmap, h.source, env.probes)
      else
        out.Failed? && SomeRaises(names, h.exposed, h.internal, h.cmap, h.source, env.probes, out.error)
  }

  /** A Compose report follows a successful `compose ps` and has exactly one row
      per service of the report file's table, the names of the classified maps
      being the table's names. */
  lemma ComposeReportCoversTable(env: Env, started: string, file: string, out: UpOutcome)
    requires ComposeHealthOutcome(env, started, file, out) && out.ComposeReport?
    ensures out.started == started && out.file == file
    ensures env.engine.ps.None?
    ensures env.loadCompose(file).Ok? && ServiceTable(env.loadCompose(file).value).Ok?
    ensures var items := ServiceTable(env.loadCompose(file).value).value;
      && |out.results| == |NameSet(items)|
      && forall n :: n in NameSet(items) <==> exists k :: 0 <= k < |out.results| && out.results[k].name == n
    ensures forall j, k :: 0 <= j < k < |out.results| ==> out.results[j].name != out.results[k].name
  {
    var data := env.loadCompose(file).value;
    ClassificationNames(data);
  }

  /** The steps of the health check before the service loop: load the report
      file, classify its services, list the project's containers, map them by
      service and pick the probe source. */
  method PrepareHealth(env: Env, file: string) returns (r: Result<HealthInputs, PyError>)
    ensures r == ComposeHealthInputs(env, file)
  {
    var composeData := env.loadCompose(file);
    if composeData.Err? {
      return Err(composeData.error);
    }
    var classified := ClassifyServices(composeData.value);
    if classified.Err? {
      return Err(classified.error);
    }
    var (exposedServices, internalServices) := classified.value;
    if env.engine.ps.Some? {
      return Err(env.engine.ps.value);
    }
    var serviceContainerMap := BuildServiceContainerMap(env.containers);
    if serviceContainerMap.Err? {
      assert !AllLabelled(env.containers);
      return Err(serviceContainerMap.error);
    }
    var sourceContainer := SelectProbeSource(env.containers, exposedServices.Keys, env.probes.hasNc);
    assert sourceContainer.Ok?;
    return Ok(HealthInputs(exposedServices, internalServices, serviceContainerMap.value, sourceContainer.value));
  }

  /** The health-check part of the Compose branch, after `started` was brought
      up: find the report file, prepare the inputs and resolve every service. */
  method CheckComposeHealth(env: Env, started: string) returns (out: UpOutcome)
    requires exists f :: f in ComposeFileNames && f in env.files
    ensures out.ComposeReport? || out.Failed?
    ensures FirstPresent(UpComposeOrder, env.files).Some?
            && ComposeHealthOutcome(env, started, FirstPresent(UpComposeOrder, env.files).value, out)
  {
    var composePath := FindComposeFile(env.files);
    assert forall f :: f in ComposeFileNames <==> f in UpComposeOrder;
    assert composePath.Some?;
    var inputs := PrepareHealth(env, composePath.value);
    if inputs.Err? {
      return Failed(inputs.error);
    }
    var h := inputs.value;
    var results := ResolveAll(h.exposed.Keys + h.internal.Keys, h.exposed, h.internal, h.cmap, h.source, env.probes);
    if results.Err? {
      return Failed(results.error);
    }
    return ComposeReport(started, composePath.value, results.value);
  }

  /** The container the Dockerfile branch runs: the default image's name
      before its first `:`, plus "_app". */
  function AppContainer(dirName: string): string
  {
    BeforeFirst(dirName + ":latest", ':') + "_app"
  }

  /** Every engine call of the Dockerfile branch succeeds: the image inspection,
      the build, the replacement of an existing container (which needs `force`)
      and the run. */
  predicate Launches(env: Env, force: bool)
  {
    && env.engine.imageInspect.None? && env.engine.build.None?
    && (AppContainer(env.dirName) in env.existingContainers ==> force && env.engine.replace.None?)
    && env.engine.run.None?
  }

  /** The Dockerfile branch of up: merge the image's exposed ports into the
      port list, build, run, then probe every host port. */
  method UpDockerfile(env: Env, port: seq<string>, force: bool) returns (out: UpOutcome)
    requires DetectConfiguration(env.isDir, env.files) == Ok(DockerfileConfig)
    ensures out.DockerfileReport? || out.Failed?
    ensures env.engine.imageInspect.Some? ==> out == Failed(env.engine.imageInspect.value)
    ensures env.engine.imageInspect.None? && env.engine.build.Some? ==> out == Failed(env.engine.build.value)
    ensures env.engine.imageInspect.None? && env.engine.build.None? && !force
            && AppContainer(env.dirName) in env.existingContainers
            ==> out == Failed(RuntimeError)
    ensures env.engine.imageInspect.None? && env.engine.build.None? && force
            && AppContainer(env.dirName) in env.existingContainers && env.engine.replace.Some?
            ==> out == Failed(env.engine.replace.value)
    ensures env.engine.imageInspect.None? && env.engine.build.None?
            && (AppContainer(env.dirName) in env.existingContainers ==> force && env.engine.replace.None?)
            && env.engine.run.Some?
            ==> out == Failed(env.engine.run.value)
    ensures Launches(env, force) && HostPorts(MergedPorts(port, env.imageExposedPorts)).Err?
            ==> out == Failed(ValueError)
    ensures Launches(env, force) && HostPorts(MergedPorts(port, env.imageExposedPorts)).Ok?
            ==> out.DockerfileReport?
    ensures out.DockerfileReport? ==>
      && Launches(env, force)
      && out.ports == MergedPorts(port, env.imageExposedPorts)
      && out.image == env.dirName + ":latest"
      && out.container == AppContainer(env.dirName)
      && HostPorts(out.ports).Ok?
      && |out.rows| == |HostPorts(out.ports).value| == |out.ports|
      && forall k :: 0 <= k < |out.rows| ==>
           out.rows[k] == PortReport(env.http, env.probes.hostPortOpen, HostPorts(out.ports).value[k])
  {
    if env.engine.imageInspect.Some? {
      return Failed(env.engine.imageInspect.value);
    }
    var ports := MergeExposedPorts(port, env.imageExposedPorts);
    var img := BuildDockerfile(env.files, env.dirName, None);
    assert img.Ok?;
    if env.engine.build.Some? {
      return Failed(env.engine.build.value);
    }
    var container := RunContainer(img.value, None, ports, env.existingContainers, force);
    if container.Err? {
      return Failed(container.error);
    }
    if container.value.replacedExisting && env.engine.replace.Some? {
      return Failed(env.engine.replace.value);
    }
    if env.engine.run.Some? {
      return Failed(env.engine.run.value);
    }
    var hostPort := HostPorts(ports);
    if hostPort.Err? {
      return Failed(hostPort.error);
    }
    var rows := CheckPorts(hostPort.value, env.http, env.probes.hostPortOpen);
    return DockerfileReport(ports, img.value, container.value.name, rows);
  }

  /** up. A path that is not a directory leaves `config_mode` unbound, so the
      next comparison raises; without a configuration nothing runs. */
  method Up(env: Env, port: seq<string>, pull: PullArg, force: bool) returns (out: UpOutcome)
    ensures out == Crashed(UnboundLocalError) <==> !env.isDir
    ensures out.Crashed? ==> out.error == UnboundLocalError
    ensures out == NoConfigFound <==> DetectConfiguration(env.isDir, env.files) == Ok(NoConfig)
    ensures DetectConfiguration(env.isDir, env.files) == Ok(ComposeConfig) ==> out.ComposeReport? || out.Failed?
    ensures DetectConfiguration(env.isDir, env.files) == Ok(DockerfileConfig) ==> out.DockerfileReport? || out.Failed?
    ensures DetectConfiguration(env.isDir, env.files) == Ok(ComposeConfig) && !PullAccepted(pull) ==> out == Failed(ValueError)
    ensures out.ComposeReport? ==> DetectConfiguration(env.isDir, env.files) == Ok(ComposeConfig)
    ensures out.DockerfileReport? ==> DetectConfiguration(env.isDir, env.files) == Ok(DockerfileConfig)
  {
    var mode := DetectConfiguration(env.isDir, env.files);
    if mode.Err? {
      return Crashed(UnboundLocalError);
    }
    var configMode := mode.value;
    if configMode == NoConfig {
      return NoConfigFound;
    }
    if configMode == ComposeConfig {
      out := UpCompose(env, pull);
    } else {
      out := UpDockerfile(env, port, force);
    }
  }

  // ---------------------------------------------------------------------
  // Properties of the strategy chain
  // ---------------------------------------------------------------------

  /** A service whose definition passes the `"healthcheck" in svc_def` test and
      whose container reports "healthy" is UP by the native check. */
  lemma NativeHealthyIsUp(name: string, exposed: map<string, Value>, internal: map<string, Value>,
                          cmap: map<string, Container>, source: Option<Container>, probes: Probes)
    requires HasNativeHealthcheck(SvcDef(name, exposed, internal)) == Ok(true)
    requires name in cmap && probes.inspect(cmap[name].name) == Inspected(Some("healthy"))
    ensures Resolve(name, exposed, internal, cmap, source, probes)
         == Ok(ServiceHealth(name, Native, UP, "Native Docker Health Check Passed"))
  {
  }

  /** Any other health value, or none, is DOWN and is echoed in the details. */
  lemma NativeOtherIsDown(name: string, exposed: map<string, Value>, internal: map<string, Value>,
                          cmap: map<string, Container>, source: Option<Container>, probes: Probes)
    requires HasNativeHealthcheck(SvcDef(name, exposed, internal)) == Ok(true)
    requires name in cmap && probes.inspect(cmap[name].name) != Inspected(Some("healthy"))
    ensures Resolve(name, exposed, internal, cmap, source, probes)
         == Ok(ServiceHealth(name, Native, DOWN, "Native Check: " + HealthText(GetContainerHealth(probes.inspect(cmap[name].name)))))
  {
  }

  /** The native check needs a container labelled with the service. */
  lemma NativeWithoutContainerIsDown(name: string, exposed: map<string, Value>, internal: map<string, Value>,
                                     cmap: map<string, Container>, source: Option<Container>, probes: Probes)
    requires HasNativeHealthcheck(SvcDef(name, exposed, internal)) == Ok(true)
    requires name !in cmap
    ensures Resolve(name, exposed, internal, cmap, source, probes)
         == Ok(ServiceHealth(name, Native, DOWN, "Container not found for native check"))
  {
  }

  /** An internal service checked from a probe source raises whatever reading
      its internal port raises: the whole report ends there. */
  lemma InternalPortErrorRaises(name: string, exposed: map<string, Value>, internal: map<string, Value>,
                                cmap: map<string, Container>, source: Container, probes: Probes)
    requires name !in exposed && name in internal
    requires HasNativeHealthcheck(SvcDef(name, exposed, internal)) == Ok(false)
    requires GetServiceInternalPort(SvcDef(name, exposed, internal)).Err?
    ensures Resolve(name, exposed, internal, cmap, Some(source), probes)
         == Err(GetServiceInternalPort(SvcDef(name, exposed, internal)).error)
  {
  }

  /** An exposed service whose ports are a list is never checked natively, even
      when its definition has a `healthcheck` block: the value inspected is the
      ports list, and no port entry is the text "healthcheck". */
  lemma ExposedHealthcheckIgnored(name: string, ports: seq<Value>, exposed: map<string, Value>, internal: map<string, Value>,
                                  cmap: map<string, Container>, source: Option<Container>, probes: Probes)
    requires name in exposed && exposed[name] == List(ports) && ports != []
    requires Str("healthcheck") !in ports
    ensures Resolve(name, exposed, internal, cmap, source, probes).Ok? ==>
      Resolve(name, exposed, internal, cmap, source, probes).value.kind == Exposed
  {
  }

  /** A published "host:container" text entry is probed on its host port. */
  lemma PublishedTextPort(name: string, host: nat, container: nat, exposed: map<string, Value>, internal: map<string, Value>,
                          cmap: map<string, Container>, source: Option<Container>, probes: Probes)
    requires host != 0
    requires name in exposed && exposed[name] == List([Str(NatToString(host) + ":" + NatToString(container))])
    ensures Resolve(name, exposed, internal, cmap, source, probes)
         == Ok(ServiceHealth(name, Exposed, if probes.hostPortOpen(host) then UP else DOWN,
                             "localhost:" + NatToString(host) + (if probes.hostPortOpen(host) then " (Port Open)" else " (Port Closed)")))
  {
    var text := NatToString(host) + ":" + NatToString(container);
    NatTextHasNoColon(host);
    assert text == NatToString(host) + [':'] + NatToString(container);
    SplitAfterPiece(NatToString(host), NatToString(container), ':');
    SplitFirstPiece(text, ':');
    ParseShowInt(host);
    assert EntryHostPort(Str(text)) == Ok(Some(host as int));
    assert [Str(text)][1..] == [];
    assert HostPortOf(exposed[name]) == Ok(Some(host as int));
    assert Str("healthcheck") !in [Str(text)];
  }

  /** A text entry whose host segment is not an integer raises ValueError, and
      so the whole report is abandoned. */
  lemma NonIntegerHostAborts(name: string, entry: string, exposed: map<string, Value>, internal: map<string, Value>,
                             cmap: map<string, Container>, source: Option<Container>, probes: Probes)
    requires name in exposed && exposed[name] == List([Str(entry)]) && entry != "healthcheck"
    requires ParseInt(BeforeFirst(entry, ':')).None?
    ensures Resolve(name, exposed, internal, cmap, source, probes) == Err(ValueError)
  {
    assert Str("healthcheck") !in [Str(entry)];
    assert HostPortOf(exposed[name]) == Err(ValueError);
  }

  /** A structured entry `{published: p, target: p}` makes the service exposed
      and is probed on `p`, although the internal-port rule would also find `p`. */
  lemma PublishedStructuredPort(name: string, p: int, exposed: map<string, Value>, internal: map<string, Value>,
                                cmap: map<string, Container>, source: Option<Container>, probes: Probes)
    requires p != 0
    requires name in exposed && exposed[name] == List([Dict([("published", Int(p)), ("target", Int(p))])])
    ensures var r := Resolve(name, exposed, internal, cmap, source, probes);
      r.Ok? && r.value.kind == Exposed && (r.value.status == UP <==> probes.hostPortOpen(p))
  {
    var entry := Dict([("published", Int(p)), ("target", Int(p))]);
    assert Keys(entry.entries) == ["published", "target"];
    assert HasKey(entry, "published");
    assert Lookup(entry.entries, "published") == Some(Int(p));
    assert EntryHostPort(entry) == Ok(Some(p));
    assert [entry][1..] == [];
    assert HostPortOf(exposed[name]) == Ok(Some(p));
    assert Str("healthcheck") !in [entry];
  }

  /** Without a probe source every internal service without a healthcheck is
      SKIPPED, never UP or DOWN. */
  lemma NoSourceSkips(name: string, exposed: map<string, Value>, internal: map<string, Value>,
                      cmap: map<string, Container>, probes: Probes)
    requires name !in exposed && name in internal
    requires internal[name].Dict? && !HasKey(internal[name], "healthcheck")
    ensures Resolve(name, exposed, internal, cmap, None, probes)
         == Ok(ServiceHealth(name, Internal, SKIPPED, "No source container for internal check"))
  {
  }

  /** An internal service with no healthcheck, no ports and no expose entry is
      UNKNOWN when there is a probe source. */
  lemma NoPortInternalUnknown(name: string, exposed: map<string, Value>, internal: map<string, Value>,
                              cmap: map<string, Container>, source: Container, probes: Probes)
    requires name !in exposed && name in internal
    requires internal[name].Dict?
    requires !HasKey(internal[name], "healthcheck") && !HasKey(internal[name], "ports") && !HasKey(internal[name], "expose")
    ensures Resolve(name, exposed, internal, cmap, Some(source), probes)
         == Ok(ServiceHealth(name, Internal, UNKNOWN, "No internal port defined"))
  {
    NoPortsNoExpose(internal[name]);
  }

  /** An internal service is probed from the source container on the host of
      its labelled container, or its own name. */
  lemma InternalProbeTarget(name: string, exposed: map<string, Value>, internal: map<string, Value>,
                            cmap: map<string, Container>, source: Container, probes: Probes, n: int)
    requires name !in exposed && name in internal
    requires internal[name].Dict? && !HasKey(internal[name], "healthcheck")
    requires GetServiceInternalPort(internal[name]) == Ok(Some(n)) && n != 0
    ensures var host := if name in cmap then cmap[name].name else name;
      Resolve(name, exposed, internal, cmap, Some(source), probes)
      == Ok(ServiceHealth(name, Internal, if probes.internalTcp(source.name, host, n) then UP else DOWN,
                          host + ":" + IntToString(n) + " from " + source.name))
  {
  }

  /** An entry that gives no host port, or 0, does not stop the scan. */
  predicate Undecided(pd: Value)
  {
    EntryHostPort(pd).Ok? && (EntryHostPort(pd).value.None? || EntryHostPort(pd).value.value == 0)
  }

  /** The first entry that gives a non-zero host port decides the exposed
      check: the entries before it give none or 0, and those after it are
      never read. */
  lemma {:induction false} HostPortScanFirst(pds: seq<Value>, j: int, h: int)
    requires 0 <= j < |pds| && EntryHostPort(pds[j]) == Ok(Some(h)) && h != 0
    requires forall i :: 0 <= i < j ==> Undecided(pds[i])
    ensures HostPortScan(pds) == Ok(Some(h))
    decreases j
  {
    if j > 0 {
      assert forall i :: 0 <= i < j - 1 ==> pds[1..][i] == pds[i + 1];
      HostPortScanFirst(pds[1..], j - 1, h);
    }
  }

  /** When no entry gives a non-zero host port, the exposed check finds none. */
  lemma {:induction false} HostPortScanNone(pds: seq<Value>)
    requires forall i :: 0 <= i < |pds| ==> Undecided(pds[i])
    ensures HostPortScan(pds) == Ok(None)
    decreases |pds|
  {
    if pds != [] {
      assert forall i :: 0 <= i < |pds| - 1 ==> pds[1..][i] == pds[i + 1];
      HostPortScanNone(pds[1..]);
    }
  }

  /** The exposed check of a service that is not checked natively: an
      exception from its ports raises; no host port gives UNKNOWN "No host
      port found"; a host port gives UP iff it accepts a connection, with the
      port in the details. */
  lemma ExposedStatus(name: string, exposed: map<string, Value>, internal: map<string, Value>,
                      cmap: map<string, Container>, source: Option<Container>, probes: Probes)
    requires name in exposed
    requires HasNativeHealthcheck(SvcDef(name, exposed, internal)) == Ok(false)
    ensures var r := Resolve(name, exposed, internal, cmap, source, probes);
      var hp := HostPortOf(exposed[name]);
      && (hp.Err? ==> r == Err(hp.error))
      && (hp == Ok(None) ==> r == Ok(ServiceHealth(name, Exposed, UNKNOWN, "No host port found")))
      && (hp.Ok? && hp.value.Some? ==>
            r == Ok(ServiceHealth(name, Exposed, if probes.hostPortOpen(hp.value.value) then UP else DOWN,
                                  "localhost:" + IntToString(hp.value.value)
                                  + (if probes.hostPortOpen(hp.value.value) then " (Port Open)" else " (Port Closed)"))))
  {
  }

  /** The internal check with a probe source: a port of None or 0 gives
      UNKNOWN "No internal port defined". */
  lemma InternalNoPortUnknown(name: string, exposed: map<string, Value>, internal: map<string, Value>,
                              cmap: map<string, Container>, source: Container, probes: Probes)
    requires name !in exposed && name in internal
    requires HasNativeHealthcheck(SvcDef(name, exposed, internal)) == Ok(false)
    requires GetServiceInternalPort(SvcDef(name, exposed, internal)) in {Ok(None), Ok(Some(0))}
    ensures Resolve(name, exposed, internal, cmap, Some(source), probes)
         == Ok(ServiceHealth(name, Internal, UNKNOWN, "No internal port defined"))
  {
  }

  /** The two-service example: `web` publishes `host:container` and nothing
      listens on the host port; `db` only exposes a port; no container runs.
      The report is web Exposed DOWN on the closed port and db SKIPPED. */
  lemma WebAndDatabase(host: nat, container: nat, dbPort: string, probes: Probes)
    requires host != 0 && !probes.hostPortOpen(host)
    ensures var exposed := map["web" := List([Str(NatToString(host) + ":" + NatToString(container))])];
      var internal := map["db" := Dict([("expose", List([Str(dbPort)]))])];
      && Resolve("web", exposed, internal, map[], None, probes)
         == Ok(ServiceHealth("web", Exposed, DOWN, "localhost:" + NatToString(host) + " (Port Closed)"))
      && Resolve("db", exposed, internal, map[], None, probes)
         == Ok(ServiceHealth("db", Internal, SKIPPED, "No source container for internal check"))
  {
    var exposed := map["web" := List([Str(NatToString(host) + ":" + NatToString(container))])];
    var internal := map["db" := Dict([("expose", List([Str(dbPort)]))])];
    PublishedTextPort("web", host, container, exposed, internal, map[], None, probes);
    var db := Dict([("expose", List([Str(dbPort)]))]);
    assert Keys(db.entries) == ["expose"];
    NoSourceSkips("db", exposed, internal, map[], probes);
  }
}

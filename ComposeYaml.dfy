/** The Compose model extractor (app/services/yaml_svc.py): it reads the
    `services` mapping of an already-decoded Compose document, splits the
    services into exposed and internal ones, normalises and flattens port
    entries, finds the port to probe inside the network, and detects a
    `healthcheck` block. */
module ComposeYaml {
  import opened Wrappers
  import opened Strings
  import opened PyValues

  /** `compose.get("services", {})`. */
  function Services(compose: Value): Result<Value, PyError>
  {
    Get(compose, "services", Dict([]))
  }

  /** `services.items()`, which raises unless the services value is a dict. */
  function ServiceTable(compose: Value): (r: Result<seq<(string, Value)>, PyError>)
    ensures r.Err? ==> r.error == AttributeError
    ensures r.Ok? ==> forall i, j :: 0 <= i < j < |r.value| ==> r.value[i].0 != r.value[j].0
  {
    var services :- Services(compose);
    if services.Dict? then Ok(Items(services.entries)) else Err(AttributeError)
  }

  /** `svc.get("ports", [])` for a service that is a dict. */
  function PortsField(svc: Value): Value
    requires svc.Dict?
  {
    Get(svc, "ports", List([])).value
  }

  /** Every service in the table can answer `.get`: otherwise the loops raise. */
  predicate AllDicts(items: seq<(string, Value)>)
  {
    forall i :: 0 <= i < |items| ==> items[i].1.Dict?
  }

  /** The names of the services in a table. */
  function NameSet(items: seq<(string, Value)>): set<string>
  {
    if items == [] then {} else NameSet(items[..|items| - 1]) + {items[|items| - 1].0}
  }

  /** NameSet holds exactly the names that occur in the table. */
  lemma {:induction false} NameSetMember(items: seq<(string, Value)>, n: string)
    ensures n in NameSet(items) <==> exists i :: 0 <= i < |items| && items[i].0 == n
    decreases |items|
  {
    if items != [] {
      var front := items[..|items| - 1];
      NameSetMember(front, n);
      if n in NameSet(front) {
        var i :| 0 <= i < |front| && front[i].0 == n;
        assert items[i].0 == n;
      }
      if exists i :: 0 <= i < |items| && items[i].0 == n {
        var i :| 0 <= i < |items| && items[i].0 == n;
        if i < |front| {
          assert front[i].0 == n;
        }
      }
    }
  }

  /** Where classify_services puts service `n` with definition `svc`: under
      exposed with its raw `ports` value when that is truthy, else under
      internal with the whole definition. */
  predicate Placed(exposed: map<string, Value>, internal: map<string, Value>, n: string, svc: Value)
  {
    && svc.Dict?
    && if Truthy(PortsField(svc)) then n in exposed && exposed[n] == PortsField(svc)
       else n in internal && internal[n] == svc
  }

  // ---------------------------------------------------------------------
  // classify_services
  // ---------------------------------------------------------------------

  /** classify_services: a service whose `ports` value is truthy is exposed and
      keeps that raw value; any other service is internal and keeps its whole
      definition. Every service lands in exactly one of the two. */
  method ClassifyServices(compose: Value) returns (r: Result<(map<string, Value>, map<string, Value>), PyError>)
    ensures r.Err? <==> ServiceTable(compose).Err? || !AllDicts(ServiceTable(compose).value)
    ensures r.Err? ==> r.error == AttributeError
    ensures r.Ok? ==>
      var items := ServiceTable(compose).value;
      && r.value.0.Keys !! r.value.1.Keys
      && r.value.0.Keys + r.value.1.Keys == NameSet(items)
      && forall i :: 0 <= i < |items| ==> Placed(r.value.0, r.value.1, items[i].0, items[i].1)
    ensures r == Classification(compose)
  {
    var items :- ServiceTable(compose);
    r := ClassifyTable(items);
  }

  /** The loop of classify_services over the `(name, definition)` pairs. */
  /** One step of classify_services: file service `name` under exposed with
      its ports when they are truthy, else under internal. */
  function Place(exposed: map<string, Value>, internal: map<string, Value>, name: string, svc: Value)
    : (r: (map<string, Value>, map<string, Value>))
    requires svc.Dict?
    ensures Placed(r.0, r.1, name, svc)
  {
    var ports := PortsField(svc);
    if Truthy(ports) then (exposed[name := ports], internal) else (exposed, internal[name := svc])
  }

  /** Placing the next service of the table keeps the classification of the
      ones before it and extends the filed names by exactly that service. */
  lemma PlaceStep(exposed: map<string, Value>, internal: map<string, Value>, items: seq<(string, Value)>, i: int)
    requires 0 <= i < |items| && items[i].1.Dict?
    requires forall j :: 0 <= j < i ==> items[j].0 != items[i].0
    requires exposed.Keys !! internal.Keys
    requires exposed.Keys + internal.Keys == NameSet(items[..i])
    requires forall j :: 0 <= j < i ==> Placed(exposed, internal, items[j].0, items[j].1)
    ensures var r := Place(exposed, internal, items[i].0, items[i].1);
      && r.0.Keys !! r.1.Keys
      && r.0.Keys + r.1.Keys == NameSet(items[..i + 1])
      && forall j :: 0 <= j <= i ==> Placed(r.0, r.1, items[j].0, items[j].1)
  {
    var name := items[i].0;
    NameSetMember(items[..i], name);
    assert items[..i + 1][..i] == items[..i];
  }

  /** The two maps classify_services builds: every service placed in table
      order, so a later entry overwrites an earlier one of the same name. */
  function Classified(items: seq<(string, Value)>): (map<string, Value>, map<string, Value>)
    requires AllDicts(items)
    decreases |items|
  {
    if items == [] then (map[], map[])
    else
      var front := Classified(items[..|items| - 1]);
      var last := items[|items| - 1];
      Place(front.0, front.1, last.0, last.1)
  }

  /** For a table with distinct names, the maps are disjoint, hold exactly the
      table's names, and file each service by its `ports` value. */
  lemma {:induction false} ClassifiedPlacesAll(items: seq<(string, Value)>)
    requires AllDicts(items)
    requires forall i, j :: 0 <= i < j < |items| ==> items[i].0 != items[j].0
    ensures var r := Classified(items);
      && r.0.Keys !! r.1.Keys
      && r.0.Keys + r.1.Keys == NameSet(items)
      && forall i :: 0 <= i < |items| ==> Placed(r.0, r.1, items[i].0, items[i].1)
    decreases |items|
  {
    if items != [] {
      var last := |items| - 1;
      var front := items[..last];
      ClassifiedPlacesAll(front);
      var r := Classified(front);
      assert items[..last] == front;
      PlaceStep(r.0, r.1, items, last);
      assert items[..last + 1] == items;
    }
  }

  /** What classify_services returns for a decoded document. */
  function Classification(compose: Value): Result<(map<string, Value>, map<string, Value>), PyError>
  {
    var items :- ServiceTable(compose);
    if AllDicts(items) then Ok(Classified(items)) else Err(AttributeError)
  }

  /** A successful classification files every service of the table exactly once. */
  lemma ClassificationNames(compose: Value)
    requires Classification(compose).Ok?
    ensures ServiceTable(compose).Ok?
    ensures var r := Classification(compose).value;
      && r.0.Keys !! r.1.Keys
      && r.0.Keys + r.1.Keys == NameSet(ServiceTable(compose).value)
  {
    ClassifiedPlacesAll(ServiceTable(compose).value);
  }

  /** The loop of classify_services over the `(name, definition)` pairs. */
  method ClassifyTable(items: seq<(string, Value)>) returns (r: Result<(map<string, Value>, map<string, Value>), PyError>)
    requires forall i, j :: 0 <= i < j < |items| ==> items[i].0 != items[j].0
    ensures r.Err? <==> !AllDicts(items)
    ensures r.Err? ==> r.error == AttributeError
    ensures r.Ok? ==>
      && r.value.0.Keys !! r.value.1.Keys
      && r.value.0.Keys + r.value.1.Keys == NameSet(items)
      && forall i :: 0 <= i < |items| ==> Placed(r.value.0, r.value.1, items[i].0, items[i].1)
    ensures r.Ok? ==> r.value == Classified(items)
  {
    var exposed: map<string, Value> := map[];
    var internal: map<string, Value> := map[];
    var i := 0;
    while i < |items|
      invariant 0 <= i <= |items|
      invariant forall j :: 0 <= j < i ==> items[j].1.Dict?
      invariant exposed.Keys !! internal.Keys
      invariant exposed.Keys + internal.Keys == NameSet(items[..i])
      invariant forall j :: 0 <= j < i ==> Placed(exposed, internal, items[j].0, items[j].1)
      invariant (exposed, internal) == Classified(items[..i])
    {
      if !items[i].1.Dict? {
        return Err(AttributeError);
      }
      PlaceStep(exposed, internal, items, i);
      assert items[..i + 1][..i] == items[..i];
      var placed := Place(exposed, internal, items[i].0, items[i].1);
      exposed, internal := placed.0, placed.1;
      i := i + 1;
    }
    assert items[..i] == items;
    return Ok((exposed, internal));
  }


  // ---------------------------------------------------------------------
  // extract_ports_from_compose and flatten_ports
  // ---------------------------------------------------------------------

  /** `d.get(k)` on a dict entry: None when the key is missing. */
  function Field(d: Value, k: string): Value
    requires d.Dict?
  {
    Get(d, k, Null).value
  }

  /** One `ports` entry as extract_ports_from_compose keeps it: a text as it is,
      a dict as "published:target" when both are truthy; anything else is dropped. */
  function NormalizePort(p: Value): Option<string>
  {
    match p
    case Str(s) => Some(s)
    case Dict(_) =>
      var published := Field(p, "published");
      var target := Field(p, "target");
      if Truthy(published) && Truthy(target) then Some(ToText(published) + ":" + ToText(target))
      else None
    case _ => None
  }

  /** The normalised entries of a `ports` list, in order. */
  function NormalizePorts(ps: seq<Value>): (r: seq<string>)
    ensures |r| <= |ps|
    decreases |ps|
  {
    if ps == [] then []
    else
      var last := NormalizePort(ps[|ps| - 1]);
      NormalizePorts(ps[..|ps| - 1]) + (if last.Some? then [last.value] else [])
  }

  /** Normalising a list piece by piece gives the same as normalising it whole. */
  lemma {:induction false} NormalizePortsAppend(a: seq<Value>, b: seq<Value>)
    ensures NormalizePorts(a + b) == NormalizePorts(a) + NormalizePorts(b)
    decreases |b|
  {
    if b == [] {
      assert a + b == a;
    } else {
      var b' := b[..|b| - 1];
      assert (a + b)[..|a + b| - 1] == a + b';
      assert (a + b)[|a + b| - 1] == b[|b| - 1];
      NormalizePortsAppend(a, b');
    }
  }

  /** A list of text entries is kept verbatim and in order. */
  lemma {:induction false} NormalizeTextPorts(ps: seq<Value>)
    requires forall i :: 0 <= i < |ps| ==> ps[i].Str?
    ensures NormalizePorts(ps) == seq(|ps|, i requires 0 <= i < |ps| => ps[i].s)
    decreases |ps|
  {
    if ps != [] {
      NormalizeTextPorts(ps[..|ps| - 1]);
    }
  }

  /** Nothing survives normalisation exactly when no entry is a text and no dict
      entry has both a truthy `published` and a truthy `target`. */
  lemma {:induction false} NormalizePortsEmpty(ps: seq<Value>)
    ensures NormalizePorts(ps) == [] <==> forall i :: 0 <= i < |ps| ==> NormalizePort(ps[i]).None?
    decreases |ps|
  {
    if ps != [] {
      var front := ps[..|ps| - 1];
      NormalizePortsEmpty(front);
      assert forall i :: 0 <= i < |front| ==> front[i] == ps[i];
    }
  }

  /** The normalised entries of one service, or the exception its loop raises. */
  function ServicePorts(svc: Value): Result<seq<string>, PyError>
  {
    var ports :- Get(svc, "ports", List([]));
    var entries :- Iterate(ports);
    Ok(NormalizePorts(entries))
  }

  /** The port map built over the services in `items`, in order: a service whose
      entries all drop gets no entry. The first exception ends the walk. */
  function PortMap(items: seq<(string, Value)>): Result<seq<(string, seq<string>)>, PyError>
    decreases |items|
  {
    if items == [] then Ok([])
    else
      var m :- PortMap(items[..|items| - 1]);
      var (name, svc) := items[|items| - 1];
      var ps :- ServicePorts(svc);
      Ok(if ps == [] then m else m + [(name, ps)])
  }

  /** extract_ports_from_compose as a specification. */
  function ExtractPorts(compose: Value): Result<seq<(string, seq<string>)>, PyError>
  {
    var items :- ServiceTable(compose);
    PortMap(items)
  }

  /** extract_ports_from_compose: the outer loop of the source, over the services. */
  method ExtractPortsFromCompose(compose: Value) returns (r: Result<seq<(string, seq<string>)>, PyError>)
    ensures r == ExtractPorts(compose)
  {
    var items :- ServiceTable(compose);
    var portsMap: seq<(string, seq<string>)> := [];
    var i := 0;
    while i < |items|
      invariant 0 <= i <= |items|
      invariant PortMap(items[..i]) == Ok(portsMap)
    {
      var name, service := items[i].0, items[i].1;
      assert items[..i + 1][..i] == items[..i];
      var ports := Get(service, "ports", List([]));
      if ports.Err? {
        PortMapErrorStops(items, i + 1);
        return Err(ports.error);
      }
      var entries := Iterate(ports.value);
      if entries.Err? {
        PortMapErrorStops(items, i + 1);
        return Err(entries.error);
      }
      var extracted := ExtractEntries(entries.value);
      assert ServicePorts(service) == Ok(extracted);
      if extracted != [] {
        portsMap := portsMap + [(name, extracted)];
      }
      i := i + 1;
    }
    assert items[..i] == items;
    return Ok(portsMap);
  }

  /** The inner loop of extract_ports_from_compose, over the entries of one `ports` list. */
  method ExtractEntries(entries: seq<Value>) returns (extracted: seq<string>)
    ensures extracted == NormalizePorts(entries)
  {
    extracted := [];
    var j := 0;
    while j < |entries|
      invariant 0 <= j <= |entries|
      invariant extracted == NormalizePorts(entries[..j])
    {
      var port := entries[j];
      assert entries[..j + 1][..j] == entries[..j];
      if port.Str? {
        extracted := extracted + [port.s];
      } else if port.Dict? {
        var published := Get(port, "published", Null).value;
        var target := Get(port, "target", Null).value;
        if Truthy(published) && Truthy(target) {
          extracted := extracted + [ToText(published) + ":" + ToText(target)];
        }
      }
      j := j + 1;
    }
    assert entries[..j] == entries;
  }

  /** Once the walk over a prefix raised, the walk over the whole table raises the same. */
  lemma {:induction false} PortMapErrorStops(items: seq<(string, Value)>, k: nat)
    requires k <= |items| && PortMap(items[..k]).Err?
    ensures PortMap(items) == PortMap(items[..k])
    decreases |items| - k
  {
    if k < |items| {
      assert items[..k + 1][..k] == items[..k];
      PortMapErrorStops(items, k + 1);
    } else {
      assert items[..k] == items;
    }
  }

  /** Every list in the port map is non-empty and belongs to one of the services. */
  lemma {:induction false} PortMapShape(items: seq<(string, Value)>)
    requires PortMap(items).Ok?
    ensures var m := PortMap(items).value;
      forall k :: 0 <= k < |m| ==> m[k].1 != [] && exists i :: 0 <= i < |items| && items[i].0 == m[k].0
    decreases |items|
  {
    if items != [] {
      var front := items[..|items| - 1];
      PortMapShape(front);
      assert forall i :: 0 <= i < |front| ==> front[i] == items[i];
    }
  }

  /** When the service names are distinct, so are the names of the port map. */
  lemma {:induction false} PortMapUnique(items: seq<(string, Value)>)
    requires PortMap(items).Ok?
    requires forall i, j :: 0 <= i < j < |items| ==> items[i].0 != items[j].0
    ensures var m := PortMap(items).value;
      forall k, l :: 0 <= k < l < |m| ==> m[k].0 != m[l].0
    decreases |items|
  {
    if items != [] {
      var front := items[..|items| - 1];
      assert forall i :: 0 <= i < |front| ==> front[i] == items[i];
      PortMapUnique(front);
      PortMapShape(front);
      var m := PortMap(front).value;
      forall k | 0 <= k < |m| ensures m[k].0 != items[|items| - 1].0 {
        var i :| 0 <= i < |front| && front[i].0 == m[k].0;
        assert items[i].0 == m[k].0;
      }
    }
  }

  /** The port map of a document drops no port: the services of the map are
      exactly those whose normalised entries are non-empty, with those entries. */
  lemma {:induction false} PortMapKeepsEveryPort(items: seq<(string, Value)>, i: nat)
    requires PortMap(items).Ok? && i < |items|
    ensures ServicePorts(items[i].1).Ok?
    ensures ServicePorts(items[i].1).value != [] ==> (items[i].0, ServicePorts(items[i].1).value) in PortMap(items).value
    decreases |items|
  {
    var front := items[..|items| - 1];
    if i < |items| - 1 {
      assert front[i] == items[i];
      PortMapKeepsEveryPort(front, i);
    }
  }

  /** Conversely, every entry of the port map is a service of the table with
      exactly its normalised entries, so a service whose entries all drop is
      absent. */
  lemma {:induction false} PortMapEntriesAreServicePorts(items: seq<(string, Value)>)
    requires PortMap(items).Ok?
    ensures var m := PortMap(items).value;
      forall k :: 0 <= k < |m| ==>
        exists i :: 0 <= i < |items| && items[i].0 == m[k].0 && ServicePorts(items[i].1) == Ok(m[k].1)
    decreases |items|
  {
    if items != [] {
      var front := items[..|items| - 1];
      PortMapEntriesAreServicePorts(front);
      assert forall i :: 0 <= i < |front| ==> front[i] == items[i];
    }
  }

  /** A document without a `services` key has an empty port map. */
  lemma ExtractWithoutServices(compose: Value)
    requires compose.Dict? && !HasKey(compose, "services")
    ensures ExtractPorts(compose) == Ok([])
  {
    assert Items([]) == [];
  }

  /** A document without a `services` key classifies no service. */
  lemma ClassifyWithoutServices(compose: Value)
    requires compose.Dict? && !HasKey(compose, "services")
    ensures ServiceTable(compose) == Ok([])
  {
    assert Items([]) == [];
  }

  /** flatten_ports: all lists of the map, one after the other. */
  function FlattenPorts(portMap: seq<(string, seq<string>)>): seq<string>
    decreases |portMap|
  {
    if portMap == [] then [] else portMap[0].1 + FlattenPorts(portMap[1..])
  }

  function TotalLength(portMap: seq<(string, seq<string>)>): nat
    decreases |portMap|
  {
    if portMap == [] then 0 else |portMap[0].1| + TotalLength(portMap[1..])
  }

  /** Flattening two maps one after the other is concatenating their flattenings. */
  lemma {:induction false} FlattenAppend(a: seq<(string, seq<string>)>, b: seq<(string, seq<string>)>)
    ensures FlattenPorts(a + b) == FlattenPorts(a) + FlattenPorts(b)
    ensures TotalLength(a + b) == TotalLength(a) + TotalLength(b)
    decreases |a|
  {
    if a == [] {
      assert a + b == b;
    } else {
      assert (a + b)[1..] == a[1..] + b;
      FlattenAppend(a[1..], b);
    }
  }

  /** The flat list is as long as all lists together, and holds exactly their entries. */
  lemma {:induction false} FlattenContents(portMap: seq<(string, seq<string>)>)
    ensures |FlattenPorts(portMap)| == TotalLength(portMap)
    ensures forall p :: p in FlattenPorts(portMap) <==> exists k :: 0 <= k < |portMap| && p in portMap[k].1
    decreases |portMap|
  {
    if portMap != [] {
      FlattenContents(portMap[1..]);
      assert forall k :: 1 <= k < |portMap| ==> portMap[k] == portMap[1..][k - 1];
    }
  }

  // ---------------------------------------------------------------------
  // get_service_internal_port
  // ---------------------------------------------------------------------

  /** What one `ports` entry says about the internal port: a dict with a truthy
      `target` decides that target; a text decides its second `:`-piece, or its
      only piece; anything else is skipped (None). */
  function EntryTarget(p: Value): Result<Option<int>, PyError>
  {
    match p
    case Dict(_) =>
      var target := Field(p, "target");
      if Truthy(target) then var n :- ToInt(target); Ok(Some(n)) else Ok(None)
    case Str(s) =>
      var parts := Split(s, ':');
      var n :- ParseText(if |parts| > 1 then parts[1] else parts[0]);
      Ok(Some(n))
    case _ => Ok(None)
  }

  /** The early-return scan over the `ports` entries. */
  function FirstTarget(ps: seq<Value>): Result<Option<int>, PyError>
    decreases |ps|
  {
    if ps == [] then Ok(None)
    else
      var d :- EntryTarget(ps[0]);
      if d.Some? then Ok(d) else FirstTarget(ps[1..])
  }

  /** get_service_internal_port: the first deciding `ports` entry, else the first
      `expose` entry, else None. */
  function GetServiceInternalPort(svc: Value): Result<Option<int>, PyError>
  {
    var ports :- Get(svc, "ports", List([]));
    var entries :- Iterate(ports);
    var t :- FirstTarget(entries);
    if t.Some? then Ok(t)
    else
      var expose := Get(svc, "expose", List([])).value;
      if Truthy(expose) then
        var e :- First(expose);
        var n :- ToInt(e);
        Ok(Some(n))
      else Ok(None)
  }

  /** The first deciding entry wins, whatever follows it. */
  lemma {:induction false} FirstDecidingEntryWins(ps: seq<Value>, i: nat, n: int)
    requires i < |ps|
    requires forall j :: 0 <= j < i ==> EntryTarget(ps[j]) == Ok(None)
    requires EntryTarget(ps[i]) == Ok(Some(n))
    ensures FirstTarget(ps) == Ok(Some(n))
    decreases i
  {
    if i > 0 {
      assert EntryTarget(ps[0]) == Ok(None);
      FirstDecidingEntryWins(ps[1..], i - 1, n);
    }
  }

  /** When no entry decides, the scan finds nothing. */
  lemma {:induction false} NoDecidingEntry(ps: seq<Value>)
    requires forall j :: 0 <= j < |ps| ==> EntryTarget(ps[j]) == Ok(None)
    ensures FirstTarget(ps) == Ok(None)
    decreases |ps|
  {
    if ps != [] {
      NoDecidingEntry(ps[1..]);
    }
  }

  /** A "host:container" text entry decides the container half. */
  lemma TextEntryTarget(host: nat, container: nat)
    ensures EntryTarget(Str(NatToString(host) + ":" + NatToString(container))) == Ok(Some(container))
  {
    NatTextHasNoColon(host);
    NatTextHasNoColon(container);
    SplitAfterPiece(NatToString(host), NatToString(container), ':');
    SplitWhole(NatToString(container), ':');
    assert NatToString(host) + ":" + NatToString(container) == NatToString(host) + [':'] + NatToString(container);
    ParseShowInt(container);
  }

  /** A service without deciding `ports` entries falls back to `int()` of its
      first `expose` entry, which raises when that entry is not a number. */
  lemma ExposeFallback(svc: Value, ports: seq<Value>, expose: seq<Value>)
    requires svc.Dict?
    requires Get(svc, "ports", List([])) == Ok(List(ports))
    requires forall j :: 0 <= j < |ports| ==> EntryTarget(ports[j]) == Ok(None)
    requires Get(svc, "expose", List([])) == Ok(List(expose))
    requires expose != []
    ensures var n := ToInt(expose[0]);
      GetServiceInternalPort(svc) == if n.Ok? then Ok(Some(n.value)) else Err(n.error)
  {
    NoDecidingEntry(ports);
  }

  /** A text entry of one piece, "80", gives that number as the port. */
  lemma TextSinglePieceTarget(n: nat)
    ensures EntryTarget(Str(NatToString(n))) == Ok(Some(n))
  {
    NatTextHasNoColon(n);
    SplitWhole(NatToString(n), ':');
    ParseShowInt(n);
  }

  /** A service with neither `ports` nor `expose` has no internal port. */
  lemma NoPortsNoExpose(svc: Value)
    requires svc.Dict? && !HasKey(svc, "ports") && !HasKey(svc, "expose")
    ensures GetServiceInternalPort(svc) == Ok(None)
  {
  }

  // ---------------------------------------------------------------------
  // has_native_healthcheck
  // ---------------------------------------------------------------------

  /** has_native_healthcheck: Python's `"healthcheck" in svc_def`. For a service
      dict this is key presence; for a list it is element equality, for a text a
      substring test, and anything else raises. */
  function HasNativeHealthcheck(svcDef: Value): (r: Result<bool, PyError>)
    ensures svcDef.Dict? ==> r == Ok(HasKey(svcDef, "healthcheck"))
    ensures svcDef.List? ==> r == Ok(Str("healthcheck") in svcDef.items)
    ensures svcDef.Str? ==> r == Ok(Contains(svcDef.s, "healthcheck"))
    ensures r.Err? <==> !(svcDef.Dict? || svcDef.List? || svcDef.Str?)
  {
    In("healthcheck", svcDef)
  }
}

# devmate decision logic in Dafny

devmate is a command-line tool for local Docker development. It detects whether
a directory holds a Compose project or a Dockerfile, brings the workload up,
and reports whether each service is healthy. This project models, in Dafny, the
decision logic of its commands and services:

- the Compose model extractor (`app/services/yaml_svc.py`): it classifies
  services as exposed or internal, normalises and flattens port entries, finds
  the internal port, and detects a healthcheck;
- the health-resolution engine of `up` (`app/commands/up.py`):
  - the service-to-container map;
  - the choice of the container internal probes run from;
  - the Native → Exposed → Internal strategy chain per service;
  - the Compose-file lookup;
  - in Dockerfile mode, the port auto-mapping and merging, host-port
    extraction and per-port HTTP/TCP report;
- the selection and validation rules of `app/services/docker_svc.py`:
  - configuration detection;
  - the Compose-file candidate order and pull policy;
  - the default image and container names;
  - the existing-container policy;
  - health-status extraction;
- the retry policy of `check_health` (`app/services/net_svc.py`);
- the route composition of `health`, the target directory of `clone`, and the
  name derivation, config path and call flow of `deploy`.

Decoded YAML is a `Value` datatype (`PyValues.dfy`). Python's `dict.get`,
iteration, `in`, `int()` and truthiness on it return the exception Python
would raise as an `Err`. Everything outside the process is a parameter:
- the Docker engine: the containers, `docker inspect`, the existing
  containers, the ports an image exposes, and the exception, if any, that each
  of `docker compose up`, `docker compose ps`, the image inspection,
  `docker build`, the stop-and-remove and `docker run` raises;
- the file system: which names exist in the directory, and the decoded
  Compose document;
- the network: HTTP attempts and TCP probes;
- `nc` detection.

Loops in the source are methods with loop invariants. Each is proved against
a specification function, and lemmas state what the source promises about
that function. One loop is not: the `for port in ports` scan of
get_service_internal_port (app/services/yaml_svc.py:62-73) returns from inside
its body and changes no variable, so it is the recursive function
`ComposeYaml.FirstTarget`. Modules:

| file | models |
|---|---|
| Wrappers.dfy | `Option` and `Result` |
| Strings.dfy | `str.split`, `rstrip`, `endswith`, `in`, `str(int)` and `int(str)` |
| PyValues.dfy | decoded YAML values and the Python operations applied to them |
| Paths.dfy | the POSIX `pathlib` subset used: parse, `/` and `str()` |
| ComposeYaml.dfy | app/services/yaml_svc.py |
| DockerSvc.dfy | app/services/docker_svc.py |
| NetSvc.dfy | app/services/net_svc.py |
| HealthCmd.dfy | app/commands/health.py |
| CloneCmd.dfy | app/commands/clone.py |
| DeployCmd.dfy | app/commands/deploy.py |
| UpCmd.dfy | app/commands/up.py |

### Behaviours of the code a reader might not expect

The model follows the code in each of these places.

- **Duplicate service labels.** A reader might expect the first container
  with a given service label to win. The code overwrites, so the last one
  wins (`UpCmd.BuildServiceContainerMap`).
- **Exceptions in the report.** A reader might expect every service to get a
  row whatever happens. In the code, a non-integer host segment, a
  non-integer internal port, or a container without readable labels raises.
  The handler at up.py:271 then abandons the whole report (`UpCmd.ResolveAll`,
  `UpCmd.NonIntegerHostAborts`, `UpCmd.InternalPortErrorRaises`).
- **Malformed port entries.** Each reader of a `ports` list skips entries by
  its own rule. The host-port scan skips a dict without a `published` key
  (up.py:148) and anything that is neither a text nor a dict. The internal-port
  scan skips a dict without a truthy `target` (yaml_svc.py:64-67). The port
  extraction drops a dict unless both `published` and `target` are truthy
  (yaml_svc.py:21-25) and keeps every text as it is. In the two scans, a text
  whose relevant part is not a number raises instead of being skipped.
- **Native priority.** A reader might expect a service with a healthcheck
  block to be checked natively whatever its ports. The code passes an exposed
  service's `ports` value to `has_native_healthcheck`, not its definition.
  So an exposed service with a list of port entries is never checked natively
  (`UpCmd.ExposedHealthcheckIgnored`).
- **Report order.** The code iterates a Python set, so the model fixes no
  order and proves one row per service.
- **Unreachable branch.** The "Service not found in analysis?" row cannot
  occur, since every name in the union comes from one of the two maps.
- **A file in the way of deploy.** When `cwd/name` is a regular file, listing
  it at deploy.py:29 raises NotADirectoryError outside the `try`, so the
  command ends without cloning or calling `up` (`DeployCmd.Deploy`).

## Model

| member | source | states |
|---|---|---|
| ComposeYaml.ServiceTable | app/services/yaml_svc.py:36-41 | `compose.get("services", {}).items()` raises AttributeError unless the services value is a dict; the service names it yields are distinct |
| ComposeYaml.ClassifyServices | app/services/yaml_svc.py:35-48 | raises exactly when the table cannot be read or a service is not a dict; otherwise exposed and internal are disjoint, together hold every service name, exposed keeps the raw truthy `ports` value and internal the whole definition; the result is the classification function ComposeYaml.Classification, which UpCmd builds the report from |
| ComposeYaml.ClassifyTable | app/services/yaml_svc.py:41-48 | over a table with distinct names: raises iff some service is not a dict; otherwise the two maps are disjoint, their keys are exactly the table's names, and every service is placed by its `ports` value |
| ComposeYaml.ClassifiedPlacesAll | app/services/yaml_svc.py:41-48 | placing every service of a table with distinct names, in order, gives disjoint maps whose keys are exactly the table's names, each service filed by its `ports` value |
| ComposeYaml.ClassificationNames | app/services/yaml_svc.py:35-48 | when classify_services succeeds, every service of the document's table is filed exactly once |
| ComposeYaml.Place | app/services/yaml_svc.py:42-46 | one loop step files the service where classify_services puts it |
| ComposeYaml.PlaceStep | app/services/yaml_svc.py:41-46 | a step keeps the maps disjoint, adds exactly the new name, and leaves every earlier service where it was |
| ComposeYaml.NameSetMember | app/services/yaml_svc.py:41 | the name set of a table holds exactly the names occurring in it |
| ComposeYaml.ClassifyWithoutServices | app/services/yaml_svc.py:36 | a document without `services` classifies no service |
| ComposeYaml.NormalizePorts | app/services/yaml_svc.py:17-25 | the normalised entries are never more than the raw entries |
| ComposeYaml.NormalizePortsAppend | app/services/yaml_svc.py:17-25 | normalisation works entry by entry: normalising a concatenation concatenates the results |
| ComposeYaml.NormalizeTextPorts | app/services/yaml_svc.py:18-19 | text entries are kept verbatim and in order |
| ComposeYaml.NormalizePortsEmpty | app/services/yaml_svc.py:17-25 | nothing survives exactly when no entry is a text and no dict has both a truthy `published` and a truthy `target` |
| ComposeYaml.ExtractPortsFromCompose | app/services/yaml_svc.py:8-30 | the service loop builds exactly the specification port map, including raising where the source raises |
| ComposeYaml.ExtractEntries | app/services/yaml_svc.py:17-25 | the entry loop builds exactly the normalised entries |
| ComposeYaml.PortMapErrorStops | app/services/yaml_svc.py:13-28 | once one service raises, the whole extraction raises the same exception |
| ComposeYaml.PortMapShape | app/services/yaml_svc.py:27-28 | every list in the port map is non-empty and belongs to a declared service |
| ComposeYaml.PortMapUnique | app/services/yaml_svc.py:27-28 | when the service names are distinct, each service appears in the port map at most once |
| ComposeYaml.PortMapKeepsEveryPort | app/services/yaml_svc.py:13-28 | every service with surviving entries is in the map with exactly those entries |
| ComposeYaml.PortMapEntriesAreServicePorts | app/services/yaml_svc.py:13-28 | every map entry is a service of the table with exactly its normalised entries, so a service whose entries all drop is absent |
| ComposeYaml.ExtractWithoutServices | app/services/yaml_svc.py:10 | a document without `services` has an empty port map |
| ComposeYaml.FlattenAppend | app/services/yaml_svc.py:32-33 | flattening is concatenation: flattening two maps in sequence concatenates their flattenings and adds their lengths |
| ComposeYaml.FlattenContents | app/services/yaml_svc.py:32-33 | the flat list is as long as all lists together and holds exactly their entries |
| ComposeYaml.FirstDecidingEntryWins | app/services/yaml_svc.py:61-73 | the first deciding `ports` entry gives the internal port, whatever follows it |
| ComposeYaml.NoDecidingEntry | app/services/yaml_svc.py:61-73 | dicts without a truthy `target` and non-text entries are skipped; no deciding entry means the scan finds nothing |
| ComposeYaml.TextEntryTarget | app/services/yaml_svc.py:67-73 | a "host:container" text gives the container half |
| ComposeYaml.TextSinglePieceTarget | app/services/yaml_svc.py:67-73 | a one-piece text "80" gives that number |
| ComposeYaml.ExposeFallback | app/services/yaml_svc.py:76-78 | with no deciding `ports` entry, the internal port is `int()` of the first `expose` entry, or its exception |
| ComposeYaml.NoPortsNoExpose | app/services/yaml_svc.py:61-80 | neither `ports` nor `expose` gives None |
| ComposeYaml.HasNativeHealthcheck | app/services/yaml_svc.py:83-87 | Python's `"healthcheck" in svc_def`: key presence for a dict, element equality for a list, substring for a text, TypeError otherwise |
| DockerSvc.DetectConfiguration | app/services/docker_svc.py:16-37 | a non-directory raises NotADirectoryError; any Compose name gives COMPOSE even beside a Dockerfile; else a Dockerfile gives DOCKERFILE; else NONE |
| DockerSvc.StartCompose | app/services/docker_svc.py:40-66 | it succeeds iff some candidate is usable and the pull value is accepted; the file started is the first usable candidate (explicit file, docker-compose.yaml, docker-compose.yml, compose.yaml, compose.yml); none raises FileNotFoundError before the pull check; a pull value that is truthy and not a policy raises ValueError |
| DockerSvc.BuildDockerfile | app/services/docker_svc.py:77-101 | no Dockerfile raises FileNotFoundError; the tag is the one given or "<dir>:latest", and is returned |
| DockerSvc.RunContainer | app/services/docker_svc.py:103-135 | an empty image raises ValueError, and otherwise the only exception is RuntimeError, raised exactly when the container exists and start_new is off; the default name is the image text before the first `:` plus "_app"; an existing container is replaced with start_new; the ports are published unchanged |
| DockerSvc.DefaultImageDefaultName | app/services/docker_svc.py:115-116 | the default image "<dir>:latest" runs as "<dir>_app" |
| DockerSvc.GetContainerHealth | app/services/docker_svc.py:148-163 | the health status when a health block exists; None without one or when inspection fails |
| NetSvc.FailureOf | app/services/net_svc.py:45-57 | a non-2xx attempt records that status and "Service returned non-2xx status"; a failed request records no status and "Service is not reachable: …" |
| NetSvc.CheckHealth | app/services/net_svc.py:7-65 | at most `max_retries` attempts, stopping at the first 2xx; success iff some attempt in range is 2xx, carrying its status; otherwise the record of the last attempt; fewer than one attempt raises UnboundLocalError |
| HealthCmd.Health | app/commands/health.py:6-30 | check_health gets the composed route and the retry, timeout and delay values unchanged; the route always contains "http" and is `[http://]url[:port]path` |
| HealthCmd.RouteShape | app/commands/health.py:20-26 | the port suffix is added before the scheme test; "http://" is prefixed exactly when "http" occurs nowhere in url plus suffix |
| HealthCmd.RouteIdempotent | app/commands/health.py:20-26 | composing a composed route again with no port and no path changes nothing |
| HealthCmd.DefaultRoute | app/commands/health.py:7-8 | with every default the command probes "http://localhost/" with 3 retries, timeout 5 and delay 1 |
| HealthCmd.HttpInsideHostName | app/commands/health.py:23-24 | the scheme test is a substring test: "myhttpd" gets no scheme |
| Paths.Parse | app/commands/clone.py:13 | `Path(text)` keeps only non-empty components other than "." |
| Paths.ParseRender | app/commands/deploy.py:48 | `str(path)` parses back to the same path |
| Paths.JoinComponent | app/commands/deploy.py:27 | joining one plain component appends it |
| Paths.JoinNothing | app/commands/deploy.py:41 | joining "" or the default location "." leaves the path unchanged |
| CloneCmd.RepoName | app/commands/clone.py:15-17 | the derived repository name never contains "/" |
| CloneCmd.CloneTarget | app/commands/clone.py:12-19 | an explicit directory is used as given, not joined to the cwd; otherwise the target has the cwd's anchor, starts with the cwd's components, and appends at most one component, taken verbatim (so it may be "..") |
| CloneCmd.DotDotNameLeavesCwd | app/commands/clone.py:15-19 | a URL ending in "/.." clones into the parent of the working directory |
| CloneCmd.SingleComponent | app/commands/clone.py:19 | a name without "/" is a relative path of at most one component |
| CloneCmd.RepoNameDropsGit | app/commands/clone.py:16-17 | exactly one trailing ".git" is removed: `base/name.git` names `name` |
| CloneCmd.RepoNameKeepsPlainName | app/commands/clone.py:15 | `base/name` names `name` when `name` has no ".git" suffix |
| CloneCmd.RepoNameTrailingSlash | app/commands/clone.py:15 | a trailing "/" does not change the derived name |
| CloneCmd.DerivedTarget | app/commands/clone.py:15-19 | a URL naming repository `name`, with or without ".git", is cloned into cwd/name |
| CloneCmd.EmptyNameClonesIntoCwd | app/commands/clone.py:15-19 | a URL ending in "/.git" derives an empty name and targets the cwd itself |
| DeployCmd.TargetName | app/commands/deploy.py:20-25 | a given name is used verbatim; a derived one never contains "/" |
| DeployCmd.Deploy | app/commands/deploy.py:20-48 | as written: target cwd/name; a target that is a regular file raises NotADirectoryError with no clone and no `up`; otherwise the "not empty" error is printed iff the directory has entries, and `up` is always called with str(cwd/name/location), the caller's ports and force, and the Typer default marker as pull |
| DeployCmd.DeployNeverClones | app/commands/deploy.py:35 | as written, the clone call always raises TypeError |
| DeployCmd.DeployIgnoresFailures | app/commands/deploy.py:29-39 | as written, `up` is reached and called identically whether the target was occupied and whatever the clone did |
| DeployCmd.DeployPullRejected | app/commands/deploy.py:48 | as written, the pull value `up` receives fails start_compose's check |
| DeployCmd.DeployCorrected | app/commands/deploy.py:29-48 | corrected: an occupied target stops before cloning; `up` runs exactly when the target was free and the clone succeeded, with pull "missing" |
| DeployCmd.DeployCorrectedClones | app/commands/deploy.py:35 | corrected, the clone with the branch runs and its outcome is the command's |
| DeployCmd.DeployCorrectedPullAccepted | app/commands/deploy.py:48 | corrected, the pull value `up` receives passes start_compose's check |
| DeployCmd.DeployDefaultLocation | app/commands/deploy.py:27-48 | with the default location, `up` runs in cwd/repo for a URL ending in repo.git |
| UpCmd.BuildServiceContainerMap | app/commands/up.py:73-86 | a name is mapped iff some container carries it as a truthy service label; it maps to the last such container; a container without a label mapping raises AttributeError |
| UpCmd.LabelMapKeys | app/commands/up.py:80-86 | the label map holds exactly the services some container is labelled with |
| UpCmd.LabelMapLastWins | app/commands/up.py:80-86 | under each service the label map holds the last container labelled with it |
| UpCmd.SelectProbeSource | app/commands/up.py:90-114 | containers without `nc` are never chosen and their labels never read; the first capable container of an exposed service wins, else the first capable one; none when no container is capable; unreadable labels raise only when reached before the exposed vantage; the result is the front-to-back scan ProbeSource |
| UpCmd.HostPortScan | app/commands/up.py:145-150 | a host port found is never 0 |
| UpCmd.FindHostPort | app/commands/up.py:143-150 | the loop keeps the last assigned value and stops at the first non-zero one; it raises exactly when the specification scan raises, and finds the same port |
| UpCmd.Resolve | app/commands/up.py:119-178 | the row keeps the service name; its type is Native iff the healthcheck test holds, else Exposed iff the service is exposed; SKIPPED happens exactly for internal services without a probe source; a native check is UP or DOWN; a failing healthcheck test raises |
| UpCmd.CheckService | app/commands/up.py:121-178 | the status/details reassignments give exactly the specification row |
| UpCmd.Enumerate | app/commands/up.py:117-119 | set iteration visits every service exactly once |
| UpCmd.ResolveAll | app/commands/up.py:117-178 | the report succeeds iff every service resolves, with exactly one row per service, each its resolution; otherwise it fails with some service's exception |
| UpCmd.FirstPresent | app/commands/up.py:55-59 | the first name of the order present, and none only when no name is present |
| UpCmd.FindComposeFile | app/commands/up.py:52-59 | the lookup loop finds the first present of compose.yaml, compose.yml, docker-compose.yaml, docker-compose.yml |
| UpCmd.ComposeOrdersDisagree | app/commands/up.py:55 | with compose.yaml and docker-compose.yaml both present, the report reads compose.yaml while start_compose starts docker-compose.yaml |
| UpCmd.SelfMappings | app/commands/up.py:225-229 | at most one mapping per exposed port |
| UpCmd.MergeExposedPorts | app/commands/up.py:207-229 | the auto-map/merge step yields exactly the merged list |
| UpCmd.MappedAppend | app/commands/up.py:215-219 | the mapped container ports of a concatenation are the union of both parts' |
| UpCmd.SelfMappingsMapped | app/commands/up.py:225-229 | the appended mappings map exactly the exposed ports not skipped |
| UpCmd.SelfMappingsAllSkipped | app/commands/up.py:225-229 | nothing is appended when every exposed port is already mapped |
| UpCmd.SelfMappingsCount | app/commands/up.py:210 | auto-mapping gives one entry per exposed port |
| UpCmd.AutoMapEveryPort | app/commands/up.py:210 | with no user ports the list is "p:p" for each exposed port, in order |
| UpCmd.MergeCoversExposed | app/commands/up.py:207-229 | after the merge every exposed port is mapped and the user's entries come first, unchanged |
| UpCmd.MergeIdempotent | app/commands/up.py:207-229 | merging a merged list again changes nothing |
| UpCmd.DuplicateExposedAppendedTwice | app/commands/up.py:214-229 | an unmapped exposed port listed twice is appended twice, because the mapped set is not updated |
| UpCmd.HostPorts | app/commands/up.py:249 | every entry's text before the first ":" is parsed in order; any non-integer raises ValueError |
| UpCmd.AutoMappedHostPorts | app/commands/up.py:249 | when every exposed port is auto-mapped as "n:n" (line 210), the host ports read back are exactly the exposed numbers, in order |
| UpCmd.CheckPorts | app/commands/up.py:256-267 | one row per host port in order: UP iff one of five HTTP attempts is 2xx, else UP (TCP) iff the port accepts a TCP connection, else DOWN, with the source's messages |
| UpCmd.UpCompose | app/commands/up.py:46-178 | a rejected pull policy fails with ValueError; a failing `docker compose up` fails with its exception; otherwise the outcome is the health check's, for the first present file of start_compose's default order as started and the first present of the report's order as read; a report has distinct service names |
| UpCmd.CheckComposeHealth | app/commands/up.py:50-178 | for the first present of compose.yaml, compose.yml, docker-compose.yaml, docker-compose.yml: the first failing step (load, classify, `compose ps`, the label map) fails with its exception; otherwise, when every service resolves, a report with one row per service, each its resolution; otherwise the exception of a service that does not resolve |
| UpCmd.PrepareHealth | app/commands/up.py:64-114 | the load, classification, container listing, label map and probe-source steps give exactly the inputs of the service loop, or the exception of the first step that raises |
| UpCmd.ComposeReportCoversTable | app/commands/up.py:117-178 | a Compose report follows a successful `compose ps` and has exactly one row per service of the report file's table, no service twice |
| UpCmd.StartedIsFirstPresent | app/services/docker_svc.py:48-56 | without an explicit file, the candidate start_compose picks is the first of docker-compose.yaml, docker-compose.yml, compose.yaml, compose.yml present |
| UpCmd.UpDockerfile | app/commands/up.py:200-267 | a failing image inspection, build, replacement or run fails with its exception; an existing container without force fails with RuntimeError; when all of these succeed, the outcome is a report iff every host prefix is an integer, and Failed(ValueError) otherwise; a report has the merged list as published ports, the image "<dir>:latest", the container "<image before ':'>_app", and row k is the HTTP-then-TCP report of the k-th host port |
| UpCmd.Up | app/commands/up.py:35-47 | a non-directory crashes with UnboundLocalError; no configuration prints an error and runs nothing; Compose and Dockerfile projects take their own flow |
| UpCmd.NativeHealthyIsUp | app/commands/up.py:126-133 | any service whose checked value passes the `"healthcheck" in svc_def` test (a dict key, a list element or a substring), with a mapped container reporting "healthy", is Native UP |
| UpCmd.NativeOtherIsDown | app/commands/up.py:134-136 | for any service passing that test, any other health, including none, is Native DOWN with the value echoed |
| UpCmd.NativeWithoutContainerIsDown | app/commands/up.py:137-139 | for any service passing that test, no mapped container is Native DOWN, "Container not found for native check" |
| UpCmd.ExposedHealthcheckIgnored | app/commands/up.py:121-127 | an exposed service with a list of ports is never checked natively |
| UpCmd.PublishedTextPort | app/commands/up.py:145-155 | a "host:container" entry is probed on the host port, UP iff it is open, with "localhost:host (Port Open/Closed)" |
| UpCmd.NonIntegerHostAborts | app/commands/up.py:147 | a host segment that is not an integer raises ValueError |
| UpCmd.PublishedStructuredPort | app/commands/up.py:148-155 | a `{published, target}` entry is probed on `published` |
| UpCmd.NoSourceSkips | app/commands/up.py:174-176 | without a probe source an internal service is SKIPPED |
| UpCmd.NoPortInternalUnknown | app/commands/up.py:172-173 | no healthcheck, ports or expose gives Internal UNKNOWN, "No internal port defined" |
| UpCmd.InternalProbeTarget | app/commands/up.py:160-171 | the probe targets the mapped container's name, else the service name, UP iff the probe succeeds |
| UpCmd.HostPortScanFirst | app/commands/up.py:145-150 | the first entry giving a non-zero host port decides, whatever follows |
| UpCmd.HostPortScanNone | app/commands/up.py:145-150 | when no entry gives a non-zero host port, none is found |
| UpCmd.ExposedStatus | app/commands/up.py:141-157 | for an exposed service not checked natively: an exception from its ports raises; no host port gives UNKNOWN "No host port found"; else UP iff the host port is open, with "localhost:p (Port Open/Closed)" |
| UpCmd.InternalNoPortUnknown | app/commands/up.py:160-173 | an internal service with a probe source and an internal port of None or 0 is UNKNOWN "No internal port defined" |
| UpCmd.InternalPortErrorRaises | app/commands/up.py:158-160 | an internal service with a probe source whose internal port cannot be read raises that exception from the service loop |
| UpCmd.WebAndDatabase | app/commands/up.py:119-178 | web publishing host:container with a closed port is Exposed DOWN "localhost:host (Port Closed)"; db with only `expose` and no containers is Internal SKIPPED |

## Left out

- load_compose (app/services/yaml_svc.py:4-6) is not modelled: reading and decoding the file is the `loadCompose` parameter of the environment.
- has_nc, check_host_port, check_internal_tcp and get_image_exposed_ports are not defined in the modelled files. They are parameters: `Probes` and `imageExposedPorts`.
- The Docker engine calls are parameters. `docker inspect` yields a health status or a failure. `compose up`, `compose ps`, the image inspection, `build`, the stop-and-remove and `run` each yield the exception they raise, if any, which `up` reports as `Failed`. What a successful call does to the engine is not modelled.
- The git clone (app/services/git_svc.py) is not modelled. Only its parameter list is used, to show the TypeError.
- Sleeping, timeouts, elapsed time and progress bars are left out. The healthy message omits "(responded in …s)".
- Table rendering and printed messages are left out, including the warnings at up.py:221 and deploy.py:43-44.
- A container object with no `labels` attribute, or labels under `c.config.labels` (up.py:78-82), is not modelled. A container has a label mapping or None.
- The directory is a snapshot of the file names present, so the "lost now" branch (up.py:61-63) cannot occur.
- `resolve()`, `expanduser()` and symbolic links are left out. POSIX pathlib keeps exactly two leading slashes; the model reads them as one.
- `int()` accepts only an optional sign and ASCII digits. Surrounding whitespace, underscores and non-ASCII digits are left out.
- `str()` of a list or dict inside a port entry is a fixed placeholder text.
- PyValues.Value has no floating-point numbers and only text mapping keys. A YAML float or a non-text key in a Compose document is not representable.
- Exceptions other than request exceptions inside check_health are left out.
- UpCmd.MergeExposedPorts: computes the new list as a value instead of appending to the caller's list in place. Nothing reads the caller's list afterwards.
- UpCmd.ResolveAll: proves one row per service but leaves the order open. It is Python's set order.

## Findings

| source | as written | input that shows it | evidently intended | confidence | as-written member | corrected member |
|---|---|---|---|---|---|---|
| app/commands/deploy.py:35 | `clone_repo(repo_url, target_path, branch=branch)`, but clone_repo declares only `url` and `directory` (app/services/git_svc.py:5-8) | any call, e.g. `deploy https://host/x/app.git` | clone_repo takes the branch, and the clone runs | high, not executed | DeployCmd.DeployNeverClones | DeployCmd.DeployCorrectedClones |
| app/commands/deploy.py:29-39 | `Exit(1)` is constructed but not raised after the "not empty" and "Cloning failed" errors | an occupied target folder, or any clone failure | the command stops, and `up` is not run | high, not executed | DeployCmd.DeployIgnoresFailures | DeployCmd.DeployCorrected |
| app/commands/deploy.py:48 | `up(path=…, port=…, force=…)` omits `pull`, so `up` receives Typer's default marker object, which is truthy and not a pull policy | any Compose project deployed | `up` gets its own default "missing" | high, not executed | DeployCmd.DeployPullRejected | DeployCmd.DeployCorrectedPullAccepted |

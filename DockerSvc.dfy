/** The selection and validation rules of app/services/docker_svc.py. The
    Docker engine calls themselves (compose up, build, run, stop, remove,
    inspect) are outside the model; what is modelled is which file, tag, name
    and policy they are given, and which exception comes first. Whether a
    call that is made raises is a parameter of the `up` command. The directory
    is described by the set of file names present in it. */
module DockerSvc {
  import opened Wrappers
  import opened Strings
  import opened PyValues

  datatype ConfigType = ComposeConfig | DockerfileConfig | NoConfig

  /** The four names that make a directory a Compose project. */
  const ComposeFileNames: set<string> :=
    {"compose.yaml", "compose.yml", "docker-compose.yaml", "docker-compose.yml"}

  /** detect_configuration: a Compose file wins over a Dockerfile; a path that is
      not a directory raises NotADirectoryError. */
  function DetectConfiguration(isDir: bool, present: set<string>): (r: Result<ConfigType, PyError>)
    ensures r.Err? <==> !isDir
    ensures r.Err? ==> r.error == NotADirectoryError
    ensures r == Ok(ComposeConfig) <==> isDir && exists f :: f in ComposeFileNames && f in present
    ensures r == Ok(DockerfileConfig) <==>
      isDir && "Dockerfile" in present && forall f :: f in ComposeFileNames ==> f !in present
  {
    if !isDir then Err(NotADirectoryError)
    else if "compose.yaml" in present || "compose.yml" in present
            || "docker-compose.yaml" in present || "docker-compose.yml" in present then Ok(ComposeConfig)
    else if "Dockerfile" in present then Ok(DockerfileConfig)
    else Ok(NoConfig)
  }

  /** The value given for `pull`: absent (None), a text, or the unresolved
      default marker that a Typer `Option(...)` default is when the command
      function is called directly from Python rather than from the command line. */
  datatype PullArg = PullUnset | PullText(s: string) | TyperDefault

  /** The pull check of start_compose: a falsy value passes; otherwise it must
      be one of the three policies. The default marker is truthy and equals
      none of them. */
  predicate PullAccepted(pull: PullArg)
  {
    match pull
    case PullUnset => true
    case PullText(s) => s == "" || s in {"missing", "never", "always"}
    case TyperDefault => false
  }

  /** The files start_compose tries, in order: the explicit one, then the four defaults. */
  function ComposeCandidates(composeFile: Option<string>): seq<Option<string>>
  {
    [composeFile, Some("docker-compose.yaml"), Some("docker-compose.yml"), Some("compose.yaml"), Some("compose.yml")]
  }

  /** `if file and (compose_dir / str(file)).exists()`. */
  predicate Usable(c: Option<string>, present: set<string>)
  {
    c.Some? && c.value != "" && c.value in present
  }

  /** start_compose: the file handed to `docker compose up` is the first usable
      candidate; none raises FileNotFoundError before the pull policy is looked
      at; a rejected policy raises ValueError before anything runs. */
  method StartCompose(present: set<string>, composeFile: Option<string>, pull: PullArg) returns (r: Result<string, PyError>)
    ensures var cands := ComposeCandidates(composeFile);
      (forall k :: 0 <= k < |cands| ==> !Usable(cands[k], present)) ==> r == Err(FileNotFoundError)
    ensures var cands := ComposeCandidates(composeFile);
      (exists k :: 0 <= k < |cands| && Usable(cands[k], present)) && !PullAccepted(pull) ==> r == Err(ValueError)
    ensures r.Ok? <==> PullAccepted(pull) && exists k :: 0 <= k < |ComposeCandidates(composeFile)| && Usable(ComposeCandidates(composeFile)[k], present)
    ensures r.Ok? ==> var cands := ComposeCandidates(composeFile);
      exists k :: 0 <= k < |cands| && Usable(cands[k], present) && cands[k].value == r.value
        && forall j :: 0 <= j < k ==> !Usable(cands[j], present)
    ensures r.Err? ==> r.error in {FileNotFoundError, ValueError}
  {
    var candidates := ComposeCandidates(composeFile);
    var composePath: Option<string> := None;
    var k := 0;
    while k < |candidates|
      invariant 0 <= k <= |candidates|
      invariant forall j :: 0 <= j < k ==> !Usable(candidates[j], present)
    {
      if Usable(candidates[k], present) {
        composePath := candidates[k];
        break;
      }
      k := k + 1;
    }
    if composePath.None? {
      return Err(FileNotFoundError);
    }
    if !PullAccepted(pull) {
      return Err(ValueError);
    }
    return Ok(composePath.value);
  }

  /** build_dockerfile: the tag given, or "<directory name>:latest"; no Dockerfile raises. */
  function BuildDockerfile(present: set<string>, dirName: string, imageName: Option<string>): (r: Result<string, PyError>)
    ensures r.Err? <==> "Dockerfile" !in present
    ensures r.Err? ==> r.error == FileNotFoundError
    ensures r.Ok? && imageName.Some? && imageName.value != "" ==> r.value == imageName.value
    ensures r.Ok? && (imageName.None? || imageName.value == "") ==> r.value == dirName + ":latest"
  {
    if "Dockerfile" !in present then Err(FileNotFoundError)
    else if imageName.Some? && imageName.value != "" then Ok(imageName.value)
    else Ok(dirName + ":latest")
  }

  /** What run_container hands to `docker run`: the container name, whether an
      existing container of that name was stopped and removed first, and the
      port mappings to publish. */
  datatype Run = Run(name: string, replacedExisting: bool, publish: seq<string>)

  /** run_container. */
  function RunContainer(image: string, containerName: Option<string>, ports: seq<string>,
                        existing: set<string>, startNew: bool): (r: Result<Run, PyError>)
    ensures image == "" ==> r == Err(ValueError)
    ensures r.Err? ==> image == "" || r.error == RuntimeError
    ensures r.Ok? ==> r.value.publish == ports
    ensures r.Ok? && (containerName.None? || containerName.value == "") ==>
      r.value.name == BeforeFirst(image, ':') + "_app"
    ensures r.Ok? && containerName.Some? && containerName.value != "" ==> r.value.name == containerName.value
    ensures r.Ok? ==> (r.value.replacedExisting <==> r.value.name in existing)
    ensures image != "" ==>
      var name := if containerName.Some? && containerName.value != "" then containerName.value
                  else BeforeFirst(image, ':') + "_app";
      (r == Err(RuntimeError) <==> name in existing && !startNew)
  {
    if image == "" then Err(ValueError)
    else
      var name := if containerName.Some? && containerName.value != "" then containerName.value
                  else BeforeFirst(image, ':') + "_app";
      if name in existing then
        if startNew then Ok(Run(name, true, ports)) else Err(RuntimeError)
      else Ok(Run(name, false, ports))
  }

  /** The image built by default, "<dir>:latest", runs as the container "<dir>_app"
      when the directory name has no `:`. */
  lemma DefaultImageDefaultName(dirName: string, ports: seq<string>, existing: set<string>)
    requires ':' !in dirName && dirName + "_app" !in existing
    ensures RunContainer(dirName + ":latest", None, ports, existing, false) == Ok(Run(dirName + "_app", false, ports))
  {
    var image := dirName + ":latest";
    assert image == dirName + [':'] + "latest";
    SplitAfterPiece(dirName, "latest", ':');
    SplitFirstPiece(image, ':');
  }

  /** What `docker inspect` gave: an error, or a state with or without a health block. */
  datatype Inspection = InspectFailed | Inspected(health: Option<string>)

  /** get_container_health: the health status when a health block exists; None
      when there is none or the inspection raised. */
  function GetContainerHealth(inspection: Inspection): (r: Option<string>)
    ensures r.Some? <==> inspection.Inspected? && inspection.health.Some?
    ensures r.Some? ==> r.value == inspection.health.value
  {
    match inspection
    case InspectFailed => None
    case Inspected(health) => health
  }
}

/** The `deploy` command (app/commands/deploy.py): derive the target folder,
    clone into it, and hand `cwd/target/location` to `up`. The clone and `up`
    are calls out of this command; what is modelled is what they are called
    with and whether they are reached. The emptiness of the target folder and
    the outcome of a clone that does start are parameters. */
module DeployCmd {
  import opened Wrappers
  import opened Strings
  import opened Paths
  import opened PyValues
  import opened CloneCmd
  import opened DockerSvc

  /** The parameter names of clone_repo as declared (app/services/git_svc.py:5-8). */
  const CloneRepoParameters: seq<string> := ["url", "directory"]

  /** Python's binding of a call with `positional` positional arguments and the
      given keyword names to a function whose parameters are `params` (no
      defaults, no `*args`/`**kwargs`): a TypeError, or nothing. */
  function BindCall(params: seq<string>, positional: nat, keywords: seq<string>): (r: Option<PyError>)
    ensures r.None? ==> positional + |keywords| == |params|
    ensures positional <= |params| && (exists k :: 0 <= k < |keywords| && keywords[k] !in params[positional..])
            ==> r == Some(TypeError)
    ensures r.Some? ==> r.value == TypeError
  {
    if positional + |keywords| == |params|
       && (forall k :: 0 <= k < |keywords| ==> keywords[k] in params[positional..])
       && (forall j, k :: 0 <= j < k < |keywords| ==> keywords[j] != keywords[k])
    then None
    else Some(TypeError)
  }

  /** The arguments `up` is called with. `path` is `str(config_path)`. */
  datatype UpCall = UpCall(path: string, port: seq<string>, pull: PullArg, force: bool)

  /** What `cwd/target_name` is before the clone: absent, an empty directory,
      a directory with entries, or a regular file. */
  datatype TargetState = Missing | EmptyDir | NonEmptyDir | RegularFile

  /** One run of deploy: the folder name and path, whether the "not empty"
      error was printed, what the clone call ended with (None when it was not
      made), the `up` call made, if any, and the exception that escaped the
      command, if any. */
  datatype DeployRun = DeployRun(targetName: string, targetPath: Path, warnedNotEmpty: bool,
                                 cloneResult: Option<Result<(), PyError>>, up: Option<UpCall>,
                                 crash: Option<PyError>)

  /** The folder name: the `--name` given, verbatim, or the repository name of the URL. */
  function TargetName(repoUrl: string, name: Option<string>): (r: string)
    ensures name.Some? && name.value != "" ==> r == name.value
    ensures (name.None? || name.value == "") ==> '/' !in r
  {
    if name.Some? && name.value != "" then name.value else RepoName(repoUrl)
  }

  /** `str(cwd / target_name / location)`. */
  function ConfigPath(cwd: Path, targetName: string, location: string): string
  {
    Render(Join(Join(cwd, targetName), location))
  }

  /** deploy as written: listing a target that is a regular file raises
      outside the `try`; otherwise clone_repo is called with a `branch` keyword
      it does not declare, the exceptions are reported but `Exit(1)` is only
      constructed, and `up` is called without `pull`, so it receives the Typer
      default marker. */
  function Deploy(cwd: Path, repoUrl: string, name: Option<string>, branch: Option<string>,
                  port: seq<string>, force: bool, location: string,
                  target: TargetState, cloneOutcome: Result<(), PyError>): (r: DeployRun)
    ensures r.targetName == TargetName(repoUrl, name)
    ensures r.targetPath == Join(cwd, r.targetName)
    ensures r.crash.Some? <==> target == RegularFile
    ensures r.crash.Some? ==> r.crash.value == NotADirectoryError && r.cloneResult.None? && r.up.None?
    ensures r.warnedNotEmpty <==> target == NonEmptyDir
    ensures r.crash.None? ==> r.up == Some(UpCall(ConfigPath(cwd, r.targetName, location), port, TyperDefault, force))
  {
    var targetName := TargetName(repoUrl, name);
    var targetPath := Join(cwd, targetName);
    if target == RegularFile then DeployRun(targetName, targetPath, false, None, None, Some(NotADirectoryError))
    else
      var cloneResult := match BindCall(CloneRepoParameters, 2, ["branch"])
                         case Some(e) => Err(e)
                         case None => cloneOutcome;
      DeployRun(targetName, targetPath, target == NonEmptyDir, Some(cloneResult),
                Some(UpCall(Render(Join(targetPath, location)), port, TyperDefault, force)), None)
  }

  /** The clone_repo the command evidently means to call, with a `branch` parameter. */
  const BranchedCloneRepoParameters: seq<string> := ["url", "directory", "branch"]

  /** deploy as evidently intended: the clone accepts the branch, a non-empty
      target or a failed clone ends the command, and `up` is given the pull
      policy its own command-line default names. A target that is a regular
      file still raises as written. */
  function DeployCorrected(cwd: Path, repoUrl: string, name: Option<string>, branch: Option<string>,
                           port: seq<string>, force: bool, location: string,
                           target: TargetState, cloneOutcome: Result<(), PyError>): (r: DeployRun)
    ensures r.targetName == TargetName(repoUrl, name)
    ensures r.targetPath == Join(cwd, r.targetName)
    ensures r.crash.Some? <==> target == RegularFile
    ensures r.warnedNotEmpty <==> target == NonEmptyDir
    ensures r.cloneResult.Some? <==> (target == Missing || target == EmptyDir)
    ensures r.up.Some? <==> (target == Missing || target == EmptyDir) && cloneOutcome.Ok?
    ensures r.up.Some? ==> r.up.value == UpCall(ConfigPath(cwd, r.targetName, location), port, PullText("missing"), force)
  {
    var targetName := TargetName(repoUrl, name);
    var targetPath := Join(cwd, targetName);
    if target == RegularFile then DeployRun(targetName, targetPath, false, None, None, Some(NotADirectoryError))
    else if target == NonEmptyDir then DeployRun(targetName, targetPath, true, None, None, None)
    else
      assert target.Missing? || target.EmptyDir?;
      var cloneResult := match BindCall(BranchedCloneRepoParameters, 2, ["branch"])
                         case Some(e) => Err(e)
                         case None => cloneOutcome;
      if cloneResult.Err? then DeployRun(targetName, targetPath, false, Some(cloneResult), None, None)
      else DeployRun(targetName, targetPath, false, Some(cloneResult),
                     Some(UpCall(Render(Join(targetPath, location)), port, PullText("missing"), force)), None)
  }

  /** As written, the clone never starts: binding the call raises TypeError
      whatever the arguments are. */
  lemma DeployNeverClones(cwd: Path, repoUrl: string, name: Option<string>, branch: Option<string>,
                          port: seq<string>, force: bool, location: string,
                          target: TargetState, cloneOutcome: Result<(), PyError>)
    requires target != RegularFile
    ensures Deploy(cwd, repoUrl, name, branch, port, force, location, target, cloneOutcome).cloneResult
      == Some(Err(TypeError))
  {
    assert "branch" !in CloneRepoParameters[2..];
  }

  /** Corrected, the clone runs with the branch, and its outcome is the command's. */
  lemma DeployCorrectedClones(cwd: Path, repoUrl: string, name: Option<string>, branch: Option<string>,
                              port: seq<string>, force: bool, location: string,
                              cloneOutcome: Result<(), PyError>)
    ensures DeployCorrected(cwd, repoUrl, name, branch, port, force, location, Missing, cloneOutcome).cloneResult
      == Some(cloneOutcome)
  {
    assert BranchedCloneRepoParameters[2..] == ["branch"];
  }

  /** As written, `up` is called the same way whether the target directory was
      occupied and whatever the clone did. */
  lemma DeployIgnoresFailures(cwd: Path, repoUrl: string, name: Option<string>, branch: Option<string>,
                              port: seq<string>, force: bool, location: string,
                              target1: TargetState, target2: TargetState,
                              outcome1: Result<(), PyError>, outcome2: Result<(), PyError>)
    requires target1 != RegularFile && target2 != RegularFile
    ensures Deploy(cwd, repoUrl, name, branch, port, force, location, target1, outcome1).up
         == Deploy(cwd, repoUrl, name, branch, port, force, location, target2, outcome2).up
    ensures Deploy(cwd, repoUrl, name, branch, port, force, location, target1, outcome1).up.Some?
  {
  }

  /** As written, the pull value `up` receives is refused by start_compose. */
  lemma DeployPullRejected(cwd: Path, repoUrl: string, name: Option<string>, branch: Option<string>,
                           port: seq<string>, force: bool, location: string,
                           target: TargetState, cloneOutcome: Result<(), PyError>)
    requires target != RegularFile
    ensures !PullAccepted(Deploy(cwd, repoUrl, name, branch, port, force, location, target, cloneOutcome).up.value.pull)
  {
  }

  /** Corrected, the pull value `up` receives is accepted. */
  lemma DeployCorrectedPullAccepted(cwd: Path, repoUrl: string, name: Option<string>, branch: Option<string>,
                                    port: seq<string>, force: bool, location: string,
                                    cloneOutcome: Result<(), PyError>)
    requires cloneOutcome.Ok?
    ensures var r := DeployCorrected(cwd, repoUrl, name, branch, port, force, location, Missing, cloneOutcome);
      r.up.Some? && PullAccepted(r.up.value.pull)
  {
  }

  /** With the default location, `up` runs in `cwd/name`, where `name` is the
      repository name, and the caller's ports and force flag pass through. */
  lemma DeployDefaultLocation(cwd: Path, base: string, repo: string, port: seq<string>, force: bool)
    requires Component(repo) && !EndsWith(repo, ".git")
    ensures var r := Deploy(cwd, base + "/" + repo + ".git", None, None, port, force, ".", Missing, Ok(()));
      && r.targetName == repo
      && r.targetPath == Path(cwd.absolute, cwd.parts + [repo])
      && r.up == Some(UpCall(Render(Path(cwd.absolute, cwd.parts + [repo])), port, TyperDefault, force))
  {
    RepoNameDropsGit(base, repo);
    JoinComponent(cwd, repo);
    JoinNothing(Path(cwd.absolute, cwd.parts + [repo]), ".");
  }
}

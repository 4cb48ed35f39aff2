/** The target directory of the `clone` command (app/commands/clone.py): an
    explicit directory, or the repository name derived from the URL under the
    current working directory. The clone itself is outside the model. */
module CloneCmd {
  import opened Wrappers
  import opened Strings
  import opened Paths

  /** `url.rstrip("/").split("/")[-1]` with one trailing ".git" removed. */
  function RepoName(url: string): (r: string)
    ensures '/' !in r
  {
    var last := AfterLast(RStrip(url, '/'), '/');
    if EndsWith(last, ".git") then last[..|last| - 4] else last
  }

  /** The directory handed to clone_repo. The derived target is the working
      directory with at most one path component appended; that component is
      taken verbatim, so it may be "..", which names the parent directory. */
  function CloneTarget(cwd: Path, url: string, localDir: Option<string>): (r: Path)
    ensures localDir.Some? && localDir.value != "" ==> r == Parse(localDir.value)
    ensures (localDir.None? || localDir.value == "") ==>
      r.absolute == cwd.absolute && |cwd.parts| <= |r.parts| <= |cwd.parts| + 1 && r.parts[..|cwd.parts|] == cwd.parts
  {
    if localDir.Some? && localDir.value != "" then Parse(localDir.value)
    else
      var name := RepoName(url);
      SingleComponent(name);
      assert (cwd.parts + Parse(name).parts)[..|cwd.parts|] == cwd.parts;
      Join(cwd, name)
  }

  /** Text without a separator parses to a relative path of at most one component. */
  lemma SingleComponent(s: string)
    requires '/' !in s
    ensures !Parse(s).absolute
    ensures |Parse(s).parts| <= 1
  {
    SplitWhole(s, '/');
    assert [s][1..] == [];
    assert |Components([s])| <= 1 + |Components([])|;
    if s != [] {
      assert s[0] in s;
    }
  }

  /** The name of `base/name.git` is `name`: exactly one ".git" is removed, so
      `x.git.git` names the repository `x.git`. */
  lemma RepoNameDropsGit(base: string, name: string)
    requires '/' !in name
    ensures RepoName(base + "/" + name + ".git") == name
  {
    var u := base + "/" + name + ".git";
    assert u == base + ['/'] + (name + ".git");
    assert RStrip(u, '/') == u by {
      assert u[|u| - 1] == 't';
    }
    AfterLastPiece(base, name + ".git", '/');
    var last := name + ".git";
    assert EndsWith(last, ".git");
    assert last[..|last| - 4] == name;
  }

  /** The name of `base/name` is `name` when it does not end in ".git". */
  lemma RepoNameKeepsPlainName(base: string, name: string)
    requires name != "" && '/' !in name && !EndsWith(name, ".git")
    ensures RepoName(base + "/" + name) == name
  {
    var u := base + "/" + name;
    assert u == base + ['/'] + name;
    assert RStrip(u, '/') == u by {
      assert u[|u| - 1] == name[|name| - 1];
      assert name[|name| - 1] in name;
    }
    AfterLastPiece(base, name, '/');
  }

  /** Trailing slashes do not change the derived name. */
  lemma RepoNameTrailingSlash(url: string)
    ensures RepoName(url + "/") == RepoName(url)
  {
    RStripAbsorbs(url, '/');
  }

  /** A URL naming a repository `name` is cloned into `cwd/name`. */
  lemma DerivedTarget(cwd: Path, base: string, name: string)
    requires Component(name) && !EndsWith(name, ".git")
    ensures CloneTarget(cwd, base + "/" + name, None) == Path(cwd.absolute, cwd.parts + [name])
    ensures CloneTarget(cwd, base + "/" + name + ".git", None) == Path(cwd.absolute, cwd.parts + [name])
  {
    RepoNameKeepsPlainName(base, name);
    RepoNameDropsGit(base, name);
    JoinComponent(cwd, name);
  }

  /** A URL ending in "/.." derives the name "..": the clone goes into the
      parent of the working directory, not below it. */
  lemma DotDotNameLeavesCwd(cwd: Path, base: string)
    ensures CloneTarget(cwd, base + "/..", None) == Path(cwd.absolute, cwd.parts + [".."])
  {
    assert !EndsWith("..", ".git");
    DerivedTarget(cwd, base, "..");
    assert base + "/" + ".." == base + "/..";
  }

  /** A URL whose last segment is empty or just ".git" yields an empty name, and
      the clone goes into the working directory itself. */
  lemma EmptyNameClonesIntoCwd(cwd: Path, base: string)
    ensures CloneTarget(cwd, base + "/.git", None) == cwd
  {
    RepoNameDropsGit(base, "");
    assert base + "/" + "" + ".git" == base + "/.git";
    JoinNothing(cwd, "");
  }
}

/** The part of Python's POSIX `pathlib` that the clone and deploy commands
    use: building a path from text, joining with `/`, and `str(path)`. A path
    is its absolute flag and its components; pathlib drops empty and "."
    components when it parses text. */
module Paths {
  import opened Strings

  datatype Path = Path(absolute: bool, parts: seq<string>)

  /** A component pathlib keeps. */
  predicate Component(c: string)
  {
    c != "" && c != "." && '/' !in c
  }

  predicate Normal(p: Path)
  {
    forall i :: 0 <= i < |p.parts| ==> Component(p.parts[i])
  }

  /** The pieces of a `/`-split that pathlib keeps, in order. */
  function Components(pieces: seq<string>): (r: seq<string>)
    requires forall i :: 0 <= i < |pieces| ==> '/' !in pieces[i]
    ensures forall i :: 0 <= i < |r| ==> Component(r[i])
    decreases |pieces|
  {
    if pieces == [] then []
    else if pieces[0] == "" || pieces[0] == "." then Components(pieces[1..])
    else [pieces[0]] + Components(pieces[1..])
  }

  /** `Path(s)`. */
  function Parse(s: string): (p: Path)
    ensures Normal(p)
  {
    Path(|s| > 0 && s[0] == '/', Components(Split(s, '/')))
  }

  /** `p / s`: an absolute right-hand side replaces the left one. */
  function Join(p: Path, s: string): (r: Path)
  {
    var q := Parse(s);
    if q.absolute then q else Path(p.absolute, p.parts + q.parts)
  }

  /** `str(p)`. */
  function Render(p: Path): string
  {
    if p.parts == [] then (if p.absolute then "/" else ".")
    else (if p.absolute then "/" else "") + JoinWith(p.parts, '/')
  }

  lemma {:induction false} ComponentsKeep(pieces: seq<string>)
    requires forall i :: 0 <= i < |pieces| ==> Component(pieces[i])
    ensures forall i :: 0 <= i < |pieces| ==> '/' !in pieces[i]
    ensures Components(pieces) == pieces
    decreases |pieces|
  {
    if pieces != [] {
      ComponentsKeep(pieces[1..]);
      assert [pieces[0]] + pieces[1..] == pieces;
    }
  }

  /** Printing a normal path and parsing the text gives the same path back. */
  lemma ParseRender(p: Path)
    requires Normal(p)
    ensures Parse(Render(p)) == p
  {
    if p.parts == [] {
      if p.absolute {
        assert Split("/", '/') == [""] + Split("", '/');
      } else {
        assert Split(".", '/') == [[('.')] + ""];
      }
    } else {
      var body := JoinWith(p.parts, '/');
      JoinSplit(p.parts, '/');
      ComponentsKeep(p.parts);
      if p.absolute {
        assert Render(p) == [('/')] + body;
        assert Split(Render(p), '/') == [""] + p.parts;
      } else {
        assert Render(p) == body;
        assert body[0] != '/' by {
          assert body[..|p.parts[0]|] == p.parts[0] || |p.parts| == 1;
          JoinStartsWithFirst(p.parts, '/');
        }
      }
    }
  }

  lemma {:induction false} JoinStartsWithFirst(parts: seq<string>, sep: char)
    requires |parts| >= 1 && parts[0] != ""
    ensures |JoinWith(parts, sep)| >= 1 && JoinWith(parts, sep)[0] == parts[0][0]
  {
  }

  /** Joining one component appends it. */
  lemma JoinComponent(p: Path, c: string)
    requires Component(c)
    ensures Join(p, c) == Path(p.absolute, p.parts + [c])
  {
    SplitWhole(c, '/');
    assert [c][1..] == [];
    assert Components([c]) == [c] + Components([]);
    assert Parse(c) == Path(false, [c]);
  }

  /** Joining "" or "." leaves the path as it is. */
  lemma JoinNothing(p: Path, c: string)
    requires c == "" || c == "."
    ensures Join(p, c) == p
  {
    SplitWhole(c, '/');
    assert [c][1..] == [];
    assert Components([c]) == Components([]);
    assert Parse(c) == Path(false, []);
    assert p.parts + [] == p.parts;
  }
}

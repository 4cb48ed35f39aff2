/** Decoded YAML data as the Python code sees it, and the handful of Python
    operations the CLI applies to it: truthiness, `dict.get`, iteration,
    `in`, `[0]`, `int(...)` and `str(...)`. Each operation returns the
    exception Python would raise instead of a value when it does not apply. */
module PyValues {
  import opened Wrappers
  import opened Strings

  /** The Python exceptions that the modelled code raises or lets escape. */
  datatype PyError =
    | AttributeError      // `.get`/`.items` on something that is not a dict
    | TypeError           // iterating or testing `in` on a non-container; int() of a container
    | ValueError          // int() of text that is not a number; a pull policy outside the allowed set
    | KeyError            // subscripting a dict by a key it lacks
    | IndexError          // subscripting an empty list or text
    | FileNotFoundError   // no compose file / no Dockerfile
    | NotADirectoryError  // detect_configuration on a path that is not a directory
    | RuntimeError        // run_container on an existing container without start_new
    | UnboundLocalError   // a local read before any assignment bound it
    | YamlError           // load_compose could not read or decode the file

  /** A value as `yaml.safe_load` produces it. A mapping keeps its entries in
      document order; a key written twice is read as PyYAML reads it: the key
      keeps its first position and takes its last value. */
  datatype Value =
    | Null
    | Bool(b: bool)
    | Int(i: int)
    | Str(s: string)
    | List(items: seq<Value>)
    | Dict(entries: seq<(string, Value)>)

  /** Python truthiness. */
  predicate Truthy(v: Value)
  {
    match v
    case Null => false
    case Bool(b) => b
    case Int(i) => i != 0
    case Str(s) => s != ""
    case List(items) => items != []
    case Dict(entries) => entries != []
  }

  predicate Distinct(ks: seq<string>)
  {
    forall i, j :: 0 <= i < j < |ks| ==> ks[i] != ks[j]
  }

  /** The keys of a mapping, each once, in the order of their first appearance. */
  function Keys(entries: seq<(string, Value)>): (ks: seq<string>)
    ensures Distinct(ks)
    ensures forall k :: k in ks <==> exists i :: 0 <= i < |entries| && entries[i].0 == k
    ensures |ks| <= |entries|
    decreases |entries|
  {
    if entries == [] then []
    else
      var front := entries[..|entries| - 1];
      var ks := Keys(front);
      var k := entries[|entries| - 1].0;
      assert forall i :: 0 <= i < |front| ==> front[i] == entries[i];
      if k in ks then ks else ks + [k]
  }

  /** `d[k]` when present: the last value written for `k`. */
  function Lookup(entries: seq<(string, Value)>, k: string): (r: Option<Value>)
    ensures r.Some? <==> k in Keys(entries)
    ensures r.Some? ==> (k, r.value) in entries
    decreases |entries|
  {
    if entries == [] then None
    else if entries[|entries| - 1].0 == k then Some(entries[|entries| - 1].1)
    else
      var front := entries[..|entries| - 1];
      assert forall i :: 0 <= i < |front| ==> front[i] == entries[i];
      Lookup(front, k)
  }

  /** `d.items()`: each key once, in first-appearance order, with its value. */
  function Items(entries: seq<(string, Value)>): (r: seq<(string, Value)>)
    ensures |r| == |Keys(entries)|
    ensures forall i :: 0 <= i < |r| ==> r[i].0 == Keys(entries)[i] && Lookup(entries, r[i].0) == Some(r[i].1)
  {
    var ks := Keys(entries);
    seq(|ks|, i requires 0 <= i < |ks| => (ks[i], Lookup(entries, ks[i]).value))
  }

  predicate HasKey(v: Value, k: string)
  {
    v.Dict? && k in Keys(v.entries)
  }

  /** `v.get(k, default)`: a value that is not a dict has no `get`. */
  function Get(v: Value, k: string, default: Value): (r: Result<Value, PyError>)
    ensures r.Err? <==> !v.Dict?
    ensures r.Err? ==> r.error == AttributeError
    ensures r.Ok? && HasKey(v, k) ==> (k, r.value) in v.entries
    ensures r.Ok? && !HasKey(v, k) ==> r.value == default
  {
    if !v.Dict? then Err(AttributeError)
    else match Lookup(v.entries, k)
      case Some(x) => Ok(x)
      case None => Ok(default)
  }

  /** The items a Python `for` loop visits: a list's elements, a text's
      characters, a dict's keys. Anything else is not iterable. */
  function Iterate(v: Value): (r: Result<seq<Value>, PyError>)
    ensures r.Err? <==> !(v.List? || v.Str? || v.Dict?)
    ensures r.Err? ==> r.error == TypeError
    ensures v.List? ==> r == Ok(v.items)
    ensures r.Ok? ==> (|r.value| == 0 <==> !Truthy(v))
  {
    match v
    case List(items) => Ok(items)
    case Str(s) => Ok(seq(|s|, i requires 0 <= i < |s| => Str([s[i]])))
    case Dict(entries) =>
      var ks := Keys(entries);
      assert entries != [] ==> entries[0].0 in ks;
      Ok(seq(|ks|, i requires 0 <= i < |ks| => Str(ks[i])))
    case _ => Err(TypeError)
  }

  /** `needle in v` for a text `needle`: key membership for a dict, element
      equality for a list, substring for a text; anything else raises. */
  function In(needle: string, v: Value): (r: Result<bool, PyError>)
    ensures r.Err? <==> !(v.List? || v.Str? || v.Dict?)
    ensures v.Dict? ==> r == Ok(HasKey(v, needle))
    ensures v.List? ==> r == Ok(Str(needle) in v.items)
  {
    match v
    case Dict(entries) => Ok(needle in Keys(entries))
    case List(items) => Ok(Str(needle) in items)
    case Str(s) => Ok(Contains(s, needle))
    case _ => Err(TypeError)
  }

  /** `v[0]`. A dict keyed by text has no key `0`. */
  function First(v: Value): (r: Result<Value, PyError>)
    ensures v.List? && v.items != [] ==> r == Ok(v.items[0])
  {
    match v
    case List(items) => if items == [] then Err(IndexError) else Ok(items[0])
    case Str(s) => if s == "" then Err(IndexError) else Ok(Str([s[0]]))
    case Dict(_) => Err(KeyError)
    case _ => Err(TypeError)
  }

  /** Python's `int(v)`. */
  function ToInt(v: Value): (r: Result<int, PyError>)
    ensures v.Int? ==> r == Ok(v.i)
    ensures v.Str? ==> (r.Ok? <==> ParseInt(v.s).Some?)
    ensures r.Err? ==> r.error in {TypeError, ValueError}
  {
    match v
    case Int(i) => Ok(i)
    case Bool(b) => Ok(if b then 1 else 0)
    case Str(s) => ParseText(s)
    case _ => Err(TypeError)
  }

  /** `int(s)` for a text `s`. */
  function ParseText(s: string): (r: Result<int, PyError>)
    ensures r.Ok? <==> ParseInt(s).Some?
    ensures r.Ok? ==> r.value == ParseInt(s).value
    ensures r.Err? ==> r.error == ValueError
  {
    match ParseInt(s)
    case Some(n) => Ok(n)
    case None => Err(ValueError)
  }

  /** Python's `str(v)` as an f-string renders it. Lists and dicts are shown by
      a fixed marker instead of their Python `repr`. */
  function ToText(v: Value): (r: string)
    ensures v.Str? ==> r == v.s
    ensures v.Int? ==> r == IntToString(v.i)
  {
    match v
    case Null => "None"
    case Bool(b) => if b then "True" else "False"
    case Int(i) => IntToString(i)
    case Str(s) => s
    case List(_) => "[...]"
    case Dict(_) => "{...}"
  }
}

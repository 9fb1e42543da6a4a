/**
  The path resolver shared by json/parser.go, json/pointer.go and
  src/config/jpath/config.go (and, through the embedded Parser, by
  config/config.go).  The three copies are identical in behaviour (they
  differ only in their receiver, the names of their error-format constants,
  and src/config/jpath/config.go naming its entry points `...ByXPath`), so
  the logic is stated once here and each per-file class delegates to it.

  A path is walked one segment at a time.  While the current value is an
  object, a segment must name one of its keys (else KeyNotFound) whose value
  is a string, number or object (else KeyTypeInvalid).  When the current
  value is not an object the step yields the string "" and no error: a path
  that continues past a scalar silently resolves to "".
 */
module Resolver {
  import opened JsonValue
  import opened Strings

  const PathSep: char := '/'

  /** getKeyObjectFromObject: one step of a walk. */
  function KeyObject(key: string, obj: Json): (r: Result<Json>)
    ensures r.Ok? ==> Descendable(r.value)
    ensures r.Err? ==> r.error == KeyNotFound(key) || r.error == KeyTypeInvalid(key)
  {
    match obj
    case Obj(fields) =>
      if key !in fields then Err(KeyNotFound(key))
      else (
        match fields[key]
        case Str(_) => Ok(fields[key])
        case Num(_) => Ok(fields[key])
        case Obj(_) => Ok(fields[key])
        case _ => Err(KeyTypeInvalid(key))
      )
    case _ => Ok(Str(""))
  }

  /** getPathObjectFromObject, as a specification: the steps in order, stopping
      at the first one that fails.  Any value it lands on after at least one
      step is a string, number or object, and any error names a segment. */
  function ResolvePath(paths: seq<string>, obj: Json): (r: Result<Json>)
    ensures r.Ok? && paths != [] ==> Descendable(r.value)
    ensures r.Err? ==> (r.error.KeyNotFound? || r.error.KeyTypeInvalid?) && r.error.key in paths
    decreases |paths|
  {
    if paths == [] then Ok(obj)
    else
      match KeyObject(paths[0], obj)
      case Err(e) => Err(e)
      case Ok(next) => ResolvePath(paths[1..], next)
  }

  /** getPathObjectFromObject: the loop that carries the current value. */
  method WalkPath(paths: seq<string>, rootObj: Json) returns (r: Result<Json>)
    ensures r == ResolvePath(paths, rootObj)
    ensures paths == [] ==> r == Ok(rootObj)
  {
    var obj := rootObj;
    for i := 0 to |paths|
      invariant ResolvePath(paths[i..], obj) == ResolvePath(paths, rootObj)
    {
      var keyObj := KeyObject(paths[i], obj);
      if keyObj.Err? {
        return Err(keyObj.error);
      }
      assert paths[i..][1..] == paths[i + 1..];
      obj := keyObj.value;
    }
    assert paths[|paths|..] == [];
    return Ok(obj);
  }

  /** The type switch at the end of GetKeyStringByPaths: a string leaf as it
      is, a number through FormatFloat, anything else an error naming the
      whole path. */
  function LeafString(paths: seq<string>, leaf: Json): Result<string> {
    match leaf
    case Str(s) => Ok(s)
    case Num(f) => Ok(FormatFloat(f))
    case _ => Err(KeyTypeInvalid([PathSep] + Join(paths, PathSep)))
  }

  /** GetKeyStringByPaths, as a specification. */
  function KeyStringByPaths(paths: seq<string>, root: Json): Result<string> {
    match ResolvePath(paths, root)
    case Err(e) => Err(e)
    case Ok(leaf) => LeafString(paths, leaf)
  }

  /** GetKeyObjectByPath, as a specification. */
  function KeyObjectByPath(path: string, root: Json): Result<Json> {
    ResolvePath(Split(path, PathSep), root)
  }

  /** GetKeyStringByPath, as a specification. */
  function KeyStringByPath(path: string, root: Json): Result<string> {
    KeyStringByPaths(Split(path, PathSep), root)
  }

  // ---------------------------------------------------------------------
  // A reference: the value a path names in the tree, if any.

  /** The value reached by following `paths` as object keys, descending only
      through objects and with no restriction on the types met; None when a
      key is missing or a non-object is met before the end. */
  function Navigate(paths: seq<string>, v: Json): Option<Json>
    decreases |paths|
  {
    if paths == [] then Some(v)
    else
      match v
      case Obj(fields) =>
        if paths[0] in fields then Navigate(paths[1..], fields[paths[0]]) else None
      case _ => None
  }

  // ---------------------------------------------------------------------
  // Properties of the walk.

  /** Walking `p + q` is walking `p`, then `q` from where `p` ended. */
  lemma {:induction false} ResolveAppend(p: seq<string>, q: seq<string>, obj: Json)
    ensures ResolvePath(p + q, obj) ==
              match ResolvePath(p, obj)
              case Err(e) => Err(e)
              case Ok(v) => ResolvePath(q, v)
    decreases |p|
  {
    if p == [] {
      assert p + q == q;
    } else {
      assert (p + q)[0] == p[0] && (p + q)[1..] == p[1..] + q;
      match KeyObject(p[0], obj)
      case Err(e) =>
      case Ok(next) => ResolveAppend(p[1..], q, next);
    }
  }

  /** A segment missing from the object reached so far fails the walk with
      KeyNotFound naming that segment; the segments after it are never
      looked at. */
  lemma ResolveStopsAtMissingKey(prefix: seq<string>, key: string, rest: seq<string>, root: Json, fields: map<string, Json>)
    requires ResolvePath(prefix, root) == Ok(Obj(fields))
    requires key !in fields
    ensures ResolvePath(prefix + [key] + rest, root) == Err(KeyNotFound(key))
  {
    ResolveAppend(prefix, [key] + rest, root);
    assert prefix + [key] + rest == prefix + ([key] + rest);
    assert ([key] + rest)[0] == key;
  }

  /** A segment whose value is a boolean, an array or null fails the walk with
      KeyTypeInvalid naming that segment; the rest is never looked at. */
  lemma ResolveStopsAtInvalidType(prefix: seq<string>, key: string, rest: seq<string>, root: Json, fields: map<string, Json>)
    requires ResolvePath(prefix, root) == Ok(Obj(fields))
    requires key in fields && !Descendable(fields[key])
    ensures ResolvePath(prefix + [key] + rest, root) == Err(KeyTypeInvalid(key))
  {
    ResolveAppend(prefix, [key] + rest, root);
    assert prefix + [key] + rest == prefix + ([key] + rest);
    assert ([key] + rest)[0] == key;
  }

  /** A segment whose value is a string, number or object makes that value,
      unchanged, the current one for the rest of the path. */
  lemma ResolveDescends(prefix: seq<string>, key: string, rest: seq<string>, root: Json, fields: map<string, Json>)
    requires ResolvePath(prefix, root) == Ok(Obj(fields))
    requires key in fields && Descendable(fields[key])
    ensures ResolvePath(prefix + [key] + rest, root) == ResolvePath(rest, fields[key])
  {
    ResolveAppend(prefix, [key] + rest, root);
    assert prefix + [key] + rest == prefix + ([key] + rest);
    assert ([key] + rest)[0] == key && ([key] + rest)[1..] == rest;
  }

  /** From a value that is not an object, every non-empty path resolves to ""
      without an error. */
  lemma {:induction false} ResolveFromNonObject(paths: seq<string>, v: Json)
    requires !v.Obj? && paths != []
    ensures ResolvePath(paths, v) == Ok(Str(""))
    decreases |paths|
  {
    if |paths| > 1 {
      ResolveFromNonObject(paths[1..], Str(""));
    }
  }

  /** The quirk of the source: once the walk reaches a string or a number,
      further segments are not an error and the result is "". */
  lemma ResolvePastScalar(prefix: seq<string>, rest: seq<string>, root: Json, v: Json)
    requires ResolvePath(prefix, root) == Ok(v) && !v.Obj? && rest != []
    ensures ResolvePath(prefix + rest, root) == Ok(Str(""))
  {
    ResolveAppend(prefix, rest, root);
    ResolveFromNonObject(rest, v);
  }

  /** A failed walk failed at one segment `i`: the segments before it
      resolved, the step at `i` produced exactly the error returned, and the
      error names `paths[i]`. */
  lemma {:induction false} FirstFailure(paths: seq<string>, root: Json) returns (i: nat)
    requires ResolvePath(paths, root).Err?
    ensures i < |paths| && ResolvePath(paths[..i], root).Ok?
    ensures KeyObject(paths[i], ResolvePath(paths[..i], root).value) == ResolvePath(paths, root)
    ensures ResolvePath(paths, root).error.key == paths[i]
    decreases |paths|
  {
    match KeyObject(paths[0], root)
    case Err(e) =>
      i := 0;
      assert paths[..0] == [];
    case Ok(next) =>
      var j := FirstFailure(paths[1..], next);
      i := j + 1;
      assert paths[..i] == [paths[0]] + paths[1..][..j];
      ResolveAppend([paths[0]], paths[1..][..j], root);
      assert paths[1..][j] == paths[i];
  }

  /** A path naming a string, number or object in the tree resolves to
      exactly that value. */
  lemma {:induction false} ResolveFindsNamedValue(paths: seq<string>, root: Json, leaf: Json)
    requires Navigate(paths, root) == Some(leaf)
    requires paths != [] ==> Descendable(leaf)
    ensures ResolvePath(paths, root) == Ok(leaf)
    decreases |paths|
  {
    if paths != [] {
      var child := root.fields[paths[0]];
      if |paths| > 1 {
        assert child.Obj?;
      }
      ResolveFindsNamedValue(paths[1..], child, leaf);
    }
  }

  /** Conversely, a successful walk either found the value the path names, or
      the path ran past a non-object and the result is the "" of the quirk. */
  lemma {:induction false} ResolveOkIsNamedOrEmpty(paths: seq<string>, root: Json)
    requires ResolvePath(paths, root).Ok?
    ensures Navigate(paths, root) == Some(ResolvePath(paths, root).value)
         || (Navigate(paths, root) == None && ResolvePath(paths, root).value == Str(""))
    decreases |paths|
  {
    if paths != [] {
      match root
      case Obj(fields) =>
        ResolveOkIsNamedOrEmpty(paths[1..], fields[paths[0]]);
      case _ =>
        ResolveFromNonObject(paths, root);
    }
  }

  /** KeyNotFound is only reported for a path that names nothing. */
  lemma {:induction false} NotFoundMeansUnnamed(paths: seq<string>, root: Json)
    requires ResolvePath(paths, root).Err? && ResolvePath(paths, root).error.KeyNotFound?
    ensures Navigate(paths, root) == None
    decreases |paths|
  {
    match root
    case Obj(fields) =>
      if paths[0] in fields {
        NotFoundMeansUnnamed(paths[1..], fields[paths[0]]);
      }
    case _ =>
  }

  // ---------------------------------------------------------------------
  // Properties of the string projection.

  /** A path naming a string gives that string verbatim, one naming a number
      gives its FormatFloat text, and any other leaf (an object, or with the
      empty path a nil, bool or array root) fails with KeyTypeInvalid
      carrying "/" followed by the whole path. */
  lemma KeyStringOfNamedValue(paths: seq<string>, root: Json, leaf: Json)
    requires Navigate(paths, root) == Some(leaf) && (paths != [] ==> Descendable(leaf))
    ensures leaf.Str? ==> KeyStringByPaths(paths, root) == Ok(leaf.s)
    ensures leaf.Num? ==> KeyStringByPaths(paths, root) == Ok(FormatFloat(leaf.n))
    ensures !leaf.Str? && !leaf.Num? ==>
              KeyStringByPaths(paths, root) == Err(KeyTypeInvalid("/" + Join(paths, '/')))
  {
    ResolveFindsNamedValue(paths, root, leaf);
  }

  /** The empty segment list on a nil root (nothing parsed) fails with
      KeyTypeInvalid("/"): the root itself is the leaf, and it is neither a
      string nor a number. */
  lemma EmptyPathsOnUnparsedRoot()
    ensures KeyStringByPaths([], Null) == Err(KeyTypeInvalid("/"))
  {
    KeyStringOfNamedValue([], Null, Null);
    assert Join([], '/') == [];
    assert [PathSep] + [] == "/";
  }

  /** Through the `...ByPath` entry points, the KeyTypeInvalid for an object
      leaf carries "/" followed by the path string exactly as given. */
  lemma KeyStringByPathNamesWholePath(path: string, root: Json, fields: map<string, Json>)
    requires Navigate(Split(path, '/'), root) == Some(Obj(fields))
    ensures KeyStringByPath(path, root) == Err(KeyTypeInvalid("/" + path))
  {
    KeyStringOfNamedValue(Split(path, '/'), root, Obj(fields));
    JoinSplit(path, '/');
  }

  /** Before anything is parsed the root is nil, so every path through the
      `...ByPath` entry points resolves to "" with no error. */
  lemma UnparsedRootResolvesEmpty(path: string)
    ensures KeyObjectByPath(path, Null) == Ok(Str(""))
    ensures KeyStringByPath(path, Null) == Ok("")
  {
    ResolveFromNonObject(Split(path, '/'), Null);
  }

  /** A leading "/" (as in "/organizer/name") makes the first segment the
      empty key "", which an object without that key reports as not found. */
  lemma LeadingSlashLooksUpEmptyKey(path: string, fields: map<string, Json>)
    requires "" !in fields
    ensures Split("/" + path, '/') == [""] + Split(path, '/')
    ensures KeyObjectByPath("/" + path, Obj(fields)) == Err(KeyNotFound(""))
    ensures KeyStringByPath("/" + path, Obj(fields)) == Err(KeyNotFound(""))
  {
    SplitAppend("", path, '/');
    assert "" + ['/'] + path == "/" + path;
  }

  /** The empty path string is the single segment "". */
  lemma EmptyPathIsOneEmptySegment(root: Json)
    ensures Split("", '/') == [""]
    ensures KeyObjectByPath("", root) == KeyObject("", root)
  {
    assert Split("", '/') == [""];
    assert [""][1..] == [];
  }
}

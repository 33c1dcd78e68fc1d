/**
 * The base of the UI5 project formatters: Maven placeholders such as "${project.version}"
 * resolved against a project's pom.xml, and the memoised reads of manifest.json and pom.xml.
 *
 * Files are read through an injected map from path to what reading and parsing the file
 * gives (JSON for the manifest, XML turned into a value tree for the pom); a path absent from
 * the map is a file that cannot be read.
 */
module Ui5Formatter {
  import opened Wrappers
  import opened Strings

  // ---------------------------------------------------------------------------
  // Values

  /** A parsed JSON or XML document, as far as the formatters look into it. */
  datatype JsValue =
    | Undefined
    | Null
    | Bool(b: bool)
    | Num(n: int)
    | Str(s: string)
    | Arr(items: seq<JsValue>)
    | Obj(fields: map<string, JsValue>)

  /** JavaScript truthiness (NaN is not modelled). */
  predicate Truthy(v: JsValue)
  {
    match v
    case Undefined => false
    case Null => false
    case Bool(b) => b
    case Num(n) => n != 0
    case Str(s) => s != ""
    case Arr(_) => true
    case Obj(_) => true
  }

  predicate IsNullish(v: JsValue)
  {
    v.Undefined? || v.Null?
  }

  /** `v[key]` on a value that is not nullish: an own field of an object, undefined otherwise. */
  function Get(v: JsValue, key: string): JsValue
  {
    if v.Obj? && key in v.fields then v.fields[key] else Undefined
  }

  /** `a && b`: `a` when it is falsy, `b` otherwise. */
  function And(a: JsValue, b: JsValue): (r: JsValue)
    ensures Truthy(r) <==> Truthy(a) && Truthy(b)
  {
    if Truthy(a) then b else a
  }

  /** The errors the two formatters raise; messages are reduced to their kind. */
  datatype Ui5Error =
    | AbstractClass
    | NotImplemented
    | NoPlaceholder(value: string)
    | Unresolved(value: string, key: string)
    | ManifestUnreadable
    | ReadFailed(path: string)
    | ParseFailed(path: string)
    | TypeError
    | ProjectUndefined
    | NameMissing
    | TypeMissing
    | VersionMissing
    | NoSourceDirectory(path: string)
    | NoDotLibrary
    | MultipleDotLibraries(count: nat)

  // ---------------------------------------------------------------------------
  // Maven placeholders

  /**
   * The capture of `^\$\{(.*)\}$`: the text between a leading "${" and a trailing "}",
   * provided it holds no line terminator, which `.` does not match.
   */
  function PlaceholderKey(value: string): (r: Option<string>)
    ensures r.Some? ==> value == "${" + r.value + "}" && !HasLineTerminator(r.value)
  {
    if |value| >= 3 && value[..2] == "${" && value[|value| - 1] == '}'
       && !HasLineTerminator(value[2..|value| - 1])
    then
      assert value == value[..2] + value[2..|value| - 1] + [value[|value| - 1]];
      Some(value[2..|value| - 1])
    else None
  }

  /** `hasMavenPlaceholder`: the whole value is "${key}" for some key on one line. */
  predicate HasMavenPlaceholder(value: string)
    ensures HasMavenPlaceholder(value) ==> |value| >= 3 && value[..2] == "${" && value[|value| - 1] == '}'
    ensures forall key :: value == "${" + key + "}" && !HasLineTerminator(key) ==> HasMavenPlaceholder(value)
  {
    if |value| < 3 || value[..2] != "${" || value[|value| - 1] != '}' then false
    else
      PlaceholderKey(value).Some?
  }

  /** A value is a placeholder for `key` exactly when it is "${key}" and `key` is on one line. */
  lemma PlaceholderKeyOf(value: string, key: string)
    ensures PlaceholderKey(value) == Some(key) <==> value == "${" + key + "}" && !HasLineTerminator(key)
  {
    if value == "${" + key + "}" {
      assert value[..2] == "${" && value[2..|value| - 1] == key;
    }
  }

  /** `pom.project && pom.project.properties && pom.project.properties[key]`. */
  function ProjectProperty(pom: JsValue, key: string): JsValue
  {
    var project := Get(pom, "project");
    var properties := Get(project, "properties");
    And(And(project, properties), Get(properties, key))
  }

  /** One step of the walk: `obj && obj[part]`. */
  function Step(obj: JsValue, part: string): JsValue
  {
    And(obj, Get(obj, part))
  }

  /** The value `obj` holds at the dotted path `parts`, stepping part by part. */
  function Walk(obj: JsValue, parts: seq<string>): JsValue
    decreases |parts|
  {
    if parts == [] then obj else Step(Walk(obj, parts[..|parts| - 1]), parts[|parts| - 1])
  }

  /** Walking a path in two legs is walking it in one. */
  lemma {:induction false} WalkAppend(obj: JsValue, a: seq<string>, b: seq<string>)
    ensures Walk(obj, a + b) == Walk(Walk(obj, a), b)
    decreases |b|
  {
    if b == [] {
      assert a + b == a;
    } else {
      var n := |b| - 1;
      assert (a + b)[..|a + b| - 1] == a + b[..n];
      WalkAppend(obj, a, b[..n]);
    }
  }

  /** Once the walk reaches a falsy value it stays there. */
  lemma {:induction false} WalkFalsyAbsorbs(obj: JsValue, parts: seq<string>)
    requires !Truthy(obj)
    ensures Walk(obj, parts) == obj
    decreases |parts|
  {
    if parts != [] {
      WalkFalsyAbsorbs(obj, parts[..|parts| - 1]);
    }
  }

  /** A missing step along the path makes the whole walk falsy rather than fail. */
  lemma MissingStepIsFalsy(obj: JsValue, a: seq<string>, part: string, b: seq<string>)
    requires Get(Walk(obj, a), part) == Undefined
    ensures !Truthy(Walk(obj, a + [part] + b))
  {
    WalkAppend(obj, a + [part], b);
    assert (a + [part])[..|a + [part]| - 1] == a;
    WalkFalsyAbsorbs(Walk(obj, a + [part]), b);
  }

  /** The tree that holds `leaf` at the path `parts` and nothing else. */
  function Nested(parts: seq<string>, leaf: JsValue): (r: JsValue)
    ensures parts != [] ==> r.Obj? && r.fields == map[parts[0] := Nested(parts[1..], leaf)]
    decreases |parts|
  {
    if parts == [] then leaf else Obj(map[parts[0] := Nested(parts[1..], leaf)])
  }

  /** Walking a path finds what the tree holds there. */
  lemma {:induction false} WalkNested(parts: seq<string>, leaf: JsValue)
    ensures Walk(Nested(parts, leaf), parts) == leaf
    decreases |parts|
  {
    if parts != [] {
      var tree := Nested(parts, leaf);
      assert [parts[0]] + parts[1..] == parts;
      WalkAppend(tree, [parts[0]], parts[1..]);
      assert Walk(tree, [parts[0]]) == Step(tree, parts[0]);
      WalkNested(parts[1..], leaf);
    }
  }

  /** What the lookup finds: the property when it is truthy, the dotted path otherwise. */
  function LookupPom(pom: JsValue, key: string): JsValue
  {
    var property := ProjectProperty(pom, key);
    if Truthy(property) then property else Walk(pom, Split(key, '.'))
  }

  /** resolveMavenPlaceholder, given what reading the pom gives. */
  function MavenResolution(value: string, pom: Result<JsValue, Ui5Error>): (r: Result<JsValue, Ui5Error>)
    ensures r.Success? ==> Truthy(r.value) && HasMavenPlaceholder(value)
    ensures !HasMavenPlaceholder(value) ==> r == Failure(NoPlaceholder(value))
    ensures HasMavenPlaceholder(value) && pom.Failure? ==> r == Failure(pom.error)
  {
    match PlaceholderKey(value)
    case None => Failure(NoPlaceholder(value))
    case Some(key) =>
      if pom.Failure? then Failure(pom.error)
      else if IsNullish(pom.value) then Failure(TypeError)
      else
        var found := LookupPom(pom.value, key);
        if Truthy(found) then Success(found) else Failure(Unresolved(value, key))
  }

  /** A truthy entry of the pom's project properties wins over any dotted path. */
  lemma PropertiesTakePrecedence(pom: JsValue, key: string)
    requires !HasLineTerminator(key)
    requires var project := Get(pom, "project");
             var properties := Get(project, "properties");
             Truthy(project) && Truthy(properties) && Truthy(Get(properties, key))
    ensures MavenResolution("${" + key + "}", Success(pom))
            == Success(Get(Get(Get(pom, "project"), "properties"), key))
  {
    PlaceholderKeyOf("${" + key + "}", key);
  }

  /**
   * Without such a property the dotted key is walked from the root: a pom holding a truthy
   * value at that path resolves to it, "${project.version}" included.
   */
  lemma ResolvesNestedValue(key: string, leaf: JsValue)
    requires !HasLineTerminator(key) && Truthy(leaf)
    requires var parts := Split(key, '.');
             parts[0] != "project" || (|parts| >= 2 && parts[1] != "properties")
    ensures MavenResolution("${" + key + "}", Success(Nested(Split(key, '.'), leaf))) == Success(leaf)
  {
    var parts := Split(key, '.');
    var pom := Nested(parts, leaf);
    PlaceholderKeyOf("${" + key + "}", key);
    WalkNested(parts, leaf);
    if parts[0] == "project" {
      assert Get(pom, "project") == Nested(parts[1..], leaf);
      assert parts[1..][0] == parts[1];
    }
    assert !Truthy(ProjectProperty(pom, key));
  }

  /** A dotted path that leaves the tree halfway makes the resolution fail. */
  lemma MissingStepUnresolved(pom: JsValue, key: string, a: seq<string>, part: string, b: seq<string>)
    requires !HasLineTerminator(key) && !IsNullish(pom)
    requires Split(key, '.') == a + [part] + b
    requires !Truthy(ProjectProperty(pom, key))
    requires Get(Walk(pom, a), part) == Undefined
    ensures MavenResolution("${" + key + "}", Success(pom)) == Failure(Unresolved("${" + key + "}", key))
  {
    PlaceholderKeyOf("${" + key + "}", key);
    MissingStepIsFalsy(pom, a, part, b);
  }

  // ---------------------------------------------------------------------------
  // Files

  /** What reading a file and parsing it gives. */
  datatype FileContent = Parsed(value: JsValue) | Unparsable

  type Files = map<string, FileContent>

  /** `path.join(a, b)` for paths that need no normalisation. */
  function PathJoin(a: string, b: string): string
  {
    a + "/" + b
  }

  /** Reading and parsing a file, both failures passed on as they are. */
  function ReadParsed(files: Files, path: string): (r: Result<JsValue, Ui5Error>)
    ensures r.Failure? <==> path !in files || files[path].Unparsable?
    ensures r.Failure? ==> r.error == ReadFailed(path) || r.error == ParseFailed(path)
  {
    if path !in files then Failure(ReadFailed(path))
    else match files[path]
      case Parsed(value) => Success(value)
      case Unparsable => Failure(ParseFailed(path))
  }

  function ManifestPath(projectPath: string, basePath: string): string
  {
    PathJoin(PathJoin(projectPath, basePath), "manifest.json")
  }

  function PomPath(projectPath: string): string
  {
    PathJoin(projectPath, "pom.xml")
  }

  /**
   * Reading the manifest: a failed read becomes "Failed to read manifest.json", while a
   * parse failure passes through unchanged, since only the read has an error handler.
   */
  function ReadManifest(files: Files, path: string): (r: Result<JsValue, Ui5Error>)
    ensures r == Failure(ManifestUnreadable) <==> path !in files
    ensures path in files ==> r == ReadParsed(files, path)
  {
    if path !in files then Failure(ManifestUnreadable) else ReadParsed(files, path)
  }

  /**
   * What getManifest gives: the cached outcome when there is one, otherwise a read below the
   * source base path; a base path that cannot be had fails before anything is read.
   */
  function ManifestOf(cache: Option<Result<JsValue, Ui5Error>>, files: Files, projectPath: string,
                      basePath: Result<string, Ui5Error>): (r: Result<JsValue, Ui5Error>)
    ensures cache.Some? ==> r == cache.value
    ensures cache.None? && basePath.Failure? ==> r == Failure(basePath.error)
    ensures cache.None? && basePath.Success? ==> r == ReadManifest(files, ManifestPath(projectPath, basePath.value))
  {
    if cache.Some? then cache.value
    else if basePath.Failure? then Failure(basePath.error)
    else ReadManifest(files, ManifestPath(projectPath, basePath.value))
  }

  /** What getPom gives: the cached outcome when there is one, otherwise a read of pom.xml. */
  function PomOf(cache: Option<Result<JsValue, Ui5Error>>, files: Files, projectPath: string): (r: Result<JsValue, Ui5Error>)
    ensures cache.Some? ==> r == cache.value
    ensures cache.None? ==> r == ReadParsed(files, PomPath(projectPath))
  {
    if cache.Some? then cache.value else ReadParsed(files, PomPath(projectPath))
  }

  /** The base formatter's getSourceBasePath, which subclasses must override. */
  const AbstractSourceBasePath: Result<string, Ui5Error> := Failure(NotImplemented)

  /** A formatter that keeps the base getSourceBasePath never gets to read a manifest. */
  lemma AbstractFormatterReadsNoManifest(files: Files, projectPath: string)
    ensures ManifestOf(None, files, projectPath, AbstractSourceBasePath) == Failure(NotImplemented)
  {
  }

  /** The class a formatter is constructed as (`new.target`). */
  datatype FormatterClass = AbstractUi5FormatterClass | LibraryFormatterClass

  /**
   * AbstractUi5Formatter: the cached outcomes of reading manifest.json (`_pManifest`) and
   * pom.xml (`_pPom`); a failed read is cached like a successful one.
   */
  class Ui5Formatter {
    var manifest: Option<Result<JsValue, Ui5Error>>
    var pom: Option<Result<JsValue, Ui5Error>>

    constructor ()
      ensures manifest.None? && pom.None?
    {
      manifest := None;
      pom := None;
    }

    /** The constructor's guard: the abstract class itself cannot be instantiated. */
    static method New(target: FormatterClass) returns (r: Result<Ui5Formatter, Ui5Error>)
      ensures r.Failure? <==> target == AbstractUi5FormatterClass
      ensures r.Failure? ==> r.error == AbstractClass
      ensures r.Success? ==> fresh(r.value) && r.value.manifest.None? && r.value.pom.None?
    {
      if target == AbstractUi5FormatterClass {
        return Failure(AbstractClass);
      }
      var formatter := new Ui5Formatter();
      return Success(formatter);
    }

    function EffectiveManifest(files: Files, projectPath: string, basePath: Result<string, Ui5Error>): Result<JsValue, Ui5Error>
      reads this
    {
      ManifestOf(manifest, files, projectPath, basePath)
    }

    function EffectivePom(files: Files, projectPath: string): Result<JsValue, Ui5Error>
      reads this
    {
      PomOf(pom, files, projectPath)
    }

    /**
     * getManifest: the first call that gets as far as the read caches its outcome, and every
     * later call returns that outcome whatever the files hold by then.
     */
    method GetManifest(files: Files, projectPath: string, basePath: Result<string, Ui5Error>)
      returns (r: Result<JsValue, Ui5Error>)
      modifies this
      ensures r == old(EffectiveManifest(files, projectPath, basePath))
      ensures manifest == if old(manifest).None? && basePath.Success? then Some(r) else old(manifest)
      ensures pom == old(pom)
    {
      if manifest.Some? {
        return manifest.value;
      }
      if basePath.Failure? {
        return Failure(basePath.error);
      }
      r := ReadManifest(files, ManifestPath(projectPath, basePath.value));
      manifest := Some(r);
    }

    /** getPom: read at most once; the outcome, failed or not, is cached. */
    method GetPom(files: Files, projectPath: string) returns (r: Result<JsValue, Ui5Error>)
      modifies this
      ensures r == old(EffectivePom(files, projectPath))
      ensures pom == Some(r) && manifest == old(manifest)
    {
      if pom.Some? {
        return pom.value;
      }
      r := ReadParsed(files, PomPath(projectPath));
      pom := Some(r);
    }

    /**
     * resolveMavenPlaceholder: the pom is read only for a placeholder, and the dotted key is
     * walked with a loop over its parts.
     */
    method ResolveMavenPlaceholder(value: string, files: Files, projectPath: string)
      returns (r: Result<JsValue, Ui5Error>)
      modifies this
      ensures r == MavenResolution(value, old(EffectivePom(files, projectPath)))
      ensures pom == if HasMavenPlaceholder(value) then Some(old(EffectivePom(files, projectPath))) else old(pom)
      ensures manifest == old(manifest)
    {
      var key := PlaceholderKey(value);
      if key.None? {
        return Failure(NoPlaceholder(value));
      }
      var tree := GetPom(files, projectPath);
      if tree.Failure? {
        return Failure(tree.error);
      }
      var root := tree.value;
      if IsNullish(root) {
        return Failure(TypeError);
      }
      var found := ProjectProperty(root, key.value);
      if !Truthy(found) {
        var parts := Split(key.value, '.');
        var obj := root;
        for i := 0 to |parts|
          invariant obj == Walk(root, parts[..i])
        {
          assert parts[..i + 1][..i] == parts[..i];
          obj := And(obj, Get(obj, parts[i]));
        }
        assert parts[..|parts|] == parts;
        found := obj;
      }
      if !Truthy(found) {
        return Failure(Unresolved(value, key.value));
      }
      return Success(found);
    }
  }
}

/**
 * The formatter of UI5 library projects: it validates a project's configuration, fills in
 * the default source and test directories, maps them to "/resources/" and "/test-resources/",
 * and derives the library's namespace and copyright from manifest.json, the ".library" file
 * and, for Maven placeholders, pom.xml.
 *
 * The file system is injected: the parsed files by path, the ".library" files the glob finds
 * below each directory, and the directories that exist.
 */
module LibraryFormatter {
  import opened Wrappers
  import opened Strings
  import opened Ui5Formatter

  // ---------------------------------------------------------------------------
  // The project

  /** A string setting that is set and not empty; an absent or null setting is None. */
  predicate Present(s: Option<string>)
  {
    s.Some? && s.value != ""
  }

  datatype Metadata = Metadata(name: Option<string>, namespace: Option<string>, copyright: JsValue)

  datatype Paths = Paths(src: Option<string>, test: Option<string>)

  datatype Configuration = Configuration(paths: Option<Paths>)

  datatype Resources = Resources(configuration: Option<Configuration>, pathMappings: Option<map<string, string>>)

  /** The project object the formatter works on; validate and format update it in place. */
  class Project {
    const id: string
    const path: string
    const projectType: Option<string>
    const version: JsValue
    var metadata: Option<Metadata>
    var resources: Option<Resources>

    constructor (id: string, path: string, projectType: Option<string>, version: JsValue,
                 metadata: Option<Metadata>, resources: Option<Resources>)
      ensures this.id == id && this.path == path && this.projectType == projectType
      ensures this.version == version && this.metadata == metadata && this.resources == resources
    {
      this.id := id;
      this.path := path;
      this.projectType := projectType;
      this.version := version;
      this.metadata := metadata;
      this.resources := resources;
    }
  }

  datatype Workspace = Workspace(
    files: Files,
    dotLibraryGlobs: map<string, seq<string>>,
    directories: set<string>)

  /** What `glob("**\/.library", {cwd: directory})` finds, relative to the directory. */
  function FoundDotLibraries(ws: Workspace, directory: string): seq<string>
  {
    if directory in ws.dotLibraryGlobs then ws.dotLibraryGlobs[directory] else []
  }

  // ---------------------------------------------------------------------------
  // Validation

  predicate Named(metadata: Option<Metadata>)
  {
    metadata.Some? && Present(metadata.value.name)
  }

  /**
   * The first check a defined project fails: its name, then its type, then its version.
   * Only an undefined version is missing; null or any other value passes.
   */
  function ValidationError(metadata: Option<Metadata>, projectType: Option<string>, version: JsValue)
    : (r: Option<Ui5Error>)
    ensures r.None? <==> Named(metadata) && Present(projectType) && version != Undefined
    ensures r == Some(NameMissing) <==> !Named(metadata)
    ensures r == Some(TypeMissing) <==> Named(metadata) && !Present(projectType)
    ensures r == Some(VersionMissing) <==> Named(metadata) && Present(projectType) && version == Undefined
  {
    if !Named(metadata) then Some(NameMissing)
    else if !Present(projectType) then Some(TypeMissing)
    else if version == Undefined then Some(VersionMissing)
    else None
  }

  /** The configured paths, each None where the configuration leaves it out. */
  function ConfiguredPaths(resources: Option<Resources>): Paths
  {
    if resources.Some? && resources.value.configuration.Some?
       && resources.value.configuration.value.paths.Some?
    then resources.value.configuration.value.paths.value
    else Paths(None, None)
  }

  /** The resources with every missing level filled in and "src" and "test" as default paths. */
  function WithDefaults(resources: Option<Resources>): (r: Resources)
    ensures r.configuration.Some? && r.configuration.value.paths.Some?
    ensures var before, after := ConfiguredPaths(resources), ConfiguredPaths(Some(r));
            && after == r.configuration.value.paths.value
            && Present(after.src) && Present(after.test)
            && (Present(before.src) ==> after.src == before.src)
            && (Present(before.test) ==> after.test == before.test)
            && (!Present(before.src) ==> after.src == Some("src"))
            && (!Present(before.test) ==> after.test == Some("test"))
    ensures resources.Some? ==> r.pathMappings == resources.value.pathMappings
  {
    var res := if resources.Some? then resources.value else Resources(None, None);
    var configuration := if res.configuration.Some? then res.configuration.value else Configuration(None);
    var paths := if configuration.paths.Some? then configuration.paths.value else Paths(None, None);
    var src := if Present(paths.src) then paths.src else Some("src");
    var test := if Present(paths.test) then paths.test else Some("test");
    res.(configuration := Some(configuration.(paths := Some(Paths(src, test)))))
  }

  /** Filling in defaults twice is filling them in once. */
  lemma DefaultsIdempotent(resources: Option<Resources>)
    ensures WithDefaults(Some(WithDefaults(resources))) == WithDefaults(resources)
  {
  }

  /** The defaulted resources after the directory checks: a missing test directory is nulled. */
  function Validated(resources: Option<Resources>, projectPath: string, directories: set<string>): (r: Resources)
    ensures var paths, defaulted := ConfiguredPaths(Some(r)), ConfiguredPaths(Some(WithDefaults(resources)));
            && r.configuration.Some? && r.configuration.value.paths.Some?
            && paths.src == defaulted.src
            && paths.test == if PathJoin(projectPath, defaulted.test.value) in directories then defaulted.test else None
    ensures resources.Some? ==> r.pathMappings == resources.value.pathMappings
  {
    var defaulted := WithDefaults(resources);
    var paths := defaulted.configuration.value.paths.value;
    if PathJoin(projectPath, paths.test.value) in directories then defaulted
    else defaulted.(configuration := Some(Configuration(Some(paths.(test := None)))))
  }

  /** The source directory validate requires, below the project path. */
  function SourceDirectory(resources: Option<Resources>, projectPath: string): string
  {
    PathJoin(projectPath, ConfiguredPaths(Some(WithDefaults(resources))).src.value)
  }

  /** format's path mappings: the sources always, the tests only when a test path is set. */
  function PathMappings(paths: Paths): (r: map<string, string>)
    requires Present(paths.src)
    ensures "/resources/" in r && r["/resources/"] == paths.src.value
    ensures "/test-resources/" in r <==> Present(paths.test)
    ensures Present(paths.test) ==> r["/test-resources/"] == paths.test.value
    ensures forall key :: key in r ==> key == "/resources/" || key == "/test-resources/"
  {
    var sources := map["/resources/" := paths.src.value];
    if Present(paths.test) then sources["/test-resources/" := paths.test.value] else sources
  }

  // ---------------------------------------------------------------------------
  // The .library file, the namespace and the copyright

  /** Reading the one ".library" file below `directory`; none or several is an error. */
  function DotLibraryRead(ws: Workspace, directory: string): (r: Result<JsValue, Ui5Error>)
    ensures var found := FoundDotLibraries(ws, directory);
            && (|found| == 0 ==> r == Failure(NoDotLibrary))
            && (|found| > 1 ==> r == Failure(MultipleDotLibraries(|found|)))
            && (|found| == 1 ==> r == ReadParsed(ws.files, PathJoin(directory, found[0])))
  {
    var found := FoundDotLibraries(ws, directory);
    if |found| == 0 then Failure(NoDotLibrary)
    else if |found| > 1 then Failure(MultipleDotLibraries(|found|))
    else ReadParsed(ws.files, PathJoin(directory, found[0]))
  }

  /** A ".library" file is only ever parsed when the glob found exactly one. */
  lemma DotLibraryNeedsExactlyOne(ws: Workspace, directory: string)
    ensures DotLibraryRead(ws, directory).Success? ==> |FoundDotLibraries(ws, directory)| == 1
  {
  }

  /** What getDotLibrary gives: the cached outcome, or a read below the source base path. */
  function DotLibraryOf(cache: Option<Result<JsValue, Ui5Error>>, ws: Workspace, projectPath: string,
                        basePath: Result<string, Ui5Error>): (r: Result<JsValue, Ui5Error>)
    ensures cache.Some? ==> r == cache.value
    ensures cache.None? && basePath.Failure? ==> r == Failure(basePath.error)
    ensures cache.None? && basePath.Success? ==> r == DotLibraryRead(ws, PathJoin(projectPath, basePath.value))
  {
    if cache.Some? then cache.value
    else if basePath.Failure? then Failure(basePath.error)
    else DotLibraryRead(ws, PathJoin(projectPath, basePath.value))
  }

  /** `manifest["sap.app"].id` when it is truthy, undefined otherwise or when the read failed. */
  function ManifestId(manifest: Result<JsValue, Ui5Error>): (r: JsValue)
    ensures Truthy(r) || r == Undefined
    ensures Truthy(r) <==> manifest.Success? && Truthy(Get(Get(manifest.value, "sap.app"), "id"))
    ensures Truthy(r) ==> r == Get(Get(manifest.value, "sap.app"), "id")
  {
    if manifest.Failure? || IsNullish(manifest.value) then Undefined
    else
      var app := Get(manifest.value, "sap.app");
      if Truthy(app) && Truthy(Get(app, "id")) then Get(app, "id") else Undefined
  }

  /** `dotLibrary.library[field]` when it is truthy, undefined otherwise or when the read failed. */
  function DotLibraryField(dotLibrary: Result<JsValue, Ui5Error>, field: string): (r: JsValue)
    ensures Truthy(r) || r == Undefined
    ensures Truthy(r) <==> dotLibrary.Success? && Truthy(Get(Get(dotLibrary.value, "library"), field))
    ensures Truthy(r) ==> r == Get(Get(dotLibrary.value, "library"), field)
  {
    if dotLibrary.Failure? then Undefined
    else
      var library := Get(dotLibrary.value, "library");
      if Truthy(dotLibrary.value) && Truthy(library) && Truthy(Get(library, field))
      then Get(library, field) else Undefined
  }

  /** The application id getNamespace starts from: the manifest's, else the ".library" name. */
  function AppId(manifest: Result<JsValue, Ui5Error>, dotLibrary: Result<JsValue, Ui5Error>): (r: JsValue)
    ensures Truthy(r) || r == Undefined
    ensures Truthy(ManifestId(manifest)) ==> r == ManifestId(manifest)
    ensures !Truthy(ManifestId(manifest)) ==> r == DotLibraryField(dotLibrary, "name")
  {
    var id := ManifestId(manifest);
    if Truthy(id) then id else DotLibraryField(dotLibrary, "name")
  }

  /** An id as a namespace: every "." becomes "/". */
  function NamespaceOfId(id: string): (r: string)
    ensures |r| == |id| && '.' !in r
  {
    var r := ReplaceAll(id, '.', '/');
    assert forall k :: 0 <= k < |r| ==> r[k] != '.';
    r
  }

  /**
   * getNamespace, given what reading the manifest, the ".library" file and the pom gives.
   * Read failures yield no namespace; an id that is not a string fails where it is used as one.
   */
  function NamespaceOf(manifest: Result<JsValue, Ui5Error>, dotLibrary: Result<JsValue, Ui5Error>,
                       pom: Result<JsValue, Ui5Error>): (r: Result<Option<string>, Ui5Error>)
    ensures r.Failure? ==> r.error == TypeError
    ensures r.Success? && r.value.Some? ==> r.value.value != "" && '.' !in r.value.value
    ensures !Truthy(AppId(manifest, dotLibrary)) ==> r == Success(None)
  {
    var appId := AppId(manifest, dotLibrary);
    if !Truthy(appId) then Success(None)
    else if !appId.Str? then Failure(TypeError)
    else if !HasMavenPlaceholder(appId.s) then Success(Some(NamespaceOfId(appId.s)))
    else match MavenResolution(appId.s, pom)
      case Failure(_) => Success(None)
      case Success(resolved) =>
        if resolved.Str? then Success(Some(NamespaceOfId(resolved.s))) else Failure(TypeError)
  }

  /** A manifest that names an id decides alone: the ".library" file is not consulted. */
  lemma ManifestIdPreferred(manifest: Result<JsValue, Ui5Error>, dotLibrary: Result<JsValue, Ui5Error>,
                            dotLibrary': Result<JsValue, Ui5Error>, pom: Result<JsValue, Ui5Error>)
    requires Truthy(ManifestId(manifest))
    ensures NamespaceOf(manifest, dotLibrary, pom) == NamespaceOf(manifest, dotLibrary', pom)
  {
  }

  /** Failing reads of both sources give no namespace rather than an error. */
  lemma ReadFailuresSwallowed(e: Ui5Error, e': Ui5Error, pom: Result<JsValue, Ui5Error>)
    ensures NamespaceOf(Failure(e), Failure(e'), pom) == Success(None)
  {
  }

  /**
   * A plain id becomes its namespace, and turning its slashes back into dots gives the id
   * again when it had no slash.
   */
  lemma NamespaceOfPlainId(manifest: Result<JsValue, Ui5Error>, dotLibrary: Result<JsValue, Ui5Error>,
                           pom: Result<JsValue, Ui5Error>, id: string)
    requires AppId(manifest, dotLibrary) == Str(id) && id != "" && !HasMavenPlaceholder(id)
    ensures NamespaceOf(manifest, dotLibrary, pom) == Success(Some(NamespaceOfId(id)))
    ensures '/' !in id ==> ReplaceAll(NamespaceOfId(id), '/', '.') == id
  {
    if '/' !in id {
      ReplaceAllUndone(id, '.', '/');
    }
  }

  /** A placeholder that cannot be resolved gives no namespace rather than an error. */
  lemma UnresolvedPlaceholderGivesNone(manifest: Result<JsValue, Ui5Error>, dotLibrary: Result<JsValue, Ui5Error>,
                                       pom: Result<JsValue, Ui5Error>, id: string)
    requires AppId(manifest, dotLibrary) == Str(id) && HasMavenPlaceholder(id)
    requires MavenResolution(id, pom).Failure?
    ensures NamespaceOf(manifest, dotLibrary, pom) == Success(None)
  {
  }

  /** A manifest document `{"sap.app": {"id": id}}`. */
  function ManifestDocument(id: string): JsValue
  {
    Obj(map["sap.app" := Obj(map["id" := Str(id)])])
  }

  /** A ".library" document with the given `library` fields. */
  function DotLibraryDocument(fields: map<string, JsValue>): JsValue
  {
    Obj(map["library" := Obj(fields)])
  }

  /** A manifest whose sap.app.id is a plain id gives the namespace of that id. */
  lemma NamespaceFromManifest(id: string, dotLibrary: Result<JsValue, Ui5Error>, pom: Result<JsValue, Ui5Error>)
    requires id != "" && !HasMavenPlaceholder(id)
    ensures NamespaceOf(Success(ManifestDocument(id)), dotLibrary, pom) == Success(Some(NamespaceOfId(id)))
  {
    var manifest := ManifestDocument(id);
    assert Get(Get(manifest, "sap.app"), "id") == Str(id);
    NamespaceOfPlainId(Success(manifest), dotLibrary, pom, id);
  }

  /**
   * Without an id in the manifest, the ".library" file's library.name gives the namespace,
   * whether the manifest could not be read or lacks the id.
   */
  lemma NamespaceFromDotLibrary(manifest: Result<JsValue, Ui5Error>, id: string, pom: Result<JsValue, Ui5Error>)
    requires !Truthy(ManifestId(manifest))
    requires id != "" && !HasMavenPlaceholder(id)
    ensures NamespaceOf(manifest, Success(DotLibraryDocument(map["name" := Str(id)])), pom)
            == Success(Some(NamespaceOfId(id)))
  {
    var dotLibrary := DotLibraryDocument(map["name" := Str(id)]);
    assert Get(Get(dotLibrary, "library"), "name") == Str(id);
    NamespaceOfPlainId(manifest, Success(dotLibrary), pom, id);
  }

  /** An id that is a placeholder gives the namespace of the string it resolves to. */
  lemma NamespaceFromResolvedPlaceholder(manifest: Result<JsValue, Ui5Error>, dotLibrary: Result<JsValue, Ui5Error>,
                                         pom: Result<JsValue, Ui5Error>, id: string, resolved: string)
    requires AppId(manifest, dotLibrary) == Str(id) && HasMavenPlaceholder(id)
    requires MavenResolution(id, pom) == Success(Str(resolved))
    ensures NamespaceOf(manifest, dotLibrary, pom) == Success(Some(NamespaceOfId(resolved)))
  {
  }

  /**
   * A manifest id "${key}" whose dotted key leads to a string in the pom gives the namespace
   * of that string: "${project.artifactId}" with artifact id "sap.x" gives "sap/x". The
   * placeholder is resolved before the dots become slashes.
   */
  lemma NamespaceFromPomValue(dotLibrary: Result<JsValue, Ui5Error>, key: string, value: string)
    requires !HasLineTerminator(key) && value != ""
    requires var parts := Split(key, '.');
             parts[0] != "project" || (|parts| >= 2 && parts[1] != "properties")
    ensures var pom := Nested(Split(key, '.'), Str(value));
            NamespaceOf(Success(ManifestDocument("${" + key + "}")), dotLibrary, Success(pom))
            == Success(Some(NamespaceOfId(value)))
  {
    var id := "${" + key + "}";
    var manifest := ManifestDocument(id);
    var pom := Nested(Split(key, '.'), Str(value));
    assert Get(Get(manifest, "sap.app"), "id") == Str(id);
    PlaceholderKeyOf(id, key);
    ResolvesNestedValue(key, Str(value));
    NamespaceFromResolvedPlaceholder(Success(manifest), dotLibrary, Success(pom), id, value);
  }

  /** getCopyright, given the project's metadata and what reading the ".library" file gives. */
  function CopyrightOf(metadata: Option<Metadata>, dotLibrary: Result<JsValue, Ui5Error>): (r: Result<JsValue, Ui5Error>)
    ensures r.Success? ==> Truthy(r.value) || r.value == Undefined
    ensures r.Failure? ==> metadata.None? || (!Truthy(metadata.value.copyright) && dotLibrary == Failure(r.error))
    ensures metadata.Some? && !Truthy(metadata.value.copyright) ==>
              r == if dotLibrary.Failure? then Failure(dotLibrary.error)
                   else Success(DotLibraryField(dotLibrary, "copyright"))
  {
    if metadata.None? then Failure(TypeError)
    else if Truthy(metadata.value.copyright) then Success(metadata.value.copyright)
    else if dotLibrary.Failure? then Failure(dotLibrary.error)
    else Success(DotLibraryField(dotLibrary, "copyright"))
  }

  /** A configured copyright wins, and the ".library" file is not even read for it. */
  lemma ConfiguredCopyrightWins(metadata: Metadata, dotLibrary: Result<JsValue, Ui5Error>,
                                dotLibrary': Result<JsValue, Ui5Error>)
    requires Truthy(metadata.copyright)
    ensures CopyrightOf(Some(metadata), dotLibrary) == CopyrightOf(Some(metadata), dotLibrary')
                                                 == Success(metadata.copyright)
  {
  }

  /** Without a configured copyright, the ".library" file's library.copyright is the copyright. */
  lemma CopyrightFromDotLibrary(metadata: Metadata, copyright: JsValue)
    requires !Truthy(metadata.copyright) && Truthy(copyright)
    ensures CopyrightOf(Some(metadata), Success(DotLibraryDocument(map["copyright" := copyright])))
            == Success(copyright)
  {
    var dotLibrary := DotLibraryDocument(map["copyright" := copyright]);
    assert Get(Get(dotLibrary, "library"), "copyright") == copyright;
  }

  // ---------------------------------------------------------------------------
  // The formatter

  /** `path.join` refuses an undefined argument. */
  function PathArgument(value: Result<Option<string>, Ui5Error>): (r: Result<string, Ui5Error>)
    ensures r.Success? <==> value.Success? && value.value.Some?
    ensures r.Success? ==> r.value == value.value.value
  {
    match value
    case Failure(e) => Failure(e)
    case Success(None) => Failure(TypeError)
    case Success(Some(path)) => Success(path)
  }

  class LibraryFormatter {
    const project: Project?
    const base: Ui5Formatter
    var dotLibrary: Option<Result<JsValue, Ui5Error>>

    constructor (project: Project?)
      ensures this.project == project && fresh(base)
      ensures dotLibrary.None? && base.manifest.None? && base.pom.None?
    {
      var created := Ui5Formatter.New(LibraryFormatterClass);
      this.project := project;
      this.base := created.value;
      this.dotLibrary := None;
    }

    /** getSourceBasePath: the directory mapped to "/resources/", undefined when there is none. */
    function SourceBasePath(): (r: Result<Option<string>, Ui5Error>)
      reads this, project
      ensures r.Failure? <==> project == null || project.resources.None? || project.resources.value.pathMappings.None?
      ensures r.Success? ==> var mappings := project.resources.value.pathMappings.value;
                             r.value == if "/resources/" in mappings then Some(mappings["/resources/"]) else None
    {
      if project == null || project.resources.None? || project.resources.value.pathMappings.None?
      then Failure(TypeError)
      else
        var mappings := project.resources.value.pathMappings.value;
        Success(if "/resources/" in mappings then Some(mappings["/resources/"]) else None)
    }

    function ProjectPath(): string
      reads this
    {
      if project == null then "" else project.path
    }

    function BasePath(): Result<string, Ui5Error>
      reads this, project
    {
      PathArgument(SourceBasePath())
    }

    function EffectiveManifest(ws: Workspace): Result<JsValue, Ui5Error>
      reads this, base, project
    {
      ManifestOf(base.manifest, ws.files, ProjectPath(), BasePath())
    }

    function EffectiveDotLibrary(ws: Workspace): Result<JsValue, Ui5Error>
      reads this, project
    {
      DotLibraryOf(dotLibrary, ws, ProjectPath(), BasePath())
    }

    function EffectivePom(ws: Workspace): Result<JsValue, Ui5Error>
      reads this, base
    {
      PomOf(base.pom, ws.files, ProjectPath())
    }

    /** getManifest, with this formatter's source base path. */
    method GetManifest(ws: Workspace) returns (r: Result<JsValue, Ui5Error>)
      modifies base
      ensures r == old(EffectiveManifest(ws)) && EffectiveManifest(ws) == r
      ensures base.manifest == if old(base.manifest).None? && BasePath().Success? then Some(r) else old(base.manifest)
      ensures base.pom == old(base.pom)
    {
      r := base.GetManifest(ws.files, ProjectPath(), BasePath());
    }

    /** getDotLibrary: read at most once, unless the source base path cannot be had. */
    method GetDotLibrary(ws: Workspace) returns (r: Result<JsValue, Ui5Error>)
      modifies this
      ensures r == old(EffectiveDotLibrary(ws)) && EffectiveDotLibrary(ws) == r
      ensures dotLibrary == if old(dotLibrary).None? && BasePath().Success? then Some(r) else old(dotLibrary)
    {
      if dotLibrary.Some? {
        return dotLibrary.value;
      }
      var basePath := BasePath();
      if basePath.Failure? {
        return Failure(basePath.error);
      }
      r := DotLibraryRead(ws, PathJoin(ProjectPath(), basePath.value));
      dotLibrary := Some(r);
    }

    /**
     * getNamespace: the ".library" file is read only when the manifest gives no id, and the
     * pom only for a placeholder. Every read keeps what a later read gives.
     */
    method GetNamespace(ws: Workspace) returns (r: Result<Option<string>, Ui5Error>)
      requires project != null && project.metadata.Some?
      modifies this, base
      ensures r == old(NamespaceOf(EffectiveManifest(ws), EffectiveDotLibrary(ws), EffectivePom(ws)))
      ensures EffectiveManifest(ws) == old(EffectiveManifest(ws))
      ensures EffectiveDotLibrary(ws) == old(EffectiveDotLibrary(ws))
      ensures EffectivePom(ws) == old(EffectivePom(ws))
    {
      var appId := Undefined;
      var manifest := GetManifest(ws);
      appId := ManifestId(manifest);
      if !Truthy(appId) {
        var library := GetDotLibrary(ws);
        appId := DotLibraryField(library, "name");
      }
      if !Truthy(appId) {
        return Success(None);
      }
      if !appId.Str? {
        return Failure(TypeError);
      }
      var id := appId.s;
      if HasMavenPlaceholder(id) {
        var resolved := base.ResolveMavenPlaceholder(id, ws.files, ProjectPath());
        if resolved.Failure? {
          return Success(None);
        }
        if !resolved.value.Str? {
          return Failure(TypeError);
        }
        id := resolved.value.s;
      }
      return Success(Some(NamespaceOfId(id)));
    }

    /** getCopyright: the ".library" file is read only when no copyright is configured. */
    method GetCopyright(ws: Workspace) returns (r: Result<JsValue, Ui5Error>)
      modifies this
      ensures r == old(CopyrightOf(if project == null then None else project.metadata, EffectiveDotLibrary(ws)))
      ensures EffectiveDotLibrary(ws) == old(EffectiveDotLibrary(ws))
    {
      if project == null || project.metadata.None? {
        return Failure(TypeError);
      }
      var configured := project.metadata.value.copyright;
      if Truthy(configured) {
        return Success(configured);
      }
      var library := GetDotLibrary(ws);
      if library.Failure? {
        return Failure(library.error);
      }
      return Success(DotLibraryField(library, "copyright"));
    }

    /**
     * validate: the project's settings are checked in order, then the missing configuration
     * levels and paths are filled in place, then the directories are checked; a missing test
     * directory is recorded as a null test path even when the source directory is missing.
     */
    method Validate(ws: Workspace) returns (r: Outcome<Ui5Error>)
      modifies project
      ensures project == null ==> r == Fail(ProjectUndefined)
      ensures project != null ==> project.metadata == old(project.metadata)
      ensures project != null && ValidationError(project.metadata, project.projectType, project.version).Some? ==>
                && r == Fail(ValidationError(project.metadata, project.projectType, project.version).value)
                && project.resources == old(project.resources)
      ensures project != null && ValidationError(project.metadata, project.projectType, project.version).None? ==>
                var source := SourceDirectory(old(project.resources), project.path);
                && project.resources == Some(Validated(old(project.resources), project.path, ws.directories))
                && r == if source in ws.directories then Pass else Fail(NoSourceDirectory(source))
    {
      if project == null {
        return Fail(ProjectUndefined);
      }
      var failure := ValidationError(project.metadata, project.projectType, project.version);
      if failure.Some? {
        return Fail(failure.value);
      }
      ghost var before := project.resources;
      if project.resources.None? {
        project.resources := Some(Resources(None, None));
      }
      var resources := project.resources.value;
      if resources.configuration.None? {
        resources := resources.(configuration := Some(Configuration(None)));
      }
      var configuration := resources.configuration.value;
      if configuration.paths.None? {
        configuration := configuration.(paths := Some(Paths(None, None)));
      }
      var paths := configuration.paths.value;
      if !Present(paths.src) {
        paths := paths.(src := Some("src"));
      }
      if !Present(paths.test) {
        paths := paths.(test := Some("test"));
      }
      project.resources := Some(resources.(configuration := Some(configuration.(paths := Some(paths)))));
      assert project.resources == Some(WithDefaults(before));
      var source := PathJoin(project.path, paths.src.value);
      var test := PathJoin(project.path, paths.test.value);
      if test !in ws.directories {
        paths := paths.(test := None);
        project.resources := Some(resources.(configuration := Some(configuration.(paths := Some(paths)))));
      }
      if source !in ws.directories {
        return Fail(NoSourceDirectory(source));
      }
      return Pass;
    }

    /**
     * format: validate, map "/resources/" (and "/test-resources/" when there is a test path),
     * then set the namespace and the copyright, each step stopping at the first failure.
     */
    method Format(ws: Workspace) returns (r: Outcome<Ui5Error>)
      modifies this, base, project
      ensures project == null ==> r == Fail(ProjectUndefined)
      ensures project != null && ValidationError(old(project.metadata), project.projectType, project.version).Some? ==>
                && r == Fail(ValidationError(old(project.metadata), project.projectType, project.version).value)
                && project.resources == old(project.resources)
                && project.metadata == old(project.metadata)
      ensures project != null && ValidationError(old(project.metadata), project.projectType, project.version).None?
              && SourceDirectory(old(project.resources), project.path) !in ws.directories ==>
                && r == Fail(NoSourceDirectory(SourceDirectory(old(project.resources), project.path)))
                && project.resources == Some(Validated(old(project.resources), project.path, ws.directories))
                && project.metadata == old(project.metadata)
      ensures project != null && ValidationError(old(project.metadata), project.projectType, project.version).None?
              && SourceDirectory(old(project.resources), project.path) in ws.directories ==>
                var validated := Validated(old(project.resources), project.path, ws.directories);
                var paths := ConfiguredPaths(Some(validated));
                var source := paths.src.value;
                var dotLibrary := DotLibraryOf(old(dotLibrary), ws, project.path, Success(source));
                var namespace := NamespaceOf(ManifestOf(old(base.manifest), ws.files, project.path, Success(source)),
                                             dotLibrary, PomOf(old(base.pom), ws.files, project.path));
                var copyright := CopyrightOf(old(project.metadata), dotLibrary);
                var metadata := old(project.metadata).value;
                && project.resources == Some(validated.(pathMappings := Some(PathMappings(paths))))
                && (namespace.Failure? ==> r == Fail(namespace.error) && project.metadata == old(project.metadata))
                && (namespace.Success? && copyright.Failure? ==>
                      r == Fail(copyright.error) && project.metadata == Some(metadata.(namespace := namespace.value)))
                && (namespace.Success? && copyright.Success? ==>
                      && r == Pass
                      && project.metadata == Some(metadata.(namespace := namespace.value, copyright := copyright.value)))
    {
      r := Validate(ws);
      if r.Fail? {
        return;
      }
      var resources := project.resources.value;
      var paths := resources.configuration.value.paths.value;
      project.resources := Some(resources.(pathMappings := Some(PathMappings(paths))));
      var namespace := GetNamespace(ws);
      if namespace.Failure? {
        return Fail(namespace.error);
      }
      project.metadata := Some(project.metadata.value.(namespace := namespace.value));
      var copyright := GetCopyright(ws);
      if copyright.Failure? {
        return Fail(copyright.error);
      }
      project.metadata := Some(project.metadata.value.(copyright := copyright.value));
    }
  }
}

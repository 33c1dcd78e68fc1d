/**
 * The library preload task: the bundle definitions it hands to the module bundler, the four
 * bootstrap bundles it requests for the "sap.ui.core" project, and how it finds the
 * namespaces of the libraries to preload from their indicator files.
 *
 * Reading the workspace, running the bundler and writing its output are left to the caller:
 * the resources and indicator paths the workspace globs would return are parameters, and the
 * task's result is the list of bundler requests it makes, in order.
 */
module GenerateLibraryPreload {
  import opened Wrappers
  import opened Strings
  import opened ResourceFilters

  // ---------------------------------------------------------------------------
  // Bundle definitions

  datatype SectionMode = Raw | Preload | Require | Provided

  /** A section of a bundle definition; a flag the definition leaves out is None. */
  datatype Section = Section(
    mode: SectionMode,
    filters: seq<string>,
    resolve: Option<bool>,
    resolveConditional: Option<bool>,
    renderer: Option<bool>,
    sort: Option<bool>,
    declareModules: Option<bool>)

  datatype BundleDefinition = BundleDefinition(
    name: string,
    defaultFileTypes: Option<seq<string>>,
    sections: seq<Section>)

  const CoreNamespace := "sap/ui/core"

  const DefaultFileTypes := [".js", ".fragment.xml", ".view.xml", ".properties", ".json"]

  /** The filters every library preload starts with; the core library also leaves out its CLDR data. */
  function LibraryFilters(namespace: string, withCldr: bool): (r: seq<string>)
    ensures |r| == if withCldr then 5 else 4
  {
    [namespace + "/", "!" + namespace + "/.library", "!" + namespace + "/themes/"]
    + (if withCldr then ["!" + namespace + "/cldr/"] else [])
    + ["!" + namespace + "/messagebundle*"]
  }

  /** Modules outside its own namespace that the core library preload also carries. */
  const SharedCoreFilters := [
    "*.js",
    "sap/base/",
    "sap/ui/base/",
    "sap/ui/xml/",
    "sap/ui/dom/",
    "sap/ui/events/",
    "sap/ui/model/",
    "sap/ui/security/",
    "sap/ui/util/",
    "sap/ui/Global.js"
  ]

  /** Files that are already part of the bootstrap bundle. */
  const BootstrapOnlyFiles := [
    "sap/ui/thirdparty/baseuri.js",
    "sap/ui/thirdparty/es6-promise.js",
    "sap/ui/thirdparty/es6-string-methods.js",
    "sap/ui/thirdparty/mdn-object-assign.js",
    "jquery.sap.global.js",
    "ui5loader-autoconfig.js",
    "ui5loader.js",
    "ui5loader-amd.js",
    "sap-ui-*.js"
  ]

  /** Each pattern negated. */
  function Excluding(patterns: seq<string>): (r: seq<string>)
    ensures |r| == |patterns|
    ensures forall k :: 0 <= k < |patterns| ==> r[k] == "!" + patterns[k] && IsExclusion(r[k])
  {
    seq(|patterns|, k requires 0 <= k < |patterns| => "!" + patterns[k])
  }

  const BootstrapOnlyExclusions := Excluding(BootstrapOnlyFiles)

  function PreloadFilters(namespace: string): seq<string>
  {
    if namespace == CoreNamespace then
      LibraryFilters(namespace, true) + SharedCoreFilters + BootstrapOnlyExclusions
    else LibraryFilters(namespace, false)
  }

  /** getBundleDefinition: the library-preload bundle of one library namespace. */
  function GetBundleDefinition(namespace: string): (r: BundleDefinition)
    ensures r.name == namespace + "/library-preload.js"
    ensures r.defaultFileTypes == Some(DefaultFileTypes)
    ensures |r.sections| == 1
    ensures var section := r.sections[0];
            && section.mode == Preload && section.filters == PreloadFilters(namespace)
            && section.resolve == Some(false) && section.resolveConditional == Some(false)
            && section.renderer == Some(true)
            && section.sort.None? && section.declareModules.None?
  {
    BundleDefinition(
      namespace + "/library-preload.js",
      Some(DefaultFileTypes),
      [Section(Preload, PreloadFilters(namespace), Some(false), Some(false), Some(true), None, None)])
  }

  /** A message bundle file directly inside the namespace. */
  predicate IsMessageBundle(namespace: string, path: string)
  {
    var prefix := namespace + "/messagebundle";
    StartsWith(path, prefix) && '/' !in path[|prefix|..]
  }

  /**
   * What the preload of a library other than the core selects, under the assumed filter
   * semantics: everything below its namespace except its ".library" file, its themes and its
   * message bundles.
   */
  lemma LibraryPreloadSelection(namespace: string, path: string)
    requires namespace != CoreNamespace && namespace != "" && namespace[0] != '!'
    requires '*' !in namespace
    ensures Selected(GetBundleDefinition(namespace).sections[0].filters, path)
            <==> && StartsWith(path, namespace + "/")
                 && path != namespace + "/.library"
                 && !StartsWith(path, namespace + "/themes/")
                 && !IsMessageBundle(namespace, path)
  {
    var filters := LibraryFilters(namespace, false);
    assert filters == [namespace + "/", "!" + namespace + "/.library", "!" + namespace + "/themes/",
                       "!" + namespace + "/messagebundle*"];
    NamespacePatterns(namespace, path);
    MessageBundlePattern(namespace, path);
    var vs := Verdicts(filters, path);
    DecideFour(vs);
  }

  /** The decision of a four-filter list, spelled out. */
  lemma DecideFour(vs: seq<Verdict>)
    requires |vs| == 4
    ensures Decide(vs) == if vs[3].matched then !vs[3].exclusion
                          else if vs[2].matched then !vs[2].exclusion
                          else if vs[1].matched then !vs[1].exclusion
                          else vs[0].matched && !vs[0].exclusion
  {
    var three, two, one := vs[..3], vs[..2], vs[..1];
    assert three[..2] == two && two[..1] == one && one[..0] == [];
    assert Decide(vs) == if vs[3].matched then !vs[3].exclusion else Decide(three);
    assert Decide(three) == if vs[2].matched then !vs[2].exclusion else Decide(two);
    assert Decide(two) == if vs[1].matched then !vs[1].exclusion else Decide(one);
    assert Decide(one) == (vs[0].matched && !vs[0].exclusion);
  }

  /** How the three plain filters of a library preload match. */
  lemma NamespacePatterns(namespace: string, path: string)
    requires namespace != "" && namespace[0] != '!' && '*' !in namespace
    ensures !IsExclusion(namespace + "/") && Matches(namespace + "/", path) == StartsWith(path, namespace + "/")
    ensures IsExclusion("!" + namespace + "/.library")
    ensures Matches("!" + namespace + "/.library", path) == (path == namespace + "/.library")
    ensures IsExclusion("!" + namespace + "/themes/")
    ensures Matches("!" + namespace + "/themes/", path) == StartsWith(path, namespace + "/themes/")
  {
    var library, themes := namespace + "/.library", namespace + "/themes/";
    assert (namespace + "/")[0] == namespace[0];
    NotInConcat(namespace, "/", '*');
    NotInConcat(namespace, "/.library", '*');
    NotInConcat(namespace, "/themes/", '*');
    assert "!" + namespace + "/.library" == "!" + library && ("!" + library)[1..] == library;
    assert "!" + namespace + "/themes/" == "!" + themes && ("!" + themes)[1..] == themes;
    assert '*' !in "/.library" && '*' !in "/themes/" && '*' !in "/";
    assert library[|library| - 1] == 'y';
    assert themes[|themes| - 1..] == "/";
  }

  /** The message-bundle filter of a library preload. */
  lemma MessageBundlePattern(namespace: string, path: string)
    requires '*' !in namespace
    ensures IsExclusion("!" + namespace + "/messagebundle*")
    ensures Matches("!" + namespace + "/messagebundle*", path) == IsMessageBundle(namespace, path)
  {
    var prefix := namespace + "/messagebundle";
    var filter := "!" + namespace + "/messagebundle*";
    assert filter == "!" + (prefix + "*");
    assert Pattern(filter) == prefix + "*";
    NotInConcat(namespace, "/messagebundle", '*');
    TrailingStarMatches(prefix, path);
  }

  /** A pattern "prefix*" matches the paths below `prefix` that have no further "/". */
  lemma TrailingStarMatches(prefix: string, path: string)
    requires '*' !in prefix
    ensures PatternMatches(prefix + "*", path) <==> StartsWith(path, prefix) && '/' !in path[|prefix|..]
  {
    var pattern := prefix + "*";
    IndexOfAfterFree(prefix, "", '*');
    assert pattern == prefix + ['*'] + "";
    assert pattern[..|prefix|] == prefix && pattern[|prefix| + 1..] == "";
  }

  /** The first occurrence of `c` in `a + [c] + b` follows `a` when `a` holds none. */
  lemma IndexOfAfterFree(a: string, b: string, c: char)
    requires c !in a
    ensures c in a + [c] + b && IndexOf(a + [c] + b, c) == |a|
  {
    var s := a + [c] + b;
    assert s[|a|] == c;
  }

  /** A list that ends in exclusions leaves out every path one of them matches. */
  lemma TrailingExclusionsWin(front: seq<string>, back: seq<string>, path: string)
    requires forall k :: 0 <= k < |back| ==> IsExclusion(back[k])
    requires exists k :: 0 <= k < |back| && Matches(back[k], path)
    ensures !Selected(front + back, path)
  {
    SelectedAppend(front, back, path);
    ExclusionsNeverSelect(back, path);
  }

  /** The core library's preload leaves out every file that is already part of the bootstrap. */
  lemma CorePreloadLeavesOutBootstrapFiles(path: string)
    requires exists k :: 0 <= k < |BootstrapOnlyExclusions| && Matches(BootstrapOnlyExclusions[k], path)
    ensures !Selected(GetBundleDefinition(CoreNamespace).sections[0].filters, path)
  {
    TrailingExclusionsWin(LibraryFilters(CoreNamespace, true) + SharedCoreFilters, BootstrapOnlyExclusions, path);
  }

  /** The core library's filter list: its own namespace first, then shared modules, then exclusions. */
  lemma CorePreloadFilterList()
    ensures var filters := GetBundleDefinition(CoreNamespace).sections[0].filters;
            && |filters| == 24
            && filters[3] == "!sap/ui/core/cldr/"
            && filters[5..15] == SharedCoreFilters
            && filters[15..] == BootstrapOnlyExclusions
            && forall k :: 15 <= k < 24 ==> IsExclusion(filters[k])
  {
    var filters := LibraryFilters(CoreNamespace, true) + SharedCoreFilters + BootstrapOnlyExclusions;
    assert filters[5..15] == SharedCoreFilters;
    assert filters[15..] == BootstrapOnlyExclusions;
  }

  // ---------------------------------------------------------------------------
  // Bootstrap bundles

  function RawSection(filters: seq<string>): Section
  {
    Section(Raw, filters, Some(true), None, None, Some(true), Some(false))
  }

  const CoreModule := "sap/ui/core/Core.js"

  const CorePreloadSection := Section(Preload, [CoreModule], Some(true), None, None, None, None)

  const CoreRequireSection := Section(Require, [CoreModule], None, None, None, None, None)

  /** The modules that the "nojQuery" bootstrap variants expect to be loaded already. */
  const ProvidedSection := Section(Provided, [
      "jquery-ui-core.js",
      "jquery-ui-datepicker.js",
      "jquery-ui-position.js",
      "sap/ui/thirdparty/jquery.js",
      "sap/ui/thirdparty/jquery/*",
      "sap/ui/thirdparty/jqueryui/*"
    ], None, None, None, None, None)

  /**
   * The sections of a bootstrap bundle: the raw loader modules, the core preloaded when
   * asked for, and a final require of the core.
   */
  predicate IsBootstrapSections(sections: seq<Section>, filters: seq<string>, preload: bool)
  {
    && |sections| == (if preload then 3 else 2)
    && sections[0] == RawSection(filters)
    && (preload ==> sections[1] == CorePreloadSection)
    && sections[|sections| - 1] == CoreRequireSection
  }

  /** getSapUiCoreBunDef: the sections are pushed one by one. */
  method GetSapUiCoreBunDef(name: string, filters: seq<string>, preload: bool) returns (r: BundleDefinition)
    ensures r.name == name && r.defaultFileTypes.None?
    ensures IsBootstrapSections(r.sections, filters, preload)
  {
    var sections: seq<Section> := [];
    sections := sections + [RawSection(filters)];
    if preload {
      sections := sections + [CorePreloadSection];
    }
    sections := sections + [CoreRequireSection];
    r := BundleDefinition(name, None, sections);
  }

  function Modes(sections: seq<Section>): (r: seq<SectionMode>)
    ensures |r| == |sections| && forall k :: 0 <= k < |sections| ==> r[k] == sections[k].mode
  {
    seq(|sections|, k requires 0 <= k < |sections| => sections[k].mode)
  }

  /** The bootstrap sections are fixed by their arguments, in the order raw, preload, require. */
  lemma BootstrapSectionsDetermined(a: seq<Section>, b: seq<Section>, filters: seq<string>, preload: bool)
    requires IsBootstrapSections(a, filters, preload) && IsBootstrapSections(b, filters, preload)
    ensures a == b
    ensures Modes(a) == if preload then [Raw, Preload, Require] else [Raw, Require]
  {
    assert Modes(a)[0] == Raw;
    if preload {
      assert Modes(a)[1] == Preload;
    }
  }

  datatype BundleOptions = BundleOptions(
    optimize: bool,
    decorateBootstrapModule: bool,
    addTryCatchRestartWrapper: bool,
    usePredefineCalls: bool)

  datatype ModuleBundlerOptions = ModuleBundlerOptions(
    bundleOptions: BundleOptions,
    bundleDefinition: BundleDefinition)

  /** The configuration of one bootstrap bundle; an absent `provided` is false. */
  datatype BootstrapConfig = BootstrapConfig(name: string, filters: seq<string>, preload: bool, provided: bool)

  /**
   * The bundler options of a bootstrap bundle: every bundle option follows `preload`, and the
   * provided section, when asked for, comes before the bootstrap sections.
   */
  predicate IsBootstrapOptions(options: ModuleBundlerOptions, config: BootstrapConfig)
  {
    var p := config.preload;
    var definition := options.bundleDefinition;
    && options.bundleOptions == BundleOptions(p, p, p, p)
    && definition.name == config.name
    && definition.defaultFileTypes.None?
    && if config.provided then
         |definition.sections| >= 1 && definition.sections[0] == ProvidedSection
         && IsBootstrapSections(definition.sections[1..], config.filters, p)
       else IsBootstrapSections(definition.sections, config.filters, p)
  }

  /** getModuleBundlerOptions: the provided section is unshifted onto the bootstrap definition. */
  method GetModuleBundlerOptions(config: BootstrapConfig) returns (r: ModuleBundlerOptions)
    ensures IsBootstrapOptions(r, config)
  {
    var bundleOptions := BundleOptions(config.preload, config.preload, config.preload, config.preload);
    var definition := GetSapUiCoreBunDef(config.name, config.filters, config.preload);
    if config.provided {
      definition := definition.(sections := [ProvidedSection] + definition.sections);
    }
    r := ModuleBundlerOptions(bundleOptions, definition);
  }

  /** The section modes of a bootstrap bundle, with the provided section in front when asked for. */
  lemma BootstrapOptionModes(options: ModuleBundlerOptions, config: BootstrapConfig)
    requires IsBootstrapOptions(options, config)
    ensures Modes(options.bundleDefinition.sections)
            == (if config.provided then [Provided] else [])
               + (if config.preload then [Raw, Preload, Require] else [Raw, Require])
  {
    var sections := options.bundleDefinition.sections;
    var core := if config.provided then sections[1..] else sections;
    BootstrapSectionsDetermined(core, core, config.filters, config.preload);
    if config.provided {
      assert sections == [sections[0]] + core;
      assert Modes(sections) == [Provided] + Modes(core);
    }
  }

  const BootstrapBundleName := "sap-ui-core"

  /** The four bootstrap bundles, all built from the same raw filters. */
  function BootstrapConfigs(filters: seq<string>): seq<BootstrapConfig>
  {
    [
      BootstrapConfig("sap-ui-core.js", filters, true, false),
      BootstrapConfig("sap-ui-core-dbg.js", filters, false, false),
      BootstrapConfig("sap-ui-core-nojQuery.js", filters, true, true),
      BootstrapConfig("sap-ui-core-nojQuery-dbg.js", filters, false, true)
    ]
  }

  /**
   * The four bootstrap bundles differ pairwise in preload or provided, so they cover each
   * combination exactly once, and their names say which: "-nojQuery" marks provided, "-dbg" marks no preload.
   */
  lemma BootstrapVariants(filters: seq<string>)
    ensures var configs := BootstrapConfigs(filters);
            && |configs| == 4
            && (forall k :: 0 <= k < 4 ==>
                  && configs[k].filters == filters
                  && configs[k].name == BootstrapBundleName
                                        + (if configs[k].provided then "-nojQuery" else "")
                                        + (if configs[k].preload then "" else "-dbg") + ".js")
            && (forall j, k :: 0 <= j < k < 4 ==>
                  configs[j].preload != configs[k].preload || configs[j].provided != configs[k].provided)
  {
  }

  // ---------------------------------------------------------------------------
  // Resources of the build task

  /** A resource of the workspace or of a dependency, known by its path. */
  datatype Resource = Resource(path: string)

  const BootstrapBundlePath := "/resources/sap-ui-core.js"
  const EvoLoaderPath := "/resources/ui5loader.js"

  /** `resources.filter(r => r.getPath() !== path)`. */
  function WithoutPath(resources: seq<Resource>, path: string): (r: seq<Resource>)
    ensures |r| <= |resources|
    ensures forall x :: x in r <==> x in resources && x.path != path
  {
    if resources == [] then []
    else (if resources[0].path == path then [] else [resources[0]]) + WithoutPath(resources[1..], path)
  }

  /** The filter keeps the order of what it keeps: it works piece by piece. */
  lemma {:induction false} WithoutPathAppend(a: seq<Resource>, b: seq<Resource>, path: string)
    ensures WithoutPath(a + b, path) == WithoutPath(a, path) + WithoutPath(b, path)
    decreases |a|
  {
    if a != [] {
      var head := if a[0].path == path then [] else [a[0]];
      assert (a + b)[0] == a[0] && (a + b)[1..] == a[1..] + b;
      assert WithoutPath(a + b, path) == head + WithoutPath(a[1..] + b, path);
      WithoutPathAppend(a[1..], b, path);
      assert WithoutPath(a, path) == head + WithoutPath(a[1..], path);
    } else {
      assert a + b == b;
    }
  }

  /** Without the path in the list the filter changes nothing. */
  lemma {:induction false} WithoutPathOfAbsent(resources: seq<Resource>, path: string)
    requires forall k :: 0 <= k < |resources| ==> resources[k].path != path
    ensures WithoutPath(resources, path) == resources
    decreases |resources|
  {
    if resources != [] {
      WithoutPathOfAbsent(resources[1..], path);
    }
  }

  /** `resources.find(r => r.getPath() === "/resources/ui5loader.js")` found something. */
  function HasEvoLoader(resources: seq<Resource>): (r: bool)
    ensures r <==> exists k :: 0 <= k < |resources| && resources[k].path == EvoLoaderPath
  {
    if resources == [] then false
    else resources[0].path == EvoLoaderPath || HasEvoLoader(resources[1..])
  }

  /** The raw filters: the modern loader's configuration module when present, jQuery otherwise. */
  function RawFilters(resources: seq<Resource>): (r: seq<string>)
    ensures HasEvoLoader(resources) ==> r == ["ui5loader-autoconfig.js"]
    ensures !HasEvoLoader(resources) ==> r == ["jquery.sap.global.js"]
  {
    if HasEvoLoader(resources) then ["ui5loader-autoconfig.js"] else ["jquery.sap.global.js"]
  }

  /** Dropping the stale bootstrap bundle never changes the choice of loader. */
  lemma RawFiltersIgnoreBootstrapBundle(resources: seq<Resource>)
    ensures RawFilters(WithoutPath(resources, BootstrapBundlePath)) == RawFilters(resources)
  {
    var kept := WithoutPath(resources, BootstrapBundlePath);
    if HasEvoLoader(resources) {
      var k :| 0 <= k < |resources| && resources[k].path == EvoLoaderPath;
      assert resources[k] in kept;
      var j :| 0 <= j < |kept| && kept[j] == resources[k];
    }
    if HasEvoLoader(kept) {
      var j :| 0 <= j < |kept| && kept[j].path == EvoLoaderPath;
      assert kept[j] in resources;
    }
  }

  // ---------------------------------------------------------------------------
  // Library indicators

  const ResourcesPrefix := "/resources/"
  const DotLibraryTail := "/.library"
  const LibraryJsTail := "/library.js"

  /**
   * The namespace captured by `^\/resources\/(.*)\/(?:\.library|library\.js)$`, when it is
   * a non-empty string: the capture cannot hold a line terminator, and the anchored tail
   * leaves exactly one way to split the path.
   */
  function NamespaceCapture(path: string): (r: Option<string>)
    ensures r.Some? ==> r.value != "" && !HasLineTerminator(r.value)
    ensures r.Some? ==> path == ResourcesPrefix + r.value + DotLibraryTail
                        || path == ResourcesPrefix + r.value + LibraryJsTail
  {
    var tail :=
      if EndsWith(path, DotLibraryTail) then DotLibraryTail
      else if EndsWith(path, LibraryJsTail) then LibraryJsTail
      else "";
    if tail == "" || |path| < |ResourcesPrefix| + |tail| || !StartsWith(path, ResourcesPrefix) then None
    else
      var capture := path[|ResourcesPrefix|..|path| - |tail|];
      if capture == "" || HasLineTerminator(capture) then None
      else
        assert path == path[..|ResourcesPrefix|] + capture + path[|path| - |tail|..];
        Some(capture)
  }

  /** Every non-empty namespace without a line terminator is captured back from both indicators. */
  lemma NamespaceCaptureOfIndicator(namespace: string)
    requires namespace != "" && !HasLineTerminator(namespace)
    ensures NamespaceCapture(ResourcesPrefix + namespace + DotLibraryTail) == Some(namespace)
    ensures NamespaceCapture(ResourcesPrefix + namespace + LibraryJsTail) == Some(namespace)
  {
    var dot := ResourcesPrefix + namespace + DotLibraryTail;
    assert dot[..|ResourcesPrefix|] == ResourcesPrefix;
    assert dot[|dot| - |DotLibraryTail|..] == DotLibraryTail;
    assert dot[|ResourcesPrefix|..|dot| - |DotLibraryTail|] == namespace;
    var js := ResourcesPrefix + namespace + LibraryJsTail;
    assert js[..|ResourcesPrefix|] == ResourcesPrefix;
    assert js[|js| - |LibraryJsTail|..] == LibraryJsTail;
    assert !EndsWith(js, DotLibraryTail) by {
      assert js[|js| - 1] == 's';
    }
    assert js[|ResourcesPrefix|..|js| - |LibraryJsTail|] == namespace;
  }

  /** ".library" indicators when there are any, "library.js" indicators only otherwise. */
  function LibraryIndicators(dotLibraries: seq<string>, libraryScripts: seq<string>): (r: seq<string>)
    ensures |dotLibraries| > 0 ==> r == dotLibraries
    ensures |dotLibraries| == 0 ==> r == libraryScripts
  {
    if |dotLibraries| > 0 then dotLibraries else libraryScripts
  }

  /** The namespaces of the indicators that yield one, in order; the others are skipped. */
  function LibraryNamespaces(indicators: seq<string>): (r: seq<string>)
    ensures |r| <= |indicators|
    ensures (forall j :: 0 <= j < |indicators| ==> NamespaceCapture(indicators[j]).None?) ==> r == []
  {
    if indicators == [] then []
    else
      var front := indicators[..|indicators| - 1];
      var rest := LibraryNamespaces(front);
      match NamespaceCapture(indicators[|indicators| - 1])
      case Some(namespace) => rest + [namespace]
      case None => rest
  }

  /** An indicator that yields a namespace adds it after those of the indicators before it. */
  lemma LibraryNamespacesSnoc(front: seq<string>, indicator: string, namespace: string)
    requires NamespaceCapture(indicator) == Some(namespace)
    ensures LibraryNamespaces(front + [indicator]) == LibraryNamespaces(front) + [namespace]
  {
    assert (front + [indicator])[..|front|] == front;
  }

  /** An indicator that yields no namespace is skipped, leaving those before it as they are. */
  lemma LibraryNamespacesSkip(front: seq<string>, indicator: string)
    requires NamespaceCapture(indicator).None?
    ensures LibraryNamespaces(front + [indicator]) == LibraryNamespaces(front)
  {
    assert (front + [indicator])[..|front|] == front;
  }

  /** The namespaces one indicator contributes: its captured namespace, or none. */
  function Contribution(indicator: string): (r: seq<string>)
    ensures |r| <= 1
  {
    match NamespaceCapture(indicator)
    case Some(namespace) => [namespace]
    case None => []
  }

  /** One more indicator adds its contribution after the namespaces before it. */
  lemma LibraryNamespacesStep(front: seq<string>, indicator: string)
    ensures LibraryNamespaces(front + [indicator]) == LibraryNamespaces(front) + Contribution(indicator)
  {
    match NamespaceCapture(indicator)
    case Some(namespace) => LibraryNamespacesSnoc(front, indicator, namespace);
    case None => LibraryNamespacesSkip(front, indicator);
  }

  /** Each indicator contributes on its own: the namespaces of a concatenation concatenate. */
  lemma {:induction false} LibraryNamespacesAppend(first: seq<string>, second: seq<string>)
    ensures LibraryNamespaces(first + second) == LibraryNamespaces(first) + LibraryNamespaces(second)
    decreases |second|
  {
    if second == [] {
      assert first + second == first;
    } else {
      var n := |second| - 1;
      var front, indicator := second[..n], second[n];
      assert first + second == (first + front) + [indicator];
      assert second == front + [indicator];
      calc {
        LibraryNamespaces(first + second);
        { LibraryNamespacesStep(first + front, indicator); }
        LibraryNamespaces(first + front) + Contribution(indicator);
        { LibraryNamespacesAppend(first, front); }
        (LibraryNamespaces(first) + LibraryNamespaces(front)) + Contribution(indicator);
        LibraryNamespaces(first) + (LibraryNamespaces(front) + Contribution(indicator));
        { LibraryNamespacesStep(front, indicator); }
        LibraryNamespaces(first) + LibraryNamespaces(second);
      }
    }
  }

  /** The ".library" indicator of a namespace. */
  function DotLibraryIndicator(namespace: string): string
  {
    ResourcesPrefix + namespace + DotLibraryTail
  }

  /** An indicator list with one namespace per indicator yields exactly those namespaces. */
  lemma {:induction false} LibraryNamespacesOfIndicators(namespaces: seq<string>, indicators: seq<string>)
    requires |indicators| == |namespaces|
    requires forall k :: 0 <= k < |namespaces| ==>
               namespaces[k] != "" && !HasLineTerminator(namespaces[k])
               && indicators[k] == DotLibraryIndicator(namespaces[k])
    ensures LibraryNamespaces(indicators) == namespaces
    decreases |indicators|
  {
    if indicators != [] {
      var n := |indicators| - 1;
      var front, frontNamespaces := indicators[..n], namespaces[..n];
      LibraryNamespacesOfIndicators(frontNamespaces, front);
      NamespaceCaptureOfIndicator(namespaces[n]);
      LibraryNamespacesSnoc(front, indicators[n], namespaces[n]);
      assert front + [indicators[n]] == indicators;
      assert frontNamespaces + [namespaces[n]] == namespaces;
    }
  }

  // ---------------------------------------------------------------------------
  // The build task

  const CoreProjectName := "sap.ui.core"

  /** What the build task asks the bundler for: resources, bootstrap bundles and library preloads. */
  datatype PreloadPlan = PreloadPlan(
    resources: seq<Resource>,
    bootstrapBundles: seq<ModuleBundlerOptions>,
    libraryBundles: seq<BundleDefinition>)

  /**
   * The build task's body. For the core project the stale bootstrap bundle is dropped from the
   * resources and the four bootstrap bundles are requested; then one preload is requested for
   * each library namespace found among the indicators, with the resources as filtered.
   */
  method GenerateLibraryPreload(projectName: string, resources: seq<Resource>,
                                dotLibraries: seq<string>, libraryScripts: seq<string>)
    returns (plan: PreloadPlan)
    ensures plan.resources
            == if projectName == CoreProjectName then WithoutPath(resources, BootstrapBundlePath) else resources
    ensures projectName != CoreProjectName ==> plan.bootstrapBundles == []
    ensures projectName == CoreProjectName ==>
              var configs := BootstrapConfigs(RawFilters(resources));
              |plan.bootstrapBundles| == 4
              && forall k :: 0 <= k < 4 ==> IsBootstrapOptions(plan.bootstrapBundles[k], configs[k])
    ensures var namespaces := LibraryNamespaces(LibraryIndicators(dotLibraries, libraryScripts));
            |plan.libraryBundles| == |namespaces|
            && forall k :: 0 <= k < |namespaces| ==> plan.libraryBundles[k] == GetBundleDefinition(namespaces[k])
  {
    var candidates := resources;
    var bootstrapBundles: seq<ModuleBundlerOptions> := [];
    if projectName == CoreProjectName {
      candidates := WithoutPath(candidates, BootstrapBundlePath);
      RawFiltersIgnoreBootstrapBundle(resources);
      bootstrapBundles := BootstrapBundles(RawFilters(candidates));
    }
    var libraryBundles := LibraryBundles(LibraryIndicators(dotLibraries, libraryScripts));
    plan := PreloadPlan(candidates, bootstrapBundles, libraryBundles);
  }

  /** The bundler options of the four bootstrap bundles, in order. */
  method BootstrapBundles(filters: seq<string>) returns (bundles: seq<ModuleBundlerOptions>)
    ensures var configs := BootstrapConfigs(filters);
            |bundles| == |configs|
            && forall k :: 0 <= k < |configs| ==> IsBootstrapOptions(bundles[k], configs[k])
  {
    var configs := BootstrapConfigs(filters);
    bundles := [];
    for i := 0 to |configs|
      invariant |bundles| == i
      invariant forall k :: 0 <= k < i ==> IsBootstrapOptions(bundles[k], configs[k])
    {
      var options := GetModuleBundlerOptions(configs[i]);
      bundles := bundles + [options];
    }
  }

  /** One library preload per indicator whose namespace is captured, in indicator order. */
  method LibraryBundles(indicators: seq<string>) returns (bundles: seq<BundleDefinition>)
    ensures var namespaces := LibraryNamespaces(indicators);
            |bundles| == |namespaces|
            && forall k :: 0 <= k < |namespaces| ==> bundles[k] == GetBundleDefinition(namespaces[k])
  {
    bundles := [];
    for i := 0 to |indicators|
      invariant var namespaces := LibraryNamespaces(indicators[..i]);
                |bundles| == |namespaces|
                && forall k :: 0 <= k < |namespaces| ==> bundles[k] == GetBundleDefinition(namespaces[k])
    {
      assert indicators[..i + 1][..i] == indicators[..i];
      match NamespaceCapture(indicators[i])
      case Some(namespace) =>
        bundles := bundles + [GetBundleDefinition(namespace)];
      case None =>
    }
    assert indicators[..|indicators|] == indicators;
  }

  /**
   * A ".library" indicator hides every "library.js" indicator: with "/resources/sap/foo/.library"
   * and "/resources/sap/bar/library.js" only "sap/foo" gets a preload.
   */
  lemma DotLibraryWins(dotLibraries: seq<string>, libraryScripts: seq<string>, namespace: string)
    requires dotLibraries == [DotLibraryIndicator(namespace)]
    requires namespace != "" && !HasLineTerminator(namespace)
    ensures LibraryNamespaces(LibraryIndicators(dotLibraries, libraryScripts)) == [namespace]
  {
    LibraryNamespacesOfIndicators([namespace], dotLibraries);
  }
}

# UI5 builder core, modelled in Dafny

This project models four parts of the UI5 builder, the tool that turns UI5 library and
application projects into deployable resources.

- **Module names** (`ModuleName`, `module_name.dfy`):
  - conversion between legacy dot names ("sap.m.Button") and resource paths ("sap/m/Button.js");
  - conversion between RequireJS names and resource paths;
  - the debug sibling of a script or style sheet ("x.js" and "x-dbg.js");
  - resolution of a relative module reference ("./d.js", "../d.js") against the path of
    the module that makes it.
- **Library preload planning** (`GenerateLibraryPreload`, `generate_library_preload.dfy`):
  - the bundle definition of a library's "library-preload.js", including its filter list;
  - the four bootstrap bundles ("sap-ui-core.js" and its variants) requested for the core
    library;
  - how library namespaces are found from ".library" or "library.js" indicator files;
  - the list of bundler requests the build task makes, in order.
- **Base project formatter** (`Ui5Formatter`, `ui5_formatter.dfy`):
  - Maven placeholders such as "${project.version}", resolved against the project's pom.xml;
  - the memoised reads of manifest.json and pom.xml;
  - the guards of the abstract class.
- **Library project formatter** (`LibraryFormatter`, `library_formatter.dfy`):
  - validation of a library project, with the configuration defaults filled in place;
  - the "/resources/" and "/test-resources/" path mappings;
  - the namespace fallback chain (manifest, then ".library", then Maven placeholder);
  - the copyright precedence;
  - the rule that a library has exactly one ".library" file.

Two helper modules hold the rest:

- `Strings` (`strings.dfy`): the JavaScript string operations the code uses, on `seq<char>`.
- `Wrappers` (`wrappers.dfy`): `Option`, `Result` and `Outcome`.

`ResourceFilters` (`resource_filters.dfy`) states, as an explicit assumption, how the module
bundler applies a section's filter list. The bundler is not part of this model. The assumed
rules are:

- "!" excludes;
- one "*" matches any run of characters without "/";
- a trailing "/" matches a whole directory;
- the last matching filter decides.

Only the lemmas that say which paths a preload selects depend on this assumption.

The code is mixed in style, and the model follows it:

- Name conversions, bundle definitions and the formatters' decision rules are functions.
- The push/pop loop of the relative-path resolver is a method with a loop, proved equal to a
  specification function.
- So are the pushes that build a bootstrap definition, the four bootstrap bundle requests
  (modelled as a loop over their configurations), the loop over the library indicators, and
  the walk over a dotted Maven key.
- The formatters are classes whose fields are the caches the source keeps in
  `_pManifest`, `_pPom` and `_pDotLibrary`.
- The project object is a class whose `metadata` and `resources` fields validation and
  formatting update in place.

Files, globs and directories are injected as values:

- a map from path to the parsed content of the file;
- a map from directory to the ".library" files the glob finds below it;
- the set of existing directories.

One might expect "sap/foo/.library" and "sap/bar/library.js" to give one bundle each. The
code, however, uses "library.js" files only when the workspace holds no ".library" file at
all (lib/tasks/bundlers/generateLibraryPreload.js:208-215), and the model follows the code
(`GenerateLibraryPreload.DotLibraryWins`).

## Model

| member | source | states |
|---|---|---|
| ModuleName.EffectiveSuffix | lib/lbt/utils/ModuleName.js:20 | a given non-empty suffix is used as it is; an absent or empty suffix means ".js" |
| ModuleName.FromUI5LegacyName | lib/lbt/utils/ModuleName.js:11-21 | as written: fails exactly for names with the third-party jQuery prefix; a dot-literal name ("jquery.sap.", "jquery-") is kept as it is, with the suffix appended; any other name has every "." replaced by "/" and the suffix appended, so the path has no "." before the suffix |
| ModuleName.IntendedFromUI5LegacyName | lib/lbt/utils/ModuleName.js:11-21 | the corrected conversion always ends with the effective suffix |
| ModuleName.ToUI5LegacyName | lib/lbt/utils/ModuleName.js:23-35 | fails exactly for paths not ending in ".js"; otherwise, with M the path without ".js": the reserved path prefix becomes the reserved name prefix, a dot-literal M ("jquery.sap.", "jquery-") is the name, slashes kept, and any other M has every "/" replaced by "." (dots kept) |
| ModuleName.DotLiteralModuleKeepsSlashes | lib/lbt/utils/ModuleName.js:15-16 | a "jquery-" module keeps its "/" and "." in both directions: "jquery-" + rest + ".js" and "jquery-" + rest convert into each other |
| ModuleName.ThirdPartyPrefixForms | lib/lbt/utils/ModuleName.js:13-14 | the reserved path prefix is the reserved name prefix with dots turned into slashes, and the name prefix has no "/" |
| ModuleName.ReservedPathComesFromReservedName | lib/lbt/utils/ModuleName.js:18 | a slash-free name whose converted path starts with the reserved path prefix starts with the reserved name prefix |
| ModuleName.LegacyNameRoundTrip | lib/lbt/utils/ModuleName.js:11-35 | toUI5LegacyName(fromUI5LegacyName(n)) == n for every n without "/" that lacks the third-party jQuery prefix |
| ModuleName.IntendedLegacyNameRoundTrip | lib/lbt/utils/ModuleName.js:11-35 | with the corrected conversion the round trip holds for every name without "/" |
| ModuleName.ThirdPartyJQueryNameFails | lib/lbt/utils/ModuleName.js:13-14 | every third-party jQuery path converts to a legacy name, but converting that name back fails, while the corrected conversion gives the path back |
| ModuleName.FromRequireJSName | lib/lbt/utils/ModuleName.js:37-39 | the path is the name followed by ".js" |
| ModuleName.ToRequireJSName | lib/lbt/utils/ModuleName.js:41-46 | fails exactly for non-".js" paths; otherwise its result converts back to the same path |
| ModuleName.RequireJSNameRoundTrip | lib/lbt/utils/ModuleName.js:37-46 | toRequireJSName(fromRequireJSName(n)) == n for every n |
| ModuleName.KnownTypeShape | lib/lbt/utils/ModuleName.js:48 | every extension KNOWN_TYPES accepts starts with "." and contains no "-" |
| ModuleName.KnownTypeMatchFrom | lib/lbt/utils/ModuleName.js:48-51 | finds the first position from i on where the rest of the name is a known type, and none exists when it finds none |
| ModuleName.KnownTypeMatch | lib/lbt/utils/ModuleName.js:48-51 | exec of the end-anchored KNOWN_TYPES: the leftmost index whose suffix is a known type, or no match at all |
| ModuleName.KnownTypeMatchAt | lib/lbt/utils/ModuleName.js:48-51 | the leftmost known-type position is the match |
| ModuleName.GetDebugName | lib/lbt/utils/ModuleName.js:50-56 | a debug name exists only for ".js" and ".css" names; it is the name with "-dbg" inserted right before the leftmost known type |
| ModuleName.GetNonDebugName | lib/lbt/utils/ModuleName.js:58-64 | a non-debug name exists only for ".js" and ".css" names; it is the name with the four characters before the leftmost known type removed |
| ModuleName.MatchAfterDotFreeBase | lib/lbt/utils/ModuleName.js:48-51 | behind a base without dots, a known type is the leftmost match |
| ModuleName.MatchAfterDebugMarker | lib/lbt/utils/ModuleName.js:48-53 | after "-dbg" is inserted before a known type, the match sits right behind "-dbg" |
| ModuleName.DebugNameRoundTrip | lib/lbt/utils/ModuleName.js:50-64 | whenever getDebugName(n) exists, getNonDebugName of it is n and getDebugName of it is null |
| ModuleName.DebugNameOfScriptOrStyle | lib/lbt/utils/ModuleName.js:48-55 | a ".js" or ".css" name always matches, and has no debug name exactly when its base already ends in "-dbg" |
| ModuleName.DebugNameOfDotFreeBase | lib/lbt/utils/ModuleName.js:50-64 | for base + known type: "-dbg" is inserted exactly for the ".css"/".js" family without "-dbg" already; ".properties", ".json", ".xml" and ".html" give null; getNonDebugName removes an existing "-dbg" |
| ModuleName.ResolveRelativePath | lib/lbt/utils/ModuleName.js:69-121 | the push/pop loop computes the specification: unchanged without a dot-only segment followed by "/"; otherwise "." is skipped, ".." pops or fails on an empty stack, three or more dots fail, anything else is pushed, and the stack is joined with "/" |
| ModuleName.ResolveRelativeRequireJSName | lib/lbt/utils/ModuleName.js:129-131 | resolves the name with ".js" appended, and a successful result always converts back to a RequireJS name |
| ModuleName.ResolutionNeverClamps | lib/lbt/utils/ModuleName.js:98-107 | a successful resolution holds exactly the seed plus the pushed segments minus one per "..", so no ".." is ever dropped at the root |
| ModuleName.ResolutionKeepsLastSegment | lib/lbt/utils/ModuleName.js:91-118 | a last segment that is not dot-only ends the resolved stack |
| ModuleName.ResolvedRequireJSNameKeepsExtension | lib/lbt/utils/ModuleName.js:129-131 | resolving a RequireJS name gives a path ending in ".js" |
| ModuleName.NonLeadingReferenceIgnoresBase | lib/lbt/utils/ModuleName.js:84-88 | a reference whose special segment is not at index 0 resolves the same against every base path |
| ModuleName.BaseDirectorySeed | lib/lbt/utils/ModuleName.js:84-88 | for a base "dir/file" and a reference that leads with a dot segment, the stack starts as the segments of dir |
| ModuleName.SeededResolution | lib/lbt/utils/ModuleName.js:84-118 | resolution against "dir/file" is the segment loop started from the segments of dir |
| ModuleName.DotSteps | lib/lbt/utils/ModuleName.js:93-115 | "./name" pushes name; "../name" replaces the top of a non-empty stack with name |
| ModuleName.CurrentDirectoryReference | lib/lbt/utils/ModuleName.js:84-118 | "./d.js" against "a/b/c.js" gives "a/b/d.js", for every directory, file and plain name |
| ModuleName.ParentDirectoryReference | lib/lbt/utils/ModuleName.js:84-118 | "../d.js" against "a/b/c.js" gives "a/d.js", for every directory, file and plain name |
| ModuleName.PushThenPopCancels | lib/lbt/utils/ModuleName.js:98-115 | a plain segment followed by ".." cancels out, as in "c/../d.js" |
| ModuleName.PopPastRootFails | lib/lbt/utils/ModuleName.js:98-105 | one ".." more than the stack holds fails instead of stopping at the root, as "../../../d.js" does against "a/b/c.js" |
| ModuleName.TrailingParentIsKept | lib/lbt/utils/ModuleName.js:66-80 | "foo/.." contains no dot-only segment followed by "/" and is returned unchanged |
| GenerateLibraryPreload.LibraryFilters | lib/tasks/bundlers/generateLibraryPreload.js:14-19 | a library's own filters number four, five with the core's "cldr" exclusion |
| GenerateLibraryPreload.Excluding | lib/tasks/bundlers/generateLibraryPreload.js:32-41 | each bootstrap-only file becomes "!" + the file, an exclusion |
| GenerateLibraryPreload.GetBundleDefinition | lib/tasks/bundlers/generateLibraryPreload.js:5-67 | name ns + "/library-preload.js", the five default file types, one preload section with resolve false, resolveConditional false, renderer true and the namespace's filter list |
| GenerateLibraryPreload.CorePreloadFilterList | lib/tasks/bundlers/generateLibraryPreload.js:14-41 | the core list has 24 filters: "!sap/ui/core/cldr/" fourth, the ten shared filters next, and ends with the nine negated bootstrap-only files |
| GenerateLibraryPreload.LibraryPreloadSelection | lib/tasks/bundlers/generateLibraryPreload.js:50-67 | under the assumed filter rules, another library's preload selects exactly the paths below ns/ other than ns/.library, ns/themes/… and its message bundles |
| GenerateLibraryPreload.NamespacePatterns | lib/tasks/bundlers/generateLibraryPreload.js:57-59 | "ns/" includes the directory; "!ns/.library" excludes that one file; "!ns/themes/" excludes that directory |
| GenerateLibraryPreload.MessageBundlePattern | lib/tasks/bundlers/generateLibraryPreload.js:60 | "!ns/messagebundle*" excludes exactly the message bundles directly in ns |
| GenerateLibraryPreload.TrailingExclusionsWin | lib/tasks/bundlers/generateLibraryPreload.js:32-41 | a list that ends in exclusions never selects a path one of them matches |
| GenerateLibraryPreload.CorePreloadLeavesOutBootstrapFiles | lib/tasks/bundlers/generateLibraryPreload.js:7-48 | the core preload never selects a file that is already part of sap-ui-core.js |
| GenerateLibraryPreload.GetSapUiCoreBunDef | lib/tasks/bundlers/generateLibraryPreload.js:102-138 | the pushed sections are: a raw section with the given filters (resolve, sort, no declareModules); the Core.js preload section only when preloading; a final Core.js require section; no default file types |
| GenerateLibraryPreload.BootstrapSectionsDetermined | lib/tasks/bundlers/generateLibraryPreload.js:102-138 | the sections are fixed by the arguments, with modes raw, preload, require (3) or raw, require (2) |
| GenerateLibraryPreload.GetModuleBundlerOptions | lib/tasks/bundlers/generateLibraryPreload.js:70-100 | all four bundle options equal preload; the provided section with the six jQuery filters is unshifted in front when provided |
| GenerateLibraryPreload.BootstrapOptionModes | lib/tasks/bundlers/generateLibraryPreload.js:93-97 | the section modes are [provided] (when asked) followed by the bootstrap modes, in order |
| GenerateLibraryPreload.BootstrapVariants | lib/tasks/bundlers/generateLibraryPreload.js:182-198 | four configurations sharing the raw filters, each combination of preload and provided exactly once, named "sap-ui-core" + "-nojQuery" if provided + "-dbg" if not preloaded + ".js" |
| GenerateLibraryPreload.WithoutPath | lib/tasks/bundlers/generateLibraryPreload.js:168-170 | keeps exactly the resources with another path, never adding any |
| GenerateLibraryPreload.WithoutPathAppend | lib/tasks/bundlers/generateLibraryPreload.js:168-170 | the filter works piece by piece, so the kept resources stay in order |
| GenerateLibraryPreload.WithoutPathOfAbsent | lib/tasks/bundlers/generateLibraryPreload.js:168-170 | without sap-ui-core.js among the resources nothing is removed |
| GenerateLibraryPreload.HasEvoLoader | lib/tasks/bundlers/generateLibraryPreload.js:172-174 | true exactly when some resource path is "/resources/ui5loader.js" |
| GenerateLibraryPreload.RawFilters | lib/tasks/bundlers/generateLibraryPreload.js:175-180 | ["ui5loader-autoconfig.js"] with the modern loader, ["jquery.sap.global.js"] without |
| GenerateLibraryPreload.RawFiltersIgnoreBootstrapBundle | lib/tasks/bundlers/generateLibraryPreload.js:165-180 | removing the stale sap-ui-core.js never changes which loader filters are chosen |
| GenerateLibraryPreload.NamespaceCapture | lib/tasks/bundlers/generateLibraryPreload.js:228-231 | a captured namespace is non-empty, holds no line terminator, and rebuilds the path as "/resources/" + ns + "/.library" or "/library.js" |
| GenerateLibraryPreload.NamespaceCaptureOfIndicator | lib/tasks/bundlers/generateLibraryPreload.js:226-231 | every non-empty one-line namespace is captured back from both indicator forms |
| GenerateLibraryPreload.LibraryIndicators | lib/tasks/bundlers/generateLibraryPreload.js:208-215 | ".library" indicators when there are any, "library.js" indicators otherwise |
| GenerateLibraryPreload.LibraryNamespaces | lib/tasks/bundlers/generateLibraryPreload.js:223-247 | at most one namespace per indicator, and none at all when no indicator yields one (each indicator's own effect is stated by LibraryNamespacesStep and LibraryNamespacesAppend) |
| GenerateLibraryPreload.LibraryNamespacesSnoc | lib/tasks/bundlers/generateLibraryPreload.js:223-247 | an indicator that yields a namespace adds it after the namespaces of the indicators before it |
| GenerateLibraryPreload.LibraryNamespacesSkip | lib/tasks/bundlers/generateLibraryPreload.js:244-247 | an indicator that yields no namespace is skipped and leaves the namespaces before it unchanged |
| GenerateLibraryPreload.LibraryNamespacesStep | lib/tasks/bundlers/generateLibraryPreload.js:223-247 | one more indicator appends exactly its own contribution: its namespace, or nothing |
| GenerateLibraryPreload.LibraryNamespacesAppend | lib/tasks/bundlers/generateLibraryPreload.js:223-247 | the namespaces of two indicator lists run together are those of the first followed by those of the second |
| GenerateLibraryPreload.LibraryNamespacesOfIndicators | lib/tasks/bundlers/generateLibraryPreload.js:223-247 | indicators built from namespaces yield exactly those namespaces, in order |
| GenerateLibraryPreload.DotLibraryWins | lib/tasks/bundlers/generateLibraryPreload.js:208-215 | with one ".library" indicator only its namespace gets a preload, whatever "library.js" files exist |
| GenerateLibraryPreload.GenerateLibraryPreload | lib/tasks/bundlers/generateLibraryPreload.js:158-249 | only for "sap.ui.core": sap-ui-core.js is dropped from the resources and the four bootstrap bundles are requested; for every project, one preload per captured namespace, in indicator order |
| GenerateLibraryPreload.BootstrapBundles | lib/tasks/bundlers/generateLibraryPreload.js:182-198 | one option set per bootstrap configuration, each as getModuleBundlerOptions builds it |
| GenerateLibraryPreload.LibraryBundles | lib/tasks/bundlers/generateLibraryPreload.js:216-248 | the loop requests getBundleDefinition of each captured namespace, in order |
| Ui5Formatter.PlaceholderKey | lib/types/AbstractUi5Formatter.js:34-36 | a capture of `^\$\{(.*)\}$` is a key without line terminators, and the value is "${" + key + "}" |
| Ui5Formatter.PlaceholderKeyOf | lib/types/AbstractUi5Formatter.js:34-36 | a value is a placeholder for key exactly when it is "${key}" and key holds no line terminator |
| Ui5Formatter.HasMavenPlaceholder | lib/types/AbstractUi5Formatter.js:34-36 | a placeholder starts with "${" and ends with "}"; every "${key}" with key on one line is one |
| Ui5Formatter.WalkAppend | lib/types/AbstractUi5Formatter.js:53-57 | walking a dotted path in two legs is walking it in one |
| Ui5Formatter.WalkFalsyAbsorbs | lib/types/AbstractUi5Formatter.js:53-57 | once `obj && obj[part]` is falsy the walk stays at that value |
| Ui5Formatter.MissingStepIsFalsy | lib/types/AbstractUi5Formatter.js:53-57 | a missing intermediate step makes the walk falsy instead of raising |
| Ui5Formatter.WalkNested | lib/types/AbstractUi5Formatter.js:53-57 | walking a path finds the value the tree holds at that path |
| Ui5Formatter.MavenResolution | lib/types/AbstractUi5Formatter.js:44-67 | success only for a placeholder and only with a truthy value; a non-placeholder, the empty string included, fails with "does not contain any maven placeholder"; a failed pom read is passed on |
| Ui5Formatter.PropertiesTakePrecedence | lib/types/AbstractUi5Formatter.js:50-51 | a truthy pom.project.properties[key] is the result, whatever the dotted path holds |
| Ui5Formatter.ResolvesNestedValue | lib/types/AbstractUi5Formatter.js:52-63 | without such a property, a pom holding a truthy value at the dotted path (as in "${project.version}") resolves to that value |
| Ui5Formatter.MissingStepUnresolved | lib/types/AbstractUi5Formatter.js:52-62 | a dotted path that leaves the pom halfway fails with "couldn't be resolved" |
| Ui5Formatter.ReadParsed | lib/types/AbstractUi5Formatter.js:97-105 | a read fails exactly when the file is missing or does not parse, with that error |
| Ui5Formatter.ReadManifest | lib/types/AbstractUi5Formatter.js:79-84 | a missing manifest becomes "Failed to read manifest.json"; a parse failure is not wrapped |
| Ui5Formatter.ManifestOf | lib/types/AbstractUi5Formatter.js:74-84 | the cached outcome when there is one; otherwise a failing source base path fails before any read, else the manifest below it is read |
| Ui5Formatter.PomOf | lib/types/AbstractUi5Formatter.js:92-105 | the cached outcome when there is one, otherwise a read of pom.xml |
| Ui5Formatter.AbstractFormatterReadsNoManifest | lib/types/AbstractUi5Formatter.js:30-32 | with the base getSourceBasePath no manifest is ever read: the result is "Not implemented" |
| Ui5Formatter.Ui5Formatter.New | lib/types/AbstractUi5Formatter.js:16-21 | construction fails exactly when the abstract class itself is the target; otherwise the new formatter's caches are empty |
| Ui5Formatter.Ui5Formatter.GetManifest | lib/types/AbstractUi5Formatter.js:74-85 | returns the cached outcome if any, else reads and caches it (a failed read included); nothing is cached when the base path fails |
| Ui5Formatter.Ui5Formatter.GetPom | lib/types/AbstractUi5Formatter.js:92-106 | returns the cached outcome if any, else reads pom.xml once and caches the outcome |
| Ui5Formatter.Ui5Formatter.ResolveMavenPlaceholder | lib/types/AbstractUi5Formatter.js:44-67 | computes MavenResolution of the pom as it would be read, reading it only for a placeholder, with the walk done by a loop |
| LibraryFormatter.ValidationError | lib/types/library/LibraryFormatter.js:153-161 | passes exactly with a name, a type and a version that is not undefined (null passes); otherwise the first missing of name, type, version is reported |
| LibraryFormatter.WithDefaults | lib/types/library/LibraryFormatter.js:162-176 | every missing level exists afterwards; a set src or test is kept, a missing src becomes "src" and a missing test "test"; path mappings are untouched |
| LibraryFormatter.DefaultsIdempotent | lib/types/library/LibraryFormatter.js:162-176 | filling in defaults twice is filling them in once |
| LibraryFormatter.Validated | lib/types/library/LibraryFormatter.js:162-193 | the defaulted src stays; test stays only when its directory exists and becomes null otherwise |
| LibraryFormatter.PathMappings | lib/types/library/LibraryFormatter.js:21-31 | "/resources/" always maps to src; "/test-resources/" is present exactly when test is set, mapping to it; no other keys |
| LibraryFormatter.DotLibraryRead | lib/types/library/LibraryFormatter.js:122-142 | no ".library" file fails, several fail with their count, exactly one is read and parsed |
| LibraryFormatter.DotLibraryNeedsExactlyOne | lib/types/library/LibraryFormatter.js:126-132 | a ".library" is only ever obtained when exactly one was found |
| LibraryFormatter.DotLibraryOf | lib/types/library/LibraryFormatter.js:118-143 | the cached outcome when there is one, else the source base path's failure, else the read below it |
| LibraryFormatter.ManifestId | lib/types/library/LibraryFormatter.js:51-58 | truthy exactly when the manifest was read and its sap.app.id is truthy, and then it is that id; undefined otherwise, a failed read included |
| LibraryFormatter.DotLibraryField | lib/types/library/LibraryFormatter.js:67-70 | truthy exactly when the ".library" was read and its library[field] is truthy, and then it is that value; undefined otherwise, a failed read included |
| LibraryFormatter.AppId | lib/types/library/LibraryFormatter.js:49-79 | the manifest's id whenever it is truthy, the ".library" name field otherwise |
| LibraryFormatter.NamespaceOfId | lib/types/library/LibraryFormatter.js:95 | the namespace is as long as the id and contains no "." |
| LibraryFormatter.NamespaceOf | lib/types/library/LibraryFormatter.js:48-98 | fails only with a TypeError, on a non-string id; a namespace is non-empty and dot-free; no id gives no namespace (its values for each id source are the NamespaceFrom lemmas) |
| LibraryFormatter.ManifestIdPreferred | lib/types/library/LibraryFormatter.js:53-67 | when the manifest names an id, the ".library" file does not affect the namespace |
| LibraryFormatter.ReadFailuresSwallowed | lib/types/library/LibraryFormatter.js:59-78 | when both reads fail the namespace is null, not an error |
| LibraryFormatter.NamespaceOfPlainId | lib/types/library/LibraryFormatter.js:91-97 | a plain id becomes its dots-to-slashes namespace, and a slash-free id is recovered from it |
| LibraryFormatter.UnresolvedPlaceholderGivesNone | lib/types/library/LibraryFormatter.js:81-89 | a placeholder that cannot be resolved gives a null namespace, not an error |
| LibraryFormatter.NamespaceFromManifest | lib/types/library/LibraryFormatter.js:51-97 | a manifest with sap.app.id = id (plain, non-empty) gives the namespace NamespaceOfId(id), whatever the ".library" and pom hold |
| LibraryFormatter.NamespaceFromDotLibrary | lib/types/library/LibraryFormatter.js:65-97 | with no manifest id, a ".library" named id (plain, non-empty) gives the namespace NamespaceOfId(id) |
| LibraryFormatter.NamespaceFromResolvedPlaceholder | lib/types/library/LibraryFormatter.js:81-97 | a placeholder id that the pom resolves to a string gives the namespace of that string |
| LibraryFormatter.NamespaceFromPomValue | lib/types/library/LibraryFormatter.js:81-97 | a manifest id "${key}" and a pom holding a non-empty string value at the dotted key (outside project.properties) give the namespace of that value |
| LibraryFormatter.CopyrightOf | lib/types/library/LibraryFormatter.js:100-111 | a copyright is truthy or undefined; without metadata it fails; with no configured copyright it is the ".library" read's failure or that file's library.copyright field |
| LibraryFormatter.ConfiguredCopyrightWins | lib/types/library/LibraryFormatter.js:101-103 | a truthy configured copyright is the result, whatever the ".library" file holds |
| LibraryFormatter.CopyrightFromDotLibrary | lib/types/library/LibraryFormatter.js:104-110 | with no configured copyright, a ".library" whose library.copyright is truthy gives exactly that copyright |
| LibraryFormatter.LibraryFormatter.constructor | lib/types/AbstractUi5Formatter.js:16-21 | a new formatter holds the project and has nothing cached: no manifest, pom or ".library" outcome |
| LibraryFormatter.LibraryFormatter.SourceBasePath | lib/types/library/LibraryFormatter.js:44-46 | fails without project, resources or path mappings; otherwise it is the "/resources/" mapping, or undefined |
| LibraryFormatter.LibraryFormatter.GetManifest | lib/types/AbstractUi5Formatter.js:74-85 | getManifest with the library's source base path; what a later call returns is what this one returned; the outcome is cached only when nothing was cached and the base path is available |
| LibraryFormatter.LibraryFormatter.GetDotLibrary | lib/types/library/LibraryFormatter.js:118-143 | returns the cached outcome if any, else reads and caches it; nothing is cached when the base path fails |
| LibraryFormatter.LibraryFormatter.GetNamespace | lib/types/library/LibraryFormatter.js:48-98 | computes NamespaceOf the manifest, ".library" and pom as they would be read, and leaves what later reads give unchanged |
| LibraryFormatter.LibraryFormatter.GetCopyright | lib/types/library/LibraryFormatter.js:100-111 | computes CopyrightOf the metadata and the ".library" as it would be read, and leaves what a later read gives unchanged |
| LibraryFormatter.LibraryFormatter.Validate | lib/types/library/LibraryFormatter.js:150-197 | a missing project, then the ordered checks, fail before any change; otherwise the resources become the validated defaults, and the result fails exactly when the source directory is missing |
| LibraryFormatter.LibraryFormatter.Format | lib/types/library/LibraryFormatter.js:16-35 | a missing project or a failed check fails with nothing changed; a missing source directory fails after the validated resources are stored; otherwise the path mappings are set, then a failing NamespaceOf fails with the metadata unchanged, a failing CopyrightOf fails after the namespace is stored, and success stores both |

## Left out

- The module bundler (`moduleBundler`), the workspace and dependency readers, and every write
  are left out: the build task's result is the list of requests it makes. The bundler's resource
  selection is modelled only through the assumed rules in `ResourceFilters`.
- The bundler's use of `defaultFileTypes` is left out: the assumed filter rules ignore it.
  The same goes for the check that the bundler returned a bundle before writing it.
- `Promise.all` concurrency is left out. The bundler requests are sequential in the model.
  Validate's two directory checks are sequential too: the test path is nulled whether or not
  the source directory exists, as happens when both checks settle.
- Error messages are reduced to their kind. Interpolated project names and ids are left out,
  and so is the `String.format` call of the path resolver. `ParentOfRoot` and
  `IllegalSegment` are kept apart in the model, while the source raises the same TypeError
  for both, because `String.format` is not a function.
- File reading, JSON and XML parsing, globbing and `dirExists` are injected values.
  `path.join` is concatenation with "/" and does not normalise.
- JavaScript values are approximated. A property of a string, number, boolean or array
  (such as `length` or an index) reads as undefined, and NaN is not modelled. Only own
  properties are read: an inherited one such as `constructor` or `toString` reads as
  undefined, where JavaScript finds a function (so "${project.constructor}" does not make
  getNamespace raise a TypeError in the model).
- Logging is left out.
- LibraryFormatter.LibraryFormatter.GetNamespace: requires a project with metadata, because
  every path through the source dereferences `metadata.name` in a log message.
- Ui5Formatter.Ui5Formatter.ResolveMavenPlaceholder: takes a string. An undefined or null
  value, which the source rejects like the empty string, cannot be passed.
- Ui5Formatter.MavenResolution: the "couldn't be resolved" error needs the project's name.
  The model assumes callers have metadata, as GetNamespace's precondition ensures.
- GenerateLibraryPreload.CorePreloadLeavesOutBootstrapFiles: characterises only the
  bootstrap-only files of the core preload, not its whole selection.
- The JSDoc and manifest-bundle tasks are not part of this model.

## Findings

| source | as written | input that shows it | evidently intended | confidence | as-written member | corrected member |
|---|---|---|---|---|---|---|
| lib/lbt/utils/ModuleName.js:14 | `"sap.ui.thirdparty.jquery.jquery-".length()` calls a number as a function, so fromUI5LegacyName raises a TypeError for every name with that prefix | "sap.ui.thirdparty.jquery.jquery-compat", which toUI5LegacyName produces from "sap/ui/thirdparty/jquery/jquery-compat.js" | `.length`, giving "sap/ui/thirdparty/jquery/jquery-compat.js" and a round trip for every name without "/" | high, not executed | ModuleName.FromUI5LegacyName, ModuleName.ThirdPartyJQueryNameFails | ModuleName.IntendedFromUI5LegacyName, ModuleName.IntendedLegacyNameRoundTrip |

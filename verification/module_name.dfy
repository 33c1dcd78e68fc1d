/**
 * Module-name conversions of the UI5 loader: legacy dot names and RequireJS names against
 * resource paths, debug and non-debug siblings of a resource, and resolution of a relative
 * module reference against the path of the module that contains it.
 */
module ModuleName {
  import opened Wrappers
  import opened Strings

  /** Why a conversion or a resolution fails. */
  datatype NameError =
    | NonJsResource(path: string)       // the path does not end in ".js"
    | LengthNotCallable                 // `.length()` on a number raises a TypeError
    | ParentOfRoot                      // ".." with nothing left to remove
    | IllegalSegment(segment: string)   // a segment of three or more dots

  /** The one legacy name prefix that keeps dots after it, and its path form. */
  const ThirdPartyJQueryName := "sap.ui.thirdparty.jquery.jquery-"
  const ThirdPartyJQueryPath := "sap/ui/thirdparty/jquery/jquery-"

  /** `suffix || ".js"`: an absent or empty suffix means ".js". */
  function EffectiveSuffix(suffix: Option<string>): (r: string)
    ensures r != ""
    ensures suffix.Some? && suffix.value != "" ==> r == suffix.value
    ensures suffix.None? || suffix.value == "" ==> r == ".js"
  {
    if suffix.Some? && suffix.value != "" then suffix.value else ".js"
  }

  /** Legacy names that stay dot-literal. */
  predicate IsDotLiteralName(name: string)
  {
    StartsWith(name, "jquery.sap.") || StartsWith(name, "jquery-")
  }

  // ---------------------------------------------------------------------------
  // Legacy dot names

  /**
   * fromUI5LegacyName as written: the third-party jQuery branch calls `.length()` on a
   * number and therefore always raises.
   */
  function FromUI5LegacyName(name: string, suffix: Option<string>): (r: Result<string, NameError>)
    ensures r.Failure? <==> StartsWith(name, ThirdPartyJQueryName)
    ensures r.Success? ==> EndsWith(r.value, EffectiveSuffix(suffix))
    ensures r.Success? ==> |r.value| == |name| + |EffectiveSuffix(suffix)|
    ensures r.Success? && !IsDotLiteralName(name) ==> '.' !in r.value[..|name|]
    ensures IsDotLiteralName(name) ==> r == Success(name + EffectiveSuffix(suffix))
    ensures r.Success? && !IsDotLiteralName(name) ==> r.value == ReplaceAll(name, '.', '/') + EffectiveSuffix(suffix)
  {
    if StartsWith(name, ThirdPartyJQueryName) then
      assert name[0] == ThirdPartyJQueryName[0] == 's';
      Failure(LengthNotCallable)
    else if IsDotLiteralName(name) then Success(name + EffectiveSuffix(suffix))
    else
      var path := ReplaceAll(name, '.', '/');
      assert (path + EffectiveSuffix(suffix))[..|name|] == path;
      Success(path + EffectiveSuffix(suffix))
  }

  /**
   * fromUI5LegacyName as its authors meant it: the third-party jQuery prefix becomes its
   * path form and the rest of the name keeps its dots.
   */
  function IntendedFromUI5LegacyName(name: string, suffix: Option<string>): (r: string)
    ensures EndsWith(r, EffectiveSuffix(suffix))
  {
    if StartsWith(name, ThirdPartyJQueryName) then
      ThirdPartyJQueryPath + name[|ThirdPartyJQueryName|..] + EffectiveSuffix(suffix)
    else if IsDotLiteralName(name) then name + EffectiveSuffix(suffix)
    else ReplaceAll(name, '.', '/') + EffectiveSuffix(suffix)
  }

  /** toUI5LegacyName: only ".js" resources have a legacy name. */
  function ToUI5LegacyName(path: string): (r: Result<string, NameError>)
    ensures r.Failure? <==> !EndsWith(path, ".js")
    ensures r.Success? ==> |r.value| == |path| - 3
    ensures EndsWith(path, ".js") && IsDotLiteralName(path[..|path| - 3]) ==> r == Success(path[..|path| - 3])
    ensures EndsWith(path, ".js") && StartsWith(path[..|path| - 3], ThirdPartyJQueryPath) ==>
              r == Success(ThirdPartyJQueryName + path[|ThirdPartyJQueryPath|..|path| - 3])
    ensures (EndsWith(path, ".js") && !StartsWith(path[..|path| - 3], ThirdPartyJQueryPath)
             && !IsDotLiteralName(path[..|path| - 3])) ==> r == Success(ReplaceAll(path[..|path| - 3], '/', '.'))
  {
    if !EndsWith(path, ".js") then Failure(NonJsResource(path))
    else
      var moduleName := path[..|path| - 3];
      if StartsWith(moduleName, ThirdPartyJQueryPath) then
        assert moduleName[0] == ThirdPartyJQueryPath[0] == 's';
        Success(ThirdPartyJQueryName + moduleName[|ThirdPartyJQueryPath|..])
      else if IsDotLiteralName(moduleName) then Success(moduleName)
      else Success(ReplaceAll(moduleName, '/', '.'))
  }

  /**
   * A "jquery-" module keeps its slashes and dots both ways: "jquery-ui/core.js" is the
   * module "jquery-ui/core", not "jquery-ui.core".
   */
  lemma DotLiteralModuleKeepsSlashes(rest: string)
    ensures ToUI5LegacyName("jquery-" + rest + ".js") == Success("jquery-" + rest)
    ensures FromUI5LegacyName("jquery-" + rest, None) == Success("jquery-" + rest + ".js")
  {
    var path := "jquery-" + rest + ".js";
    assert path[..|path| - 3] == "jquery-" + rest;
    assert ("jquery-" + rest)[..7] == "jquery-";
  }

  /** The path form of the third-party prefix is the prefix with its dots replaced. */
  lemma ThirdPartyPrefixForms()
    ensures ReplaceAll(ThirdPartyJQueryName, '.', '/') == ThirdPartyJQueryPath
    ensures '/' !in ThirdPartyJQueryName
  {
    forall k | 0 <= k < |ThirdPartyJQueryName| ensures ThirdPartyJQueryName[k] != '/' {
    }
  }

  /** A name without "/" whose path form starts with the reserved path was a reserved name. */
  lemma {:induction false} ReservedPathComesFromReservedName(name: string)
    requires '/' !in name
    requires StartsWith(ReplaceAll(name, '.', '/'), ThirdPartyJQueryPath)
    ensures StartsWith(name, ThirdPartyJQueryName)
  {
    var n := |ThirdPartyJQueryName|;
    var head := name[..n];
    assert '/' !in head by { assert forall c :: c in head ==> c in name; }
    ThirdPartyPrefixForms();
    assert ReplaceAll(head, '.', '/') == ReplaceAll(name, '.', '/')[..n];
    ReplaceAllInjective(head, ThirdPartyJQueryName, '.', '/');
  }

  /** The path of a name that is not dot-literal converts back to the name. */
  lemma ReplacedNameRoundTrip(name: string)
    requires '/' !in name && !IsDotLiteralName(name)
    requires !StartsWith(name, ThirdPartyJQueryName)
    ensures ToUI5LegacyName(ReplaceAll(name, '.', '/') + ".js") == Success(name)
  {
    var moduleName := ReplaceAll(name, '.', '/');
    assert (moduleName + ".js")[..|moduleName|] == moduleName;
    if StartsWith(moduleName, ThirdPartyJQueryPath) {
      ReservedPathComesFromReservedName(name);
    }
    ReplaceAllUndone(name, '.', '/');
  }

  /**
   * Legacy name to path and back gives the name again, for every name without "/" that does
   * not start with the third-party jQuery prefix.
   */
  lemma LegacyNameRoundTrip(name: string)
    requires '/' !in name
    requires !StartsWith(name, ThirdPartyJQueryName)
    ensures FromUI5LegacyName(name, None).Success?
    ensures ToUI5LegacyName(FromUI5LegacyName(name, None).value) == Success(name)
  {
    if IsDotLiteralName(name) {
      assert (name + ".js")[..|name|] == name;
    } else {
      ReplacedNameRoundTrip(name);
    }
  }

  /** With the intended third-party branch the round trip holds for every name without "/". */
  lemma IntendedLegacyNameRoundTrip(name: string)
    requires '/' !in name
    ensures ToUI5LegacyName(IntendedFromUI5LegacyName(name, None)) == Success(name)
  {
    if StartsWith(name, ThirdPartyJQueryName) {
      var n := |ThirdPartyJQueryName|;
      var path := IntendedFromUI5LegacyName(name, None);
      assert path[..|path| - 3] == ThirdPartyJQueryPath + name[n..];
      assert (ThirdPartyJQueryPath + name[n..])[|ThirdPartyJQueryPath|..] == name[n..];
      assert name == ThirdPartyJQueryName + name[n..];
    } else {
      LegacyNameRoundTrip(name);
    }
  }

  /**
   * The defect: every third-party jQuery path converts to a legacy name, but converting that
   * name back raises instead of giving the path (for example "sap.ui.thirdparty.jquery.jquery-compat").
   */
  lemma ThirdPartyJQueryNameFails(tail: string, suffix: Option<string>)
    ensures ToUI5LegacyName(ThirdPartyJQueryPath + tail + ".js") == Success(ThirdPartyJQueryName + tail)
    ensures FromUI5LegacyName(ThirdPartyJQueryName + tail, suffix).Failure?
    ensures IntendedFromUI5LegacyName(ThirdPartyJQueryName + tail, None) == ThirdPartyJQueryPath + tail + ".js"
  {
    var n := |ThirdPartyJQueryName|;
    var path := ThirdPartyJQueryPath + tail + ".js";
    var moduleName := ThirdPartyJQueryPath + tail;
    assert path[..|path| - 3] == moduleName;
    assert moduleName[..n] == ThirdPartyJQueryPath;
    assert moduleName[n..] == tail;
    assert (ThirdPartyJQueryName + tail)[..n] == ThirdPartyJQueryName;
    assert (ThirdPartyJQueryName + tail)[n..] == tail;
  }

  // ---------------------------------------------------------------------------
  // RequireJS names

  function FromRequireJSName(name: string): (r: string)
    ensures |r| == |name| + 3 && EndsWith(r, ".js") && r[..|name|] == name
  {
    name + ".js"
  }

  /** toRequireJSName: the inverse of FromRequireJSName, defined on ".js" paths only. */
  function ToRequireJSName(path: string): (r: Result<string, NameError>)
    ensures r.Failure? <==> !EndsWith(path, ".js")
    ensures r.Success? ==> FromRequireJSName(r.value) == path
  {
    if !EndsWith(path, ".js") then Failure(NonJsResource(path)) else Success(path[..|path| - 3])
  }

  lemma RequireJSNameRoundTrip(name: string)
    ensures ToRequireJSName(FromRequireJSName(name)) == Success(name)
  {
    assert FromRequireJSName(name)[..|name|] == name;
  }

  // ---------------------------------------------------------------------------
  // Debug and non-debug names

  /**
   * The suffixes the KNOWN_TYPES expression accepts after its leading dot:
   * properties, css, an optional "view." or "fragment." before html, json, xml or js,
   * and an optional "controller." before js.
   */
  const KnownTypes: seq<string> := [
    ".properties", ".css",
    ".html", ".json", ".xml", ".js",
    ".view.html", ".view.json", ".view.xml", ".view.js",
    ".fragment.html", ".fragment.json", ".fragment.xml", ".fragment.js",
    ".controller.js"
  ]

  predicate IsKnownType(ext: string)
  {
    ext in KnownTypes
  }

  /** Every known type starts with a dot and contains no "-". */
  lemma KnownTypeShape(ext: string)
    requires IsKnownType(ext)
    ensures |ext| >= 3 && ext[0] == '.'
    ensures forall k :: 0 <= k < |ext| ==> ext[k] != '-'
  {
    var i :| 0 <= i < |KnownTypes| && KnownTypes[i] == ext;
  }

  /** The first position, from `i` on, at which the rest of `name` is a known type. */
  function KnownTypeMatchFrom(name: string, i: nat): (r: Option<nat>)
    requires i <= |name|
    ensures r.Some? ==> i <= r.value < |name| && IsKnownType(name[r.value..])
    ensures r.Some? ==> forall j :: i <= j < r.value ==> !IsKnownType(name[j..])
    ensures r.None? ==> forall j :: i <= j <= |name| ==> !IsKnownType(name[j..])
    decreases |name| - i
  {
    if i == |name| then None
    else if IsKnownType(name[i..]) then Some(i)
    else KnownTypeMatchFrom(name, i + 1)
  }

  /**
   * `KNOWN_TYPES.exec(name)`: the expression is anchored at the end, so it matches at index
   * i exactly when `name[i..]` is a known type, and exec reports the leftmost such index.
   */
  function KnownTypeMatch(name: string): (r: Option<nat>)
    ensures r.Some? ==> r.value < |name| && IsKnownType(name[r.value..])
    ensures r.Some? ==> forall j :: 0 <= j < r.value ==> !IsKnownType(name[j..])
    ensures r.None? ==> forall j :: 0 <= j <= |name| ==> !IsKnownType(name[j..])
  {
    KnownTypeMatchFrom(name, 0)
  }

  /** The leftmost known-type position is unique. */
  lemma KnownTypeMatchAt(name: string, i: nat)
    requires i < |name| && IsKnownType(name[i..])
    requires forall j :: 0 <= j < i ==> !IsKnownType(name[j..])
    ensures KnownTypeMatch(name) == Some(i)
  {
  }

  /** Only the ".css" and ".js" families have debug variants. */
  predicate HasDebugVariant(ext: string)
  {
    EndsWith(ext, ".css") || EndsWith(ext, ".js")
  }

  /** A suffix of a suffix of `name` is a suffix of `name`. */
  lemma EndsWithOfDrop(name: string, i: nat, suffix: string)
    requires i <= |name|
    ensures EndsWith(name[i..], suffix) ==> EndsWith(name, suffix)
  {
    if EndsWith(name[i..], suffix) {
      assert name[|name| - |suffix|..] == name[i..][|name| - i - |suffix|..];
    }
  }

  /** getDebugName: "-dbg" inserted before the leftmost known type of the ".css"/".js" family. */
  function GetDebugName(name: string): (r: Option<string>)
    ensures r.Some? ==> EndsWith(name, ".js") || EndsWith(name, ".css")
    ensures r.Some? ==> |r.value| == |name| + 4
    ensures r.Some? ==> KnownTypeMatch(name).Some?
    ensures r.Some? ==> var i := KnownTypeMatch(name).value; r.value == name[..i] + "-dbg" + name[i..]
  {
    match KnownTypeMatch(name)
    case None => None
    case Some(i) =>
      if HasDebugVariant(name[i..]) && !EndsWith(name[..i], "-dbg") then
        EndsWithOfDrop(name, i, ".js");
        EndsWithOfDrop(name, i, ".css");
        Some(name[..i] + "-dbg" + name[i..])
      else None
  }

  /** getNonDebugName: "-dbg" removed from before the leftmost known type of that family. */
  function GetNonDebugName(name: string): (r: Option<string>)
    ensures r.Some? ==> |r.value| + 4 == |name|
    ensures r.Some? ==> EndsWith(name, ".js") || EndsWith(name, ".css")
    ensures r.Some? ==> KnownTypeMatch(name).Some? && KnownTypeMatch(name).value >= 4
    ensures r.Some? ==> var i := KnownTypeMatch(name).value; r.value == name[..i - 4] + name[i..]
  {
    match KnownTypeMatch(name)
    case None => None
    case Some(i) =>
      if HasDebugVariant(name[i..]) && EndsWith(name[..i], "-dbg") then
        EndsWithOfDrop(name, i, ".js");
        EndsWithOfDrop(name, i, ".css");
        Some(name[..i - 4] + name[i..])
      else None
  }

  /** A known type behind a base without dots is the leftmost match. */
  lemma MatchAfterDotFreeBase(base: string, ext: string)
    requires '.' !in base && IsKnownType(ext)
    ensures KnownTypeMatch(base + ext) == Some(|base|)
  {
    var name := base + ext;
    assert name[|base|..] == ext;
    forall j | 0 <= j < |base| ensures !IsKnownType(name[j..]) {
      if IsKnownType(name[j..]) {
        KnownTypeShape(name[j..]);
      }
    }
    KnownTypeMatchAt(name, |base|);
  }

  /** After "-dbg" is inserted before a known type, that type is still the leftmost match. */
  lemma MatchAfterDebugMarker(base: string, ext: string)
    requires IsKnownType(ext)
    ensures KnownTypeMatch(base + "-dbg" + ext) == Some(|base| + 4)
  {
    var debug := base + "-dbg" + ext;
    var i := |base|;
    assert debug[i + 4..] == ext;
    assert debug[i] == '-';
    forall j | 0 <= j < i + 4 ensures !IsKnownType(debug[j..]) {
      if IsKnownType(debug[j..]) {
        KnownTypeShape(debug[j..]);
      }
    }
    KnownTypeMatchAt(debug, i + 4);
  }

  /**
   * A debug name maps back to the name it came from, and has no debug name of its own:
   * after the insertion the leftmost known type sits right behind "-dbg".
   */
  lemma DebugNameRoundTrip(name: string)
    requires GetDebugName(name).Some?
    ensures GetNonDebugName(GetDebugName(name).value) == Some(name)
    ensures GetDebugName(GetDebugName(name).value) == None
  {
    var i := KnownTypeMatch(name).value;
    var base, ext := name[..i], name[i..];
    var debug := base + "-dbg" + ext;
    assert GetDebugName(name).value == debug;
    MatchAfterDebugMarker(base, ext);
    assert debug[i + 4..] == ext;
    assert debug[..i + 4] == base + "-dbg";
    assert debug[..i] == base;
    assert base + ext == name;
  }

  /** A name ending in a known type has a match no later than that type. */
  lemma KnownTypeMatchNoLater(name: string, i: nat)
    requires i < |name| && IsKnownType(name[i..])
    ensures KnownTypeMatch(name).Some? && KnownTypeMatch(name).value <= i
  {
  }

  /** A ".js" or ".css" name always has a known type; its debug name is missing exactly when its base already ends in "-dbg". */
  lemma DebugNameOfScriptOrStyle(name: string)
    requires EndsWith(name, ".js") || EndsWith(name, ".css")
    ensures KnownTypeMatch(name).Some?
    ensures GetDebugName(name).None? <==> EndsWith(name[..KnownTypeMatch(name).value], "-dbg")
  {
    var end := if EndsWith(name, ".js") then 3 else 4;
    var tail := name[|name| - end..];
    assert IsKnownType(tail) by {
      assert KnownTypes[1] == ".css" && KnownTypes[5] == ".js";
    }
    KnownTypeMatchNoLater(name, |name| - end);
    var i := KnownTypeMatch(name).value;
    var ext := name[i..];
    assert ext[|ext| - end..] == tail;
    assert HasDebugVariant(ext);
  }

  /**
   * For a base without dots ahead of a known type, getDebugName inserts "-dbg" between them
   * exactly when the type is of the ".css"/".js" family and the base does not already end
   * in "-dbg"; getNonDebugName removes a "-dbg" found there.
   */
  lemma DebugNameOfDotFreeBase(base: string, ext: string)
    requires '.' !in base && IsKnownType(ext)
    ensures GetDebugName(base + ext)
            == if HasDebugVariant(ext) && !EndsWith(base, "-dbg") then Some(base + "-dbg" + ext) else None
    ensures GetNonDebugName(base + ext)
            == if HasDebugVariant(ext) && EndsWith(base, "-dbg") then Some(base[..|base| - 4] + ext) else None
  {
    MatchAfterDotFreeBase(base, ext);
    var name := base + ext;
    assert name[..|base|] == base && name[|base|..] == ext;
    if EndsWith(base, "-dbg") {
      assert name[..|base| - 4] == base[..|base| - 4];
    }
  }

  // ---------------------------------------------------------------------------
  // Relative paths

  /** A segment of one or more dots (SPECIAL_PATH_SEGMENT). */
  predicate IsDotSegment(segment: string)
  {
    |segment| > 0 && forall k :: 0 <= k < |segment| ==> segment[k] == '.'
  }

  /**
   * ANY_SPECIAL_PATH_SEGMENT matches: some dot-only segment is followed by "/", that is, it
   * is not the last segment.
   */
  predicate HasSpecialSegment(segments: seq<string>)
  {
    exists k :: 0 <= k < |segments| - 1 && IsDotSegment(segments[k])
  }

  /**
   * The match of ANY_SPECIAL_PATH_SEGMENT is at index 0: the path starts with a dot-only
   * segment and "/", or with "/", a dot-only segment and "/".
   */
  predicate LeadsWithSpecialSegment(segments: seq<string>)
  {
    || (|segments| > 1 && IsDotSegment(segments[0]))
    || (|segments| > 2 && segments[0] == "" && IsDotSegment(segments[1]))
  }

  /** The segment loop: "." is skipped, ".." pops or fails, longer dot runs fail, others push. */
  function ResolveSegments(stack: seq<string>, segments: seq<string>): Result<seq<string>, NameError>
    decreases |segments|
  {
    if segments == [] then Success(stack)
    else
      var segment := segments[0];
      if !IsDotSegment(segment) then ResolveSegments(stack + [segment], segments[1..])
      else if |segment| == 1 then ResolveSegments(stack, segments[1..])
      else if |segment| == 2 then
        if stack == [] then Failure(ParentOfRoot)
        else ResolveSegments(stack[..|stack| - 1], segments[1..])
      else Failure(IllegalSegment(segment))
  }

  /** The directory segments of `path` that seed the stack, when the reference leads with a dot segment. */
  function InitialSegments(path: string, segments: seq<string>): seq<string>
  {
    var p := LastIndexOf(path, '/');
    if LeadsWithSpecialSegment(segments) && p > 0 then Split(path[..p], '/') else []
  }

  /** What resolveRelativePath computes. */
  function ResolvedRelativePath(path: string, relativePath: string): Result<string, NameError>
  {
    var segments := Split(relativePath, '/');
    if !HasSpecialSegment(segments) then Success(relativePath)
    else
      match ResolveSegments(InitialSegments(path, segments), segments)
      case Success(stack) => Success(Join(stack, '/'))
      case Failure(e) => Failure(e)
  }

  /** resolveRelativePath: a stack of segments built by push and pop. */
  method ResolveRelativePath(path: string, relativePath: string) returns (r: Result<string, NameError>)
    ensures r == ResolvedRelativePath(path, relativePath)
  {
    var relativeSegments := Split(relativePath, '/');
    if !HasSpecialSegment(relativeSegments) {
      return Success(relativePath);
    }
    var segments: seq<string> := [];
    var p := LastIndexOf(path, '/');
    if LeadsWithSpecialSegment(relativeSegments) && p > 0 {
      segments := Split(path[..p], '/');
    }
    ghost var seed := segments;
    for i := 0 to |relativeSegments|
      invariant ResolveSegments(seed, relativeSegments) == ResolveSegments(segments, relativeSegments[i..])
    {
      var segment := relativeSegments[i];
      assert relativeSegments[i..][1..] == relativeSegments[i + 1..];
      if IsDotSegment(segment) {
        if |segment| == 1 {
          continue;
        } else if |segment| == 2 {
          if |segments| == 0 {
            return Failure(ParentOfRoot);
          }
          segments := segments[..|segments| - 1];
        } else {
          return Failure(IllegalSegment(segment));
        }
      } else {
        segments := segments + [segment];
      }
    }
    return Success(Join(segments, '/'));
  }

  /** resolveRelativeRequireJSName: resolution of the name with ".js" appended. */
  method ResolveRelativeRequireJSName(path: string, relativeName: string) returns (r: Result<string, NameError>)
    ensures r == ResolvedRelativePath(path, relativeName + ".js")
    ensures r.Success? ==> ToRequireJSName(r.value).Success?
  {
    r := ResolveRelativePath(path, relativeName + ".js");
    ResolvedRequireJSNameKeepsExtension(path, relativeName);
  }

  /** The number of segments a resolution pushes and the number of ".." it pops. */
  function Pushes(segments: seq<string>): nat
  {
    if segments == [] then 0
    else (if IsDotSegment(segments[0]) then 0 else 1) + Pushes(segments[1..])
  }

  function Pops(segments: seq<string>): nat
  {
    if segments == [] then 0
    else (if segments[0] == ".." then 1 else 0) + Pops(segments[1..])
  }

  /**
   * Resolution never clamps at the root: when it succeeds every ".." removed one entry, so
   * the result holds exactly the seed plus the pushed segments minus the pops.
   */
  lemma {:induction false} ResolutionNeverClamps(stack: seq<string>, segments: seq<string>)
    requires ResolveSegments(stack, segments).Success?
    ensures |ResolveSegments(stack, segments).value| + Pops(segments) == |stack| + Pushes(segments)
    decreases |segments|
  {
    if segments != [] {
      var segment := segments[0];
      if !IsDotSegment(segment) {
        assert segment != "..";
        ResolutionNeverClamps(stack + [segment], segments[1..]);
      } else if |segment| == 1 {
        assert segment != "..";
        ResolutionNeverClamps(stack, segments[1..]);
      } else {
        assert segment == ".." by { assert segment[0] == '.' && segment[1] == '.'; }
        ResolutionNeverClamps(stack[..|stack| - 1], segments[1..]);
      }
    }
  }

  /** A last segment that is not dot-only ends the resolved stack. */
  lemma {:induction false} ResolutionKeepsLastSegment(stack: seq<string>, segments: seq<string>)
    requires |segments| >= 1 && !IsDotSegment(segments[|segments| - 1])
    requires ResolveSegments(stack, segments).Success?
    ensures var out := ResolveSegments(stack, segments).value;
            |out| >= 1 && out[|out| - 1] == segments[|segments| - 1]
    decreases |segments|
  {
    var segment := segments[0];
    if |segments| == 1 {
      assert ResolveSegments(stack, segments) == ResolveSegments(stack + [segment], []);
    } else {
      var rest := segments[1..];
      assert rest[|rest| - 1] == segments[|segments| - 1];
      if !IsDotSegment(segment) {
        ResolutionKeepsLastSegment(stack + [segment], rest);
      } else if |segment| == 1 {
        ResolutionKeepsLastSegment(stack, rest);
      } else {
        ResolutionKeepsLastSegment(stack[..|stack| - 1], rest);
      }
    }
  }

  /** Resolving a RequireJS name yields a ".js" resource, so it converts back to a RequireJS name. */
  lemma ResolvedRequireJSNameKeepsExtension(path: string, relativeName: string)
    ensures var r := ResolvedRelativePath(path, relativeName + ".js");
            r.Success? ==> EndsWith(r.value, ".js")
  {
    var relativePath := relativeName + ".js";
    var segments := Split(relativePath, '/');
    SplitAppend(relativeName, ".js", '/');
    var last := segments[|segments| - 1];
    assert EndsWith(last, ".js");
    assert !IsDotSegment(last) by { assert last[|last| - 1] == 's'; }
    if HasSpecialSegment(segments) {
      var stack := ResolveSegments(InitialSegments(path, segments), segments);
      if stack.Success? {
        ResolutionKeepsLastSegment(InitialSegments(path, segments), segments);
        var out := stack.value;
        JoinEndsWithLast(out, '/');
        var joined := Join(out, '/');
        assert joined[|joined| - 3..] == last[|last| - 3..];
      }
    } else {
      assert relativePath[|relativePath| - 3..] == ".js";
    }
  }

  /** Without a leading dot segment the reference does not depend on the base path. */
  lemma NonLeadingReferenceIgnoresBase(path1: string, path2: string, relativePath: string)
    requires !LeadsWithSpecialSegment(Split(relativePath, '/'))
    ensures ResolvedRelativePath(path1, relativePath) == ResolvedRelativePath(path2, relativePath)
  {
  }

  /** A segment that is kept as it is: no "/" and not dot-only. */
  predicate IsPlainSegment(segment: string)
  {
    '/' !in segment && !IsDotSegment(segment)
  }

  /** The base path "dir/file" seeds the stack with the segments of `dir`. */
  lemma BaseDirectorySeed(directory: seq<string>, file: string, segments: seq<string>)
    requires |directory| >= 1 && Join(directory, '/') != ""
    requires forall k :: 0 <= k < |directory| ==> '/' !in directory[k]
    requires '/' !in file && LeadsWithSpecialSegment(segments)
    ensures InitialSegments(Join(directory, '/') + "/" + file, segments) == directory
  {
    var dir := Join(directory, '/');
    var path := dir + "/" + file;
    LastIndexOfBefore(dir, file, '/');
    assert path[..|dir|] == dir;
    SplitJoin(directory, '/');
  }

  /** Resolution against the base "dir/file" of a reference that leads with a dot-only segment. */
  lemma SeededResolution(directory: seq<string>, file: string, relativePath: string,
                         segments: seq<string>, out: seq<string>)
    requires |directory| >= 1 && Join(directory, '/') != ""
    requires forall k :: 0 <= k < |directory| ==> '/' !in directory[k]
    requires '/' !in file
    requires Split(relativePath, '/') == segments && |segments| > 1 && IsDotSegment(segments[0])
    requires ResolveSegments(directory, segments) == Success(out)
    ensures ResolvedRelativePath(Join(directory, '/') + "/" + file, relativePath) == Success(Join(out, '/'))
  {
    assert HasSpecialSegment(segments);
    BaseDirectorySeed(directory, file, segments);
  }

  /** The stack steps for "./name" and "../name". */
  lemma DotSteps(stack: seq<string>, name: string)
    requires !IsDotSegment(name)
    ensures ResolveSegments(stack, [".", name]) == Success(stack + [name])
    ensures |stack| >= 1 ==> ResolveSegments(stack, ["..", name]) == Success(stack[..|stack| - 1] + [name])
  {
    assert IsDotSegment(".") && IsDotSegment("..");
    assert [".", name][1..] == [name] && ["..", name][1..] == [name];
    assert ResolveSegments(stack, [name]) == ResolveSegments(stack + [name], []);
    if |stack| >= 1 {
      var parent := stack[..|stack| - 1];
      assert ResolveSegments(parent, [name]) == ResolveSegments(parent + [name], []);
    }
  }

  /**
   * A reference made of "." and a plain name resolves next to the base: with base
   * "a/b/c.js", "./d.js" becomes "a/b/d.js".
   */
  lemma CurrentDirectoryReference(directory: seq<string>, file: string, relativePath: string, name: string)
    requires |directory| >= 1 && Join(directory, '/') != ""
    requires forall k :: 0 <= k < |directory| ==> '/' !in directory[k]
    requires '/' !in file && !IsDotSegment(name) && Split(relativePath, '/') == [".", name]
    ensures ResolvedRelativePath(Join(directory, '/') + "/" + file, relativePath)
            == Success(Join(directory + [name], '/'))
  {
    DotSteps(directory, name);
    SeededResolution(directory, file, relativePath, [".", name], directory + [name]);
  }

  /**
   * A reference made of ".." and a plain name replaces the last directory segment of the
   * base: with base "a/b/c.js", "../d.js" becomes "a/d.js".
   */
  lemma ParentDirectoryReference(directory: seq<string>, file: string, relativePath: string, name: string)
    requires |directory| >= 1 && Join(directory, '/') != ""
    requires forall k :: 0 <= k < |directory| ==> '/' !in directory[k]
    requires '/' !in file && !IsDotSegment(name) && Split(relativePath, '/') == ["..", name]
    ensures ResolvedRelativePath(Join(directory, '/') + "/" + file, relativePath)
            == Success(Join(directory[..|directory| - 1] + [name], '/'))
  {
    DotSteps(directory, name);
    SeededResolution(directory, file, relativePath, ["..", name], directory[..|directory| - 1] + [name]);
  }

  /** A plain segment followed by ".." cancels out: "c/../d.js" resolves as "d.js" would. */
  lemma PushThenPopCancels(stack: seq<string>, segment: string, rest: seq<string>)
    requires !IsDotSegment(segment)
    ensures ResolveSegments(stack, [segment, ".."] + rest) == ResolveSegments(stack, rest)
  {
    var segments := [segment, ".."] + rest;
    assert segments[1..] == [".."] + rest;
    assert IsDotSegment("..");
    assert (stack + [segment])[..|stack|] == stack;
    assert ([".."] + rest)[1..] == rest;
  }

  /** `n` times "..". */
  function ParentSteps(n: nat): (r: seq<string>)
    ensures |r| == n && forall k :: 0 <= k < n ==> r[k] == ".."
  {
    if n == 0 then [] else [".."] + ParentSteps(n - 1)
  }

  /**
   * More ".." than the stack holds fails instead of stopping at the root: with base
   * "a/b/c.js", "../../../d.js" fails.
   */
  lemma {:induction false} PopPastRootFails(stack: seq<string>, rest: seq<string>)
    ensures ResolveSegments(stack, ParentSteps(|stack| + 1) + rest) == Failure(ParentOfRoot)
    decreases |stack|
  {
    var segments := ParentSteps(|stack| + 1) + rest;
    assert segments[0] == "..";
    assert IsDotSegment("..");
    if stack != [] {
      var shorter := stack[..|stack| - 1];
      assert segments[1..] == ParentSteps(|shorter| + 1) + rest;
      PopPastRootFails(shorter, rest);
    }
  }

  /**
   * A reference whose only dot-only segment is its last one is returned unchanged:
   * "foo/.." stays "foo/..".
   */
  lemma TrailingParentIsKept(path: string, segment: string)
    requires IsPlainSegment(segment)
    ensures ResolvedRelativePath(path, segment + "/..") == Success(segment + "/..")
  {
    assert Join([segment, ".."], '/') == segment + "/..";
    SplitJoin([segment, ".."], '/');
  }
}

/**
 * How a bundle section's filter list selects resources. The matcher itself belongs to the
 * module bundler, which is not part of this model; the semantics below is an assumption,
 * stated once here so that the properties of the filter lists can be stated against it:
 *
 *   - a filter starting with "!" excludes what its pattern matches, any other filter includes;
 *   - a pattern with a "*" matches the text before the star as a prefix and the text after
 *     it as a suffix, the star itself standing for a run of characters without "/";
 *   - a pattern ending in "/" matches every path below that directory;
 *   - any other pattern matches exactly one path;
 *   - the last filter that matches a path decides, and a path no filter matches is left out.
 */
module ResourceFilters {
  import opened Strings

  predicate IsExclusion(filter: string)
  {
    |filter| > 0 && filter[0] == '!'
  }

  /** The filter without its "!". */
  function Pattern(filter: string): (r: string)
    ensures IsExclusion(filter) ==> "!" + r == filter
    ensures !IsExclusion(filter) ==> r == filter
  {
    if IsExclusion(filter) then filter[1..] else filter
  }

  predicate PatternMatches(pattern: string, path: string)
  {
    if '*' in pattern then
      var star := IndexOf(pattern, '*');
      var prefix, suffix := pattern[..star], pattern[star + 1..];
      && |prefix| + |suffix| <= |path|
      && StartsWith(path, prefix) && EndsWith(path, suffix)
      && '/' !in path[|prefix|..|path| - |suffix|]
    else if EndsWith(pattern, "/") then StartsWith(path, pattern)
    else path == pattern
  }

  predicate Matches(filter: string, path: string)
  {
    PatternMatches(Pattern(filter), path)
  }

  /** What one filter says about one path: whether it matches, and whether it excludes. */
  datatype Verdict = Verdict(matched: bool, exclusion: bool)

  function Verdicts(filters: seq<string>, path: string): (r: seq<Verdict>)
    ensures |r| == |filters|
    ensures forall k :: 0 <= k < |filters| ==>
              r[k] == Verdict(Matches(filters[k], path), IsExclusion(filters[k]))
  {
    seq(|filters|, k requires 0 <= k < |filters| => Verdict(Matches(filters[k], path), IsExclusion(filters[k])))
  }

  /** The last matching verdict decides; no match means not selected. */
  predicate Decide(verdicts: seq<Verdict>)
    decreases |verdicts|
  {
    if verdicts == [] then false
    else
      var last := verdicts[|verdicts| - 1];
      if last.matched then !last.exclusion else Decide(verdicts[..|verdicts| - 1])
  }

  predicate Selected(filters: seq<string>, path: string)
  {
    Decide(Verdicts(filters, path))
  }

  predicate Decided(verdicts: seq<Verdict>, k: int)
  {
    0 <= k < |verdicts| && verdicts[k].matched && !verdicts[k].exclusion
    && forall j :: k < j < |verdicts| ==> !verdicts[j].matched
  }

  /** Selection holds exactly when some including verdict matches with no match after it. */
  lemma {:induction false} DecideByLastMatch(verdicts: seq<Verdict>)
    ensures Decide(verdicts) <==> exists k :: Decided(verdicts, k)
    decreases |verdicts|
  {
    if verdicts != [] {
      var n := |verdicts| - 1;
      var front := verdicts[..n];
      DecideByLastMatch(front);
      if verdicts[n].matched {
        if !verdicts[n].exclusion {
          assert Decided(verdicts, n);
        } else {
          forall k | 0 <= k < |verdicts| ensures !Decided(verdicts, k) {
          }
        }
      } else {
        if Decide(front) {
          var k :| Decided(front, k);
          assert Decided(verdicts, k);
        }
        if exists k :: Decided(verdicts, k) {
          var k :| Decided(verdicts, k);
          assert Decided(front, k);
        }
      }
    }
  }

  /** A filter list made of exclusions only never selects anything. */
  lemma ExclusionsNeverSelect(filters: seq<string>, path: string)
    requires forall k :: 0 <= k < |filters| ==> IsExclusion(filters[k])
    ensures !Selected(filters, path)
  {
    DecideByLastMatch(Verdicts(filters, path));
  }

  predicate AnyMatched(verdicts: seq<Verdict>)
  {
    exists k :: 0 <= k < |verdicts| && verdicts[k].matched
  }

  lemma {:induction false} DecideAppend(front: seq<Verdict>, back: seq<Verdict>)
    ensures Decide(front + back) == if AnyMatched(back) then Decide(back) else Decide(front)
    decreases |back|
  {
    if back == [] {
      assert front + back == front;
    } else {
      var n := |back| - 1;
      assert (front + back)[..|front + back| - 1] == front + back[..n];
      DecideAppend(front, back[..n]);
      if !back[n].matched {
        if AnyMatched(back) {
          var k :| 0 <= k < |back| && back[k].matched;
          assert back[..n][k].matched;
        }
      }
    }
  }

  /**
   * Filters appended to a list take over every path they match: the front decides only
   * the paths none of them matches.
   */
  lemma SelectedAppend(front: seq<string>, back: seq<string>, path: string)
    ensures Selected(front + back, path)
            == if exists k :: 0 <= k < |back| && Matches(back[k], path)
               then Selected(back, path) else Selected(front, path)
  {
    var vs := Verdicts(back, path);
    assert Verdicts(front + back, path) == Verdicts(front, path) + vs;
    DecideAppend(Verdicts(front, path), vs);
    if AnyMatched(vs) {
      var k :| 0 <= k < |vs| && vs[k].matched;
      assert Matches(back[k], path);
    }
  }
}

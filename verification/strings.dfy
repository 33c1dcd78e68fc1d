/**
 * The few JavaScript string operations the modelled code relies on, on `seq<char>`:
 * `startsWith`, `endsWith`, a global single-character `replace`, `split` and `join`
 * with a one-character separator, `indexOf` and `lastIndexOf`, and the line terminators
 * that a regular-expression `.` does not match.
 */
module Strings {

  predicate StartsWith(s: string, prefix: string)
  {
    |prefix| <= |s| && s[..|prefix|] == prefix
  }

  predicate EndsWith(s: string, suffix: string)
  {
    |suffix| <= |s| && s[|s| - |suffix|..] == suffix
  }

  /** The characters a regular-expression `.` does not match in JavaScript. */
  predicate IsLineTerminator(c: char)
  {
    c == '\n' || c == '\r' || c == '\U{2028}' || c == '\U{2029}'
  }

  predicate HasLineTerminator(s: string)
  {
    exists k :: 0 <= k < |s| && IsLineTerminator(s[k])
  }

  /** `c` with `from` replaced by `to`. */
  function Swap(c: char, from: char, to: char): char
  {
    if c == from then to else c
  }

  /** `s.replace(/x/g, y)` for single characters x and y: every `from` becomes `to`. */
  function ReplaceAll(s: string, from: char, to: char): (r: string)
    ensures |r| == |s|
    ensures forall k :: 0 <= k < |s| ==> r[k] == Swap(s[k], from, to)
  {
    seq(|s|, k requires 0 <= k < |s| => Swap(s[k], from, to))
  }

  /** A character occurs in a concatenation exactly when it occurs in one of its parts. */
  lemma NotInConcat(a: string, b: string, c: char)
    ensures c in a + b <==> c in a || c in b
  {
    if c in a + b {
      var k :| 0 <= k < |a + b| && (a + b)[k] == c;
      if k < |a| { assert a[k] == c; } else { assert b[k - |a|] == c; }
    }
    if c in a {
      var k :| 0 <= k < |a| && a[k] == c;
      assert (a + b)[k] == c;
    }
    if c in b {
      var k :| 0 <= k < |b| && b[k] == c;
      assert (a + b)[|a| + k] == c;
    }
  }

  /** Replacing `from` by `to` and back is the identity on strings that held no `to`. */
  lemma ReplaceAllUndone(s: string, from: char, to: char)
    requires to !in s
    ensures ReplaceAll(ReplaceAll(s, from, to), to, from) == s
  {
    var once := ReplaceAll(s, from, to);
    var twice := ReplaceAll(once, to, from);
    assert |twice| == |s|;
    forall k | 0 <= k < |s| ensures twice[k] == s[k] {
      assert s[k] != to by { assert s[k] in s; }
    }
  }

  /** Replacement is injective on strings that held no `to`. */
  lemma ReplaceAllInjective(s: string, t: string, from: char, to: char)
    requires to !in s && to !in t
    requires ReplaceAll(s, from, to) == ReplaceAll(t, from, to)
    ensures s == t
  {
    ReplaceAllUndone(s, from, to);
    ReplaceAllUndone(t, from, to);
  }

  /** `s.split(sep)`: the pieces between occurrences of `sep`, at least one piece. */
  function Split(s: string, sep: char): (r: seq<string>)
    ensures |r| >= 1
    ensures forall k :: 0 <= k < |r| ==> sep !in r[k]
    decreases |s|
  {
    if s == [] then [""]
    else
      var rest := Split(s[1..], sep);
      if s[0] == sep then [""] + rest else [[s[0]] + rest[0]] + rest[1..]
  }

  /** `parts.join(sep)`. */
  function Join(parts: seq<string>, sep: char): string
  {
    if |parts| == 0 then ""
    else if |parts| == 1 then parts[0]
    else parts[0] + [sep] + Join(parts[1..], sep)
  }

  /** Splitting the join of separator-free pieces gives the pieces back. */
  lemma {:induction false} SplitJoin(parts: seq<string>, sep: char)
    requires |parts| >= 1
    requires forall k :: 0 <= k < |parts| ==> sep !in parts[k]
    ensures Split(Join(parts, sep), sep) == parts
    decreases |parts|, |parts[0]|
  {
    var first := parts[0];
    if first == [] {
      if |parts| > 1 {
        SplitJoin(parts[1..], sep);
        assert Join(parts, sep) == [sep] + Join(parts[1..], sep);
        assert ([sep] + Join(parts[1..], sep))[1..] == Join(parts[1..], sep);
      }
    } else {
      var shorter := [first[1..]] + parts[1..];
      assert first[0] != sep by { assert first[0] in first; }
      forall k | 0 <= k < |shorter| ensures sep !in shorter[k] {
        if k == 0 {
          assert forall c :: c in first[1..] ==> c in first;
        } else {
          assert shorter[k] == parts[k];
        }
      }
      SplitJoin(shorter, sep);
      var joined := Join(parts, sep);
      if |parts| == 1 {
        assert joined == first;
        assert shorter == [first[1..]];
      } else {
        assert joined == first + [sep] + Join(parts[1..], sep);
        assert Join(shorter, sep) == first[1..] + [sep] + Join(parts[1..], sep);
      }
      assert joined == [first[0]] + Join(shorter, sep);
      assert joined[1..] == Join(shorter, sep);
      var rest := Split(joined[1..], sep);
      assert rest == shorter;
      assert Split(joined, sep) == [[first[0]] + rest[0]] + rest[1..];
      assert [first[0]] + first[1..] == first;
      assert [first] + parts[1..] == parts;
    }
  }

  /** The last piece of a split grows by whatever separator-free text is appended. */
  lemma {:induction false} SplitAppend(s: string, t: string, sep: char)
    requires sep !in t
    ensures var pieces := Split(s, sep);
            Split(s + t, sep) == pieces[..|pieces| - 1] + [pieces[|pieces| - 1] + t]
    decreases |s|
  {
    if s == [] {
      assert s + t == t;
      SplitOfSeparatorFree(t, sep);
    } else {
      assert (s + t)[1..] == s[1..] + t;
      SplitAppend(s[1..], t, sep);
      var rest := Split(s[1..], sep);
      var n := |rest|;
      if s[0] == sep {
        assert ([""] + rest)[..n] == [""] + rest[..n - 1];
      } else if n == 1 {
        assert [s[0]] + rest[0] + t == [s[0]] + (rest[0] + t);
      } else {
        var pieces := [[s[0]] + rest[0]] + rest[1..];
        assert pieces[..n - 1] == [[s[0]] + rest[0]] + rest[1..n - 1];
        assert rest[..n - 1] == [rest[0]] + rest[1..n - 1];
      }
    }
  }

  /** A string without the separator splits into itself. */
  lemma {:induction false} SplitOfSeparatorFree(t: string, sep: char)
    requires sep !in t
    ensures Split(t, sep) == [t]
    decreases |t|
  {
    if t != [] {
      assert t[0] in t;
      assert forall c :: c in t[1..] ==> c in t;
      SplitOfSeparatorFree(t[1..], sep);
      assert [t[0]] + t[1..] == t;
    }
  }

  /** The join of a non-empty list ends with its last piece. */
  lemma {:induction false} JoinEndsWithLast(parts: seq<string>, sep: char)
    requires |parts| >= 1
    ensures EndsWith(Join(parts, sep), parts[|parts| - 1])
    decreases |parts|
  {
    if |parts| > 1 {
      JoinEndsWithLast(parts[1..], sep);
      var tail := Join(parts[1..], sep);
      var whole := parts[0] + [sep] + tail;
      assert whole[|whole| - |tail|..] == tail;
      var last := parts[|parts| - 1];
      assert tail[|tail| - |last|..] == last;
      assert whole[|whole| - |last|..] == tail[|tail| - |last|..];
    }
  }

  /** `s.lastIndexOf(c)`, -1 when `c` does not occur. */
  function LastIndexOf(s: string, c: char): (r: int)
    ensures -1 <= r < |s|
    ensures r >= 0 ==> s[r] == c
    ensures forall j :: r < j < |s| ==> s[j] != c
  {
    if s == [] then -1
    else if s[|s| - 1] == c then |s| - 1
    else LastIndexOf(s[..|s| - 1], c)
  }

  /** The last occurrence of `c` in `a + [c] + b` is the one between them when `b` holds none. */
  lemma LastIndexOfBefore(a: string, b: string, c: char)
    requires c !in b
    ensures LastIndexOf(a + [c] + b, c) == |a|
  {
    var s := a + [c] + b;
    var r := LastIndexOf(s, c);
    assert s[|a|] == c;
  }

  /** `s.indexOf(c)` for a character known to occur. */
  function IndexOf(s: string, c: char): (r: nat)
    requires c in s
    ensures r < |s| && s[r] == c
    ensures forall j :: 0 <= j < r ==> s[j] != c
  {
    if s[0] == c then 0 else IndexOf(s[1..], c) + 1
  }
}

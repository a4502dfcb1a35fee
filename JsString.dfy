/**
  The JavaScript string operations the relay and the chat clients rely on, with the
  language's own edge cases: `substring` clamps and swaps its bounds, `indexOf` answers -1
  when the pattern is absent, `split(sep).pop()` yields the text after the last separator,
  `trim` strips the ECMAScript white space and line terminators, and a string is falsy
  exactly when it is empty (or null/undefined).

  A string here is a sequence of Unicode code points, whereas JavaScript indexes and
  measures strings in UTF-16 code units: the two agree on text inside the Basic
  Multilingual Plane, and positions and lengths differ once a character needs a surrogate
  pair.
*/
module JsString {
  import opened Wrappers

  function Min(a: int, b: int): int { if a <= b then a else b }
  function Max(a: int, b: int): int { if a <= b then b else a }

  /** `substring` clamps each bound into [0, |s|]. */
  function Clamp(x: int, len: nat): (r: nat)
    ensures r <= len
  {
    if x < 0 then 0 else if x > len then len else x
  }

  /** `s.substring(start, end)`: both bounds clamped, swapped when start > end. */
  function Substring(s: string, start: int, end: int): string
  {
    var a, b := Clamp(start, |s|), Clamp(end, |s|);
    s[Min(a, b)..Max(a, b)]
  }

  lemma SubstringInRange(s: string, a: int, b: int)
    requires 0 <= a <= b <= |s|
    ensures Substring(s, a, b) == s[a..b]
  {
  }

  lemma SubstringSwapped(s: string, a: int, b: int)
    ensures Substring(s, a, b) == Substring(s, b, a)
  {
  }

  /** A bound past the end of `s` behaves as |s|, a negative one as 0. */
  lemma SubstringPrefix(s: string, n: int)
    ensures n <= 0 ==> Substring(s, 0, n) == ""
    ensures 0 <= n <= |s| ==> Substring(s, 0, n) == s[..n]
    ensures |s| <= n ==> Substring(s, 0, n) == s
  {
  }

  predicate OccursAt(s: string, pat: string, i: int)
  {
    0 <= i && i + |pat| <= |s| && s[i..i + |pat|] == pat
  }

  predicate StartsWith(s: string, prefix: string)
  {
    OccursAt(s, prefix, 0)
  }

  /** `s.indexOf(pat, from)` for 0 <= from: the first occurrence at or after `from`. */
  function IndexFrom(s: string, pat: string, from: nat): (r: int)
    ensures r == -1 || (from <= r && r + |pat| <= |s|)
    decreases |s| - from
  {
    if from + |pat| > |s| then -1
    else if s[from..from + |pat|] == pat then from
    else IndexFrom(s, pat, from + 1)
  }

  /** IndexFrom skips no occurrence: none lies between `from` and its answer (or after `from` at all, for -1). */
  lemma {:induction false} IndexFromIsFirst(s: string, pat: string, from: nat, j: int)
    requires from <= j && (IndexFrom(s, pat, from) == -1 || j < IndexFrom(s, pat, from))
    ensures !OccursAt(s, pat, j)
    decreases |s| - from
  {
    if from + |pat| <= |s| && s[from..from + |pat|] != pat && from < j {
      IndexFromIsFirst(s, pat, from + 1, j);
    }
  }

  /** What IndexFrom answers, other than -1, is an occurrence. */
  lemma {:induction false} IndexFromOccurs(s: string, pat: string, from: nat)
    ensures IndexFrom(s, pat, from) == -1 || OccursAt(s, pat, IndexFrom(s, pat, from))
    decreases |s| - from
  {
    if from + |pat| <= |s| && s[from..from + |pat|] != pat {
      IndexFromOccurs(s, pat, from + 1);
    }
  }

  /** `s.indexOf(pat)`: the first occurrence of `pat` in `s`, or -1. */
  function IndexOf(s: string, pat: string): (r: int)
    ensures r == -1 || (0 <= r && r + |pat| <= |s|)
  {
    IndexFrom(s, pat, 0)
  }

  /** -1 exactly when `pat` does not occur, and otherwise the answer is the first occurrence. */
  lemma IndexOfIsFirst(s: string, pat: string)
    ensures IndexOf(s, pat) != -1 ==> OccursAt(s, pat, IndexOf(s, pat))
    ensures IndexOf(s, pat) == -1 <==> forall j {:trigger OccursAt(s, pat, j)} :: !OccursAt(s, pat, j)
    ensures forall j {:trigger OccursAt(s, pat, j)} :: j < IndexOf(s, pat) ==> !OccursAt(s, pat, j)
  {
    IndexFromOccurs(s, pat, 0);
    forall j | 0 <= j && (IndexOf(s, pat) == -1 || j < IndexOf(s, pat))
      ensures !OccursAt(s, pat, j)
    {
      IndexFromIsFirst(s, pat, 0, j);
    }
  }

  /** When the first character of `pat` does not occur in `a`, the first match in a + pat + b is right after `a`. */
  lemma IndexOfAfterPrefix(a: string, pat: string, b: string)
    requires pat != [] && pat[0] !in a
    ensures IndexOf(a + pat + b, pat) == |a|
  {
    var s := a + pat + b;
    IndexFromOccurs(s, pat, 0);
    assert s[|a|..|a| + |pat|] == pat;
    forall j | 0 <= j < |a|
      ensures !OccursAt(s, pat, j)
    {
      if j + |pat| <= |s| {
        assert s[j..j + |pat|][0] == a[j];
      }
    }
    var r := IndexOf(s, pat);
    if r == -1 || |a| < r {
      IndexFromIsFirst(s, pat, 0, |a|);
    }
  }

  /** No match is found from `from` on when the first character of `pat` does not occur there. */
  lemma {:induction false} IndexFromAbsent(s: string, pat: string, from: nat)
    requires pat != [] && forall j :: from <= j < |s| ==> s[j] != pat[0]
    ensures IndexFrom(s, pat, from) == -1
    decreases |s| - from
  {
    if from + |pat| <= |s| {
      assert s[from..from + |pat|][0] == s[from];
      IndexFromAbsent(s, pat, from + 1);
    }
  }

  /** Where IndexFrom finds nothing from `k` on, the rest `s[k..]` holds no occurrence. */
  lemma NoneAfter(s: string, pat: string, k: nat)
    requires k <= |s| && IndexFrom(s, pat, k) == -1
    ensures IndexOf(s[k..], pat) == -1
  {
    var t := s[k..];
    IndexFromOccurs(t, pat, 0);
    var r := IndexOf(t, pat);
    if r != -1 {
      assert t[r..r + |pat|] == s[k + r..k + r + |pat|];
      IndexFromIsFirst(s, pat, k, k + r);
    }
  }

  /** `t` is a trailing part of `s`. */
  predicate IsSuffix(t: string, s: string)
  {
    |t| <= |s| && t == s[|s| - |t|..]
  }

  /** A trailing part of `s[k..]` is a trailing part of `s`. */
  lemma SuffixOfDrop(s: string, k: nat, t: string)
    requires k <= |s| && IsSuffix(t, s[k..])
    ensures IsSuffix(t, s)
  {
    assert s[k..][|s| - k - |t|..] == s[|s| - |t|..];
  }

  /** The pieces of `s[from..]` between successive matches of `sep`, left to right. */
  function SplitFrom(s: string, sep: string, from: nat): (parts: seq<string>)
    requires sep != [] && from <= |s|
    ensures |parts| >= 1
    decreases |s| - from
  {
    var i := IndexFrom(s, sep, from);
    if i == -1 then [s[from..]] else [s[from..i]] + SplitFrom(s, sep, i + |sep|)
  }

  /** `s.split(sep)` for a non-empty separator. */
  function Split(s: string, sep: string): (parts: seq<string>)
    requires sep != []
    ensures |parts| >= 1
  {
    SplitFrom(s, sep, 0)
  }

  /** `parts.join(sep)`, the inverse of Split. */
  function Join(parts: seq<string>, sep: string): string
    requires |parts| >= 1
  {
    if |parts| == 1 then parts[0] else parts[0] + sep + Join(parts[1..], sep)
  }

  lemma JoinCons(head: string, tail: seq<string>, sep: string)
    requires |tail| >= 1
    ensures Join([head] + tail, sep) == head + sep + Join(tail, sep)
  {
    assert ([head] + tail)[1..] == tail;
  }

  /** Re-inserting a match between the text before and after it gives back `s[from..]`. */
  lemma Reinsert(s: string, pat: string, from: nat, i: int)
    requires from <= i && OccursAt(s, pat, i)
    ensures s[from..] == s[from..i] + pat + s[i + |pat|..]
  {
    assert s[from..] == s[from..i] + s[i..i + |pat|] + s[i + |pat|..];
  }

  lemma {:induction false} JoinSplitFrom(s: string, sep: string, from: nat)
    requires sep != [] && from <= |s|
    ensures Join(SplitFrom(s, sep, from), sep) == s[from..]
    decreases |s| - from
  {
    var i := IndexFrom(s, sep, from);
    if i != -1 {
      var next := i + |sep|;
      var tail := SplitFrom(s, sep, next);
      assert SplitFrom(s, sep, from) == [s[from..i]] + tail;
      JoinSplitFrom(s, sep, next);
      JoinCons(s[from..i], tail, sep);
      IndexFromOccurs(s, sep, from);
      Reinsert(s, sep, from, i);
    }
  }

  /** Splitting and joining back with the same separator gives the original string. */
  lemma JoinSplit(s: string, sep: string)
    requires sep != []
    ensures Join(Split(s, sep), sep) == s
  {
    JoinSplitFrom(s, sep, 0);
    assert s[0..] == s;
  }

  /** Where the last piece of `s[from..]` starts: just after the last match, or at `from` if none. */
  function LastStart(s: string, sep: string, from: nat): (k: nat)
    requires sep != [] && from <= |s|
    ensures from <= k <= |s|
    decreases |s| - from
  {
    var i := IndexFrom(s, sep, from);
    if i == -1 then from else LastStart(s, sep, i + |sep|)
  }

  /** No match starts at or after LastStart. */
  lemma {:induction false} LastStartNoMatch(s: string, sep: string, from: nat)
    requires sep != [] && from <= |s|
    ensures IndexFrom(s, sep, LastStart(s, sep, from)) == -1
    decreases |s| - from
  {
    var i := IndexFrom(s, sep, from);
    if i == -1 {
      assert LastStart(s, sep, from) == from;
    } else {
      var next := i + |sep|;
      LastStartNoMatch(s, sep, next);
      assert LastStart(s, sep, from) == LastStart(s, sep, next);
    }
  }

  /** LastStart is `from` or sits right after a match. */
  lemma {:induction false} LastStartAfterMatch(s: string, sep: string, from: nat)
    requires sep != [] && from <= |s|
    ensures var k := LastStart(s, sep, from); k == from || OccursAt(s, sep, k - |sep|)
    decreases |s| - from
  {
    var i := IndexFrom(s, sep, from);
    if i != -1 {
      var next := i + |sep|;
      assert LastStart(s, sep, from) == LastStart(s, sep, next);
      LastStartAfterMatch(s, sep, next);
      if LastStart(s, sep, next) == next {
        IndexFromOccurs(s, sep, from);
      }
    }
  }

  /** `s.split(sep).pop()`: the text after the last match, or all of `s` if there is none. */
  function AfterLast(s: string, sep: string): string
    requires sep != []
  {
    s[LastStart(s, sep, 0)..]
  }

  /** AfterLast ends `s`, holds no match, and is all of `s` or comes right after a match. */
  lemma AfterLastShape(s: string, sep: string)
    requires sep != []
    ensures var r := AfterLast(s, sep);
            && IsSuffix(r, s)
            && IndexOf(r, sep) == -1
            && (|r| == |s| || OccursAt(s, sep, |s| - |r| - |sep|))
  {
    var k := LastStart(s, sep, 0);
    LastStartNoMatch(s, sep, 0);
    LastStartAfterMatch(s, sep, 0);
    NoneAfter(s, sep, k);
  }

  lemma {:induction false} LastPieceFrom(s: string, sep: string, from: nat)
    requires sep != [] && from <= |s|
    ensures var parts := SplitFrom(s, sep, from); parts[|parts| - 1] == s[LastStart(s, sep, from)..]
    decreases |s| - from
  {
    var i := IndexFrom(s, sep, from);
    if i != -1 {
      var next := i + |sep|;
      LastPieceFrom(s, sep, next);
      var tail := SplitFrom(s, sep, next);
      var parts := [s[from..i]] + tail;
      assert SplitFrom(s, sep, from) == parts;
      assert parts[|parts| - 1] == tail[|tail| - 1];
      assert LastStart(s, sep, from) == LastStart(s, sep, next);
    }
  }

  /** AfterLast is the last piece of the split, as `pop` returns it. */
  lemma AfterLastIsLastPiece(s: string, sep: string)
    requires sep != []
    ensures var parts := Split(s, sep); AfterLast(s, sep) == parts[|parts| - 1]
  {
    LastPieceFrom(s, sep, 0);
  }

  /** When the separator's first character does not occur in `a` or `b`, the last piece of a + sep + b is `b`. */
  lemma AfterLastOfJoined(a: string, sep: string, b: string)
    requires sep != [] && sep[0] !in a && sep[0] !in b
    ensures AfterLast(a + sep + b, sep) == b
  {
    var s := a + sep + b;
    IndexOfAfterPrefix(a, sep, b);
    var k := |a| + |sep|;
    assert s[k..] == b;
    forall j | k <= j < |s|
      ensures s[j] != sep[0]
    {
      assert s[j] == b[j - k];
    }
    IndexFromAbsent(s, sep, k);
    assert LastStart(s, sep, 0) == LastStart(s, sep, k) == k;
  }

  /** WhiteSpace and LineTerminator code points that ECMAScript's `trim` removes. */
  predicate IsJsWhitespace(c: char)
  {
    var n := c as int;
    || 9 <= n <= 13                    // \t \n \v \f \r
    || n == 0x20 || n == 0xA0 || n == 0x1680
    || 0x2000 <= n <= 0x200A
    || n == 0x2028 || n == 0x2029 || n == 0x202F || n == 0x205F || n == 0x3000
    || n == 0xFEFF
  }

  /** `s` without its leading white space. */
  function TrimStart(s: string): string
  {
    if s != [] && IsJsWhitespace(s[0]) then TrimStart(s[1..]) else s
  }

  /** `s` without its trailing white space. */
  function TrimEnd(s: string): string
  {
    if s != [] && IsJsWhitespace(s[|s| - 1]) then TrimEnd(s[..|s| - 1]) else s
  }

  /** TrimStart removes a prefix made only of white space and stops at the first other character. */
  lemma {:induction false} TrimStartShape(s: string)
    ensures var r := TrimStart(s);
            && IsSuffix(r, s)
            && (r == [] || !IsJsWhitespace(r[0]))
            && forall i :: 0 <= i < |s| - |r| ==> IsJsWhitespace(s[i])
  {
    if s != [] && IsJsWhitespace(s[0]) {
      TrimStartShape(s[1..]);
      SuffixOfDrop(s, 1, TrimStart(s[1..]));
    }
  }

  /** TrimEnd removes a suffix made only of white space and stops at the last other character. */
  lemma {:induction false} TrimEndShape(s: string)
    ensures var r := TrimEnd(s);
            && |r| <= |s| && r == s[..|r|]
            && (r == [] || !IsJsWhitespace(r[|r| - 1]))
            && forall i :: |r| <= i < |s| ==> IsJsWhitespace(s[i])
  {
    if s != [] && IsJsWhitespace(s[|s| - 1]) {
      TrimEndShape(s[..|s| - 1]);
    }
  }

  /** `s.trim()`. */
  function Trim(s: string): string
  {
    TrimEnd(TrimStart(s))
  }

  /** `!s.trim()`: the string is empty after trimming. */
  predicate IsBlank(s: string)
  {
    Trim(s) == ""
  }

  /** A string is blank exactly when every character of it is white space. */
  lemma BlankIffAllWhitespace(s: string)
    ensures IsBlank(s) <==> forall i :: 0 <= i < |s| ==> IsJsWhitespace(s[i])
  {
    var t := TrimStart(s);
    TrimStartShape(s);
    TrimEndShape(t);
    if !IsBlank(s) {
      var r := Trim(s);
      assert r != [] && r[0] == t[0];
      assert t[0] == s[|s| - |t|];
    }
  }

  /** JavaScript truthiness of a string that may be null or undefined. */
  predicate Truthy(s: Option<string>)
  {
    s.Some? && s.value != ""
  }
}

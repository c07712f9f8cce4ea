/**
 * The parts of Rust's `str` API that the core uses, over strings as sequences of Unicode
 * scalar values. Every function is specified by what its result is, not how it is computed;
 * indices are character positions (the callers only ever slice at ASCII markers, where
 * character and byte positions pick out the same text).
 */
module Text {
  import opened Wrappers

  /** `char::is_whitespace`: the Unicode White_Space property. */
  predicate IsWhitespace(c: char) {
    c == ' ' || ('\t' <= c <= '\r') || c == '\U{85}' || c == '\U{A0}' || c == '\U{1680}'
    || ('\U{2000}' <= c <= '\U{200A}') || c == '\U{2028}' || c == '\U{2029}'
    || c == '\U{202F}' || c == '\U{205F}' || c == '\U{3000}'
  }

  predicate StartsWith(s: string, prefix: string) {
    prefix <= s
  }

  predicate EndsWith(s: string, suffix: string) {
    |suffix| <= |s| && s[|s| - |suffix|..] == suffix
  }

  /** `pat` occurs in `s` starting at position `i`. */
  predicate OccursAt(s: string, pat: string, i: int) {
    0 <= i && i + |pat| <= |s| && s[i..i + |pat|] == pat
  }

  predicate Contains(s: string, pat: string) {
    exists i :: 0 <= i <= |s| && OccursAt(s, pat, i)
  }

  /** A slice of a slice is a slice of the whole. */
  lemma SliceOfSlice(s: string, i: nat, j: nat, k: nat, l: nat)
    requires i <= j <= |s| && k <= l <= j - i
    ensures s[i..j][k..l] == s[i + k..i + l]
  {
    var u := s[i..j][k..l];
    var v := s[i + k..i + l];
    forall m | 0 <= m < |u|
      ensures u[m] == v[m]
    {
      assert u[m] == s[i..j][k + m] == s[i + k + m];
    }
  }

  /** A slice of a prefix of a suffix is a slice of the whole. */
  lemma SliceChain(s: string, u: string, t: string, r: string, p: nat, k: nat)
    requires p <= |s| && u == s[p..] && |t| <= |u| && t == u[..|t|] && k + |r| <= |t| && r == t[k..k + |r|]
    ensures p + k + |r| <= |s| && r == s[p + k..p + k + |r|]
  {
    PrefixOfSuffix(s, p, u, t);
    SliceOfSlice(s, p, p + |t|, k, k + |r|);
  }

  /** A text without `pat` has no slice with `pat`. */
  lemma AbsentFromSlice(s: string, a: nat, b: nat, pat: string)
    requires a <= b <= |s| && !Contains(s, pat)
    ensures !Contains(s[a..b], pat)
  {
    forall j | 0 <= j <= b - a
      ensures !OccursAt(s[a..b], pat, j)
    {
      if j + |pat| <= b - a {
        var u := s[a..b];
        var v := u[j..j + |pat|];
        var w := s[a + j..a + j + |pat|];
        forall m | 0 <= m < |pat|
          ensures v[m] == w[m]
        {
          assert u[j + m] == s[a + j + m];
        }
        assert v == w;
        assert !OccursAt(s, pat, a + j);
      }
    }
  }

  /** The first position at or after `i` that does not hold whitespace, or `|s|`. */
  function SkipWhitespace(s: string, i: nat): (j: nat)
    requires i <= |s|
    ensures i <= j <= |s| && (j == |s| || !IsWhitespace(s[j]))
    decreases |s| - i
  {
    if i < |s| && IsWhitespace(s[i]) then SkipWhitespace(s, i + 1) else i
  }

  /** The last position at or before `j` not preceded by whitespace, or 0. */
  function BackWhitespace(s: string, j: nat): (i: nat)
    requires j <= |s|
    ensures i <= j && (i == 0 || !IsWhitespace(s[i - 1]))
  {
    if j > 0 && IsWhitespace(s[j - 1]) then BackWhitespace(s, j - 1) else j
  }

  /** The first position at or after `i` that does not hold `c`, or `|s|`. */
  function SkipChar(s: string, c: char, i: nat): (j: nat)
    requires i <= |s|
    ensures i <= j <= |s| && (j == |s| || s[j] != c)
    decreases |s| - i
  {
    if i < |s| && s[i] == c then SkipChar(s, c, i + 1) else i
  }

  /** The last position at or before `j` not preceded by `c`, or 0. */
  function BackChar(s: string, c: char, j: nat): (i: nat)
    requires j <= |s|
    ensures i <= j && (i == 0 || s[i - 1] != c)
  {
    if j > 0 && s[j - 1] == c then BackChar(s, c, j - 1) else j
  }

  /** Everything skipped is whitespace. */
  lemma {:induction false} SkipWhitespaceCut(s: string, i: nat)
    requires i <= |s|
    ensures forall k :: i <= k < SkipWhitespace(s, i) ==> IsWhitespace(s[k])
    decreases |s| - i
  {
    if i < |s| && IsWhitespace(s[i]) {
      SkipWhitespaceCut(s, i + 1);
    }
  }

  /** Everything stepped back over is whitespace. */
  lemma {:induction false} BackWhitespaceCut(s: string, j: nat)
    requires j <= |s|
    ensures forall k :: BackWhitespace(s, j) <= k < j ==> IsWhitespace(s[k])
  {
    if j > 0 && IsWhitespace(s[j - 1]) {
      BackWhitespaceCut(s, j - 1);
    }
  }

  /** Everything skipped is `c`. */
  lemma {:induction false} SkipCharCut(s: string, c: char, i: nat)
    requires i <= |s|
    ensures forall k :: i <= k < SkipChar(s, c, i) ==> s[k] == c
    decreases |s| - i
  {
    if i < |s| && s[i] == c {
      SkipCharCut(s, c, i + 1);
    }
  }

  /** Everything stepped back over is `c`. */
  lemma {:induction false} BackCharCut(s: string, c: char, j: nat)
    requires j <= |s|
    ensures forall k :: BackChar(s, c, j) <= k < j ==> s[k] == c
  {
    if j > 0 && s[j - 1] == c {
      BackCharCut(s, c, j - 1);
    }
  }

  /** `str::trim_start`: drops every leading whitespace character. */
  function TrimStart(s: string): (r: string)
    ensures r == [] || !IsWhitespace(r[0])
  {
    s[SkipWhitespace(s, 0)..]
  }

  /** `str::trim_end`: drops every trailing whitespace character. */
  function TrimEnd(s: string): (r: string)
    ensures r == [] || !IsWhitespace(r[|r| - 1])
  {
    s[..BackWhitespace(s, |s|)]
  }

  /** What `trim_start` cuts away is whitespace. */
  lemma TrimStartCut(s: string)
    ensures forall i :: 0 <= i < |s| - |TrimStart(s)| ==> IsWhitespace(s[i])
  {
    SkipWhitespaceCut(s, 0);
  }

  /** What `trim_end` cuts away is whitespace. */
  lemma TrimEndCut(s: string)
    ensures forall i :: |TrimEnd(s)| <= i < |s| ==> IsWhitespace(s[i])
  {
    BackWhitespaceCut(s, |s|);
  }

  /** `str::trim`: the slice of `s` without its leading and trailing whitespace. */
  function Trim(s: string): (r: string)
    ensures var k := |s| - |TrimStart(s)|; k + |r| <= |s| && r == s[k..k + |r|]
    ensures r == [] || (!IsWhitespace(r[0]) && !IsWhitespace(r[|r| - 1]))
  {
    var t := TrimStart(s);
    var r := TrimEnd(t);
    PrefixOfSuffix(s, |s| - |t|, t, r);
    r
  }

  /** `str::trim_start_matches(c)` for one character `c`. */
  function TrimStartChar(s: string, c: char): (r: string)
    ensures r == [] || r[0] != c
  {
    s[SkipChar(s, c, 0)..]
  }

  /** `str::trim_end_matches(c)` for one character `c`. */
  function TrimEndChar(s: string, c: char): (r: string)
    ensures r == [] || r[|r| - 1] != c
  {
    s[..BackChar(s, c, |s|)]
  }

  /** What `trim_start_matches(c)` cuts away is `c`. */
  lemma TrimStartCharCut(s: string, c: char)
    ensures forall i :: 0 <= i < |s| - |TrimStartChar(s, c)| ==> s[i] == c
  {
    SkipCharCut(s, c, 0);
  }

  /** What `trim_end_matches(c)` cuts away is `c`. */
  lemma TrimEndCharCut(s: string, c: char)
    ensures forall i :: |TrimEndChar(s, c)| <= i < |s| ==> s[i] == c
  {
    BackCharCut(s, c, |s|);
  }

  /** A text that does not end with `c` is untouched by trimming `c` at the end. */
  lemma TrimEndCharKeeps(s: string, c: char)
    requires s == [] || s[|s| - 1] != c
    ensures TrimEndChar(s, c) == s
  {
    assert s[..|s|] == s;
  }

  /** A text that does not end with `c`, stated as a suffix, is untouched by trimming `c`. */
  lemma TrimEndCharUnlessEnding(s: string, c: char)
    ensures !EndsWith(s, [c]) ==> TrimEndChar(s, c) == s
  {
    if s != [] {
      assert s[|s| - 1..] == [s[|s| - 1]];
    }
    if !EndsWith(s, [c]) {
      TrimEndCharKeeps(s, c);
    }
  }

  /** One more `c` at the end makes no difference. */
  lemma TrimEndCharAppend(s: string, c: char)
    ensures TrimEndChar(s + [c], c) == TrimEndChar(s, c)
  {
    var t := s + [c];
    BackCharPrefix(s, t, c, |s|);
    var n := BackChar(s, c, |s|);
    assert t[..n] == s[..n];
  }

  /** Stepping back from `j` only looks at the text before `j`. */
  lemma {:induction false} BackCharPrefix(s: string, t: string, c: char, j: nat)
    requires j <= |s| && j <= |t| && s[..j] == t[..j]
    ensures BackChar(s, c, j) == BackChar(t, c, j)
  {
    if j > 0 {
      assert s[j - 1] == s[..j][j - 1] == t[..j][j - 1] == t[j - 1];
      if s[j - 1] == c {
        assert s[..j - 1] == s[..j][..j - 1];
        assert t[..j - 1] == t[..j][..j - 1];
        BackCharPrefix(s, t, c, j - 1);
      }
    }
  }

  /** `str::trim_matches(c)` for one character `c`: both ends. */
  function TrimChar(s: string, c: char): string {
    TrimEndChar(TrimStartChar(s, c), c)
  }

  /** Trimming `c` at both ends leaves a slice of the text, starting at some `k`. */
  lemma TrimCharSlice(s: string, c: char) returns (k: nat)
    ensures k + |TrimChar(s, c)| <= |s| && TrimChar(s, c) == s[k..k + |TrimChar(s, c)|]
  {
    var t := TrimStartChar(s, c);
    k := |s| - |t|;
    PrefixOfSuffix(s, k, t, TrimEndChar(t, c));
  }

  /** Neither end of the result is `c`. */
  lemma TrimCharEnds(s: string, c: char)
    ensures TrimChar(s, c) == [] || (TrimChar(s, c)[0] != c && TrimChar(s, c)[|TrimChar(s, c)| - 1] != c)
  {
    var t := TrimStartChar(s, c);
    PrefixOfSuffix(s, |s| - |t|, t, TrimEndChar(t, c));
  }

  lemma PrefixOfSuffix(s: string, k: nat, t: string, r: string)
    requires k <= |s| && t == s[k..] && |r| <= |t| && r == t[..|r|]
    ensures k + |r| <= |s| && r == s[k..k + |r|]
    ensures r == [] || r[0] == t[0]
  {
  }

  /** A text that neither starts nor ends with whitespace is its own trim. */
  lemma TrimKeeps(s: string)
    requires s == [] || (!IsWhitespace(s[0]) && !IsWhitespace(s[|s| - 1]))
    ensures Trim(s) == s
  {
    assert SkipWhitespace(s, 0) == 0;
    assert s[0..] == s;
    assert BackWhitespace(s, |s|) == |s|;
    assert s[..|s|] == s;
  }

  /** Leading whitespace before such a text is trimmed away. */
  lemma TrimDropsLeading(w: char, s: string)
    requires IsWhitespace(w)
    requires s == [] || (!IsWhitespace(s[0]) && !IsWhitespace(s[|s| - 1]))
    ensures Trim([w] + s) == s
  {
    var ws := [w] + s;
    assert SkipWhitespace(ws, 1) == 1;
    assert ws[1..] == s;
    TrimKeeps(s);
  }

  /** A text that neither starts nor ends with `c` is untouched by trimming `c`. */
  lemma TrimCharKeeps(s: string, c: char)
    requires s == [] || (s[0] != c && s[|s| - 1] != c)
    ensures TrimChar(s, c) == s
  {
    assert SkipChar(s, c, 0) == 0;
    assert s[0..] == s;
    assert BackChar(s, c, |s|) == |s|;
    assert s[..|s|] == s;
  }

  /** A text no longer than `pat` and different from it does not contain it. */
  lemma ShortTextLacks(s: string, pat: string)
    requires |s| <= |pat| && s != pat
    ensures !Contains(s, pat)
  {
    forall j | 0 <= j <= |s|
      ensures !OccursAt(s, pat, j)
    {
      if j == 0 && |s| == |pat| {
        assert s[0..|pat|] == s;
      }
    }
  }

  /** `str::trim_end_matches(pat)` for a non-empty string pattern: strips `pat` from the end
      as many times as it is there. */
  function TrimEndStr(s: string, pat: string): (r: string)
    requires |pat| > 0
    ensures |r| <= |s| && r == s[..|r|]
    ensures !EndsWith(r, pat)
    ensures !EndsWith(s, pat) ==> r == s
    decreases |s|
  {
    if EndsWith(s, pat) then TrimEndStr(s[..|s| - |pat|], pat) else s
  }

  /** One more copy of the pattern at the end makes no difference: only whole copies are cut. */
  lemma TrimEndStrAppend(s: string, pat: string)
    requires |pat| > 0
    ensures TrimEndStr(s + pat, pat) == TrimEndStr(s, pat)
  {
    var t := s + pat;
    assert t[|t| - |pat|..] == pat;
    assert t[..|t| - |pat|] == s;
  }

  /** `str::find(c)`: the first position of `c`. */
  function FindChar(s: string, c: char): (r: Option<nat>)
    ensures r.Some? ==> r.value < |s| && s[r.value] == c && forall j :: 0 <= j < r.value ==> s[j] != c
    ensures r.None? ==> forall j :: 0 <= j < |s| ==> s[j] != c
  {
    if s == [] then None
    else if s[0] == c then Some(0)
    else match FindChar(s[1..], c)
      case None => None
      case Some(i) => Some(i + 1)
  }

  /** `str::rfind(c)`: the last position of `c`. */
  function RFindChar(s: string, c: char): (r: Option<nat>)
    ensures r.Some? ==> r.value < |s| && s[r.value] == c && forall j :: r.value < j < |s| ==> s[j] != c
    ensures r.None? ==> forall j :: 0 <= j < |s| ==> s[j] != c
  {
    if s == [] then None
    else if s[|s| - 1] == c then Some(|s| - 1)
    else RFindChar(s[..|s| - 1], c)
  }

  /** `str::rfind(pat)`: the last position at which `pat` occurs. */
  function RFind(s: string, pat: string): (r: Option<nat>)
    ensures r.Some? ==> r.value + |pat| <= |s|
  {
    LastBefore(s, pat, |s| + 1)
  }

  /** The last position below `i` at which `pat` occurs. */
  function LastBefore(s: string, pat: string, i: nat): (r: Option<nat>)
    ensures r.Some? ==> r.value < i && r.value + |pat| <= |s|
    decreases i
  {
    if i == 0 then None
    else if OccursAt(s, pat, i - 1) then Some(i - 1)
    else LastBefore(s, pat, i - 1)
  }

  lemma {:induction false} LastBeforeSpec(s: string, pat: string, i: nat)
    ensures var r := LastBefore(s, pat, i);
      r.Some? ==> r.value < i && OccursAt(s, pat, r.value) && forall j :: r.value < j < i ==> !OccursAt(s, pat, j)
    ensures LastBefore(s, pat, i).None? ==> forall j :: 0 <= j < i ==> !OccursAt(s, pat, j)
    decreases i
  {
    if i > 0 && !OccursAt(s, pat, i - 1) {
      LastBeforeSpec(s, pat, i - 1);
    }
  }

  /** `RFind` finds an occurrence with none after it, and finds nothing only when `pat` does
      not occur at all. */
  lemma RFindSpec(s: string, pat: string)
    ensures RFind(s, pat).Some? ==>
      OccursAt(s, pat, RFind(s, pat).value) && forall j :: RFind(s, pat).value < j ==> !OccursAt(s, pat, j)
    ensures RFind(s, pat).None? <==> !Contains(s, pat)
  {
    LastBeforeSpec(s, pat, |s| + 1);
  }

  /** An occurrence with none after it is the one `RFind` reports. */
  lemma RFindLast(s: string, pat: string, i: nat)
    requires OccursAt(s, pat, i)
    requires forall j :: i < j ==> !OccursAt(s, pat, j)
    ensures RFind(s, pat) == Some(i)
  {
    RFindSpec(s, pat);
    assert Contains(s, pat);
    var k := RFind(s, pat).value;
    assert !(i < k) && !(k < i);
  }

  /** `str::replace(pat, rep)` for a non-empty pattern: every leftmost non-overlapping occurrence
      of `pat`, scanning left to right, is replaced by `rep`. */
  function Replace(s: string, pat: string, rep: string): (r: string)
    requires |pat| > 0
    decreases |s|
  {
    if |s| < |pat| then s
    else if s[..|pat|] == pat then rep + Replace(s[|pat|..], pat, rep)
    else [s[0]] + Replace(s[1..], pat, rep)
  }

  /** Replacement passes over a prefix at which no occurrence of the pattern starts. */
  lemma {:induction false} ReplaceSkipsPrefix(a: string, b: string, pat: string, rep: string)
    requires |pat| > 0
    requires forall i :: 0 <= i < |a| ==> !OccursAt(a + b, pat, i)
    ensures Replace(a + b, pat, rep) == a + Replace(b, pat, rep)
    decreases |a|
  {
    if a != [] {
      var s := a + b;
      if |s| < |pat| {
        assert |b| < |pat|;
      } else {
        assert !OccursAt(s, pat, 0);
        assert s[1..] == a[1..] + b;
        forall i | 0 <= i < |a[1..]|
          ensures !OccursAt(a[1..] + b, pat, i)
        {
          assert !OccursAt(s, pat, i + 1);
          if i + |pat| <= |s[1..]| {
            assert s[1..][i..i + |pat|] == s[i + 1..i + 1 + |pat|];
          }
        }
        ReplaceSkipsPrefix(a[1..], b, pat, rep);
        assert [s[0]] + (a[1..] + Replace(b, pat, rep)) == a + Replace(b, pat, rep);
      }
    } else {
      assert a + b == b;
    }
  }

  /** Replacing one character by another leaves none of the first. */
  lemma {:induction false} ReplaceCharRemoves(s: string, c: char, d: char)
    requires c != d
    ensures forall i :: 0 <= i < |Replace(s, [c], [d])| ==> Replace(s, [c], [d])[i] != c
    decreases |s|
  {
    if s != [] {
      assert s[..1] == [s[0]];
      ReplaceCharRemoves(s[1..], c, d);
    }
  }

  /** Replacing a character changes exactly the positions that hold it, and keeps the length. */
  lemma {:induction false} ReplaceCharAt(s: string, c: char, d: char)
    ensures |Replace(s, [c], [d])| == |s|
    ensures forall i :: 0 <= i < |s| ==> Replace(s, [c], [d])[i] == (if s[i] == c then d else s[i])
    decreases |s|
  {
    if s != [] {
      assert s[..1] == [s[0]];
      ReplaceCharAt(s[1..], c, d);
    }
  }

  /** `[String]::join(sep)`. */
  function Join(parts: seq<string>, sep: string): string {
    if parts == [] then ""
    else if |parts| == 1 then parts[0]
    else parts[0] + sep + Join(parts[1..], sep)
  }

  function AsciiLowerChar(c: char): char {
    if 'A' <= c <= 'Z' then (c as int + 32) as char else c
  }

  function AsciiUpperChar(c: char): char {
    if 'a' <= c <= 'z' then (c as int - 32) as char else c
  }

  /** Lower-casing, for ASCII letters. */
  function AsciiLower(s: string): (r: string)
    ensures |r| == |s| && forall i :: 0 <= i < |s| ==> r[i] == AsciiLowerChar(s[i])
  {
    seq(|s|, i requires 0 <= i < |s| => AsciiLowerChar(s[i]))
  }

  /** Upper-casing, for ASCII letters. */
  function AsciiUpper(s: string): (r: string)
    ensures |r| == |s| && forall i :: 0 <= i < |s| ==> r[i] == AsciiUpperChar(s[i])
  {
    seq(|s|, i requires 0 <= i < |s| => AsciiUpperChar(s[i]))
  }

  /** `str::eq_ignore_ascii_case`. */
  predicate EqualsIgnoringAsciiCase(a: string, b: string) {
    |a| == |b| && forall i :: 0 <= i < |a| ==> AsciiLowerChar(a[i]) == AsciiLowerChar(b[i])
  }

  predicate IsAsciiDigit(c: char) {
    '0' <= c <= '9'
  }

  /** Decimal text of a natural number, as `format!("{}", n)` prints it. */
  function NatToString(n: nat): (r: string)
    ensures |r| > 0 && forall i :: 0 <= i < |r| ==> IsAsciiDigit(r[i])
  {
    if n < 10 then [('0' as int + n) as char]
    else NatToString(n / 10) + [('0' as int + n % 10) as char]
  }
}

/**
 * Name tests used by the conversion: `str.endswith` and the substitution
 * `re.sub(r"\.\d+$", "", name)` that strips Blender's numeric duplicate suffix.
 */
module Names {

  /**
   * `\d` in a `str` pattern: a decimal digit (general category Nd) of Unicode
   * 15.0, the character database of Python 3.12; `0`-`9` is the first range.
   */
  predicate IsDigit(c: char)
  {
    '0' <= c <= '9' || '\U{660}' <= c <= '\U{669}' || '\U{6F0}' <= c <= '\U{6F9}' ||
    '\U{7C0}' <= c <= '\U{7C9}' || '\U{966}' <= c <= '\U{96F}' || '\U{9E6}' <= c <= '\U{9EF}' ||
    '\U{A66}' <= c <= '\U{A6F}' || '\U{AE6}' <= c <= '\U{AEF}' || '\U{B66}' <= c <= '\U{B6F}' ||
    '\U{BE6}' <= c <= '\U{BEF}' || '\U{C66}' <= c <= '\U{C6F}' || '\U{CE6}' <= c <= '\U{CEF}' ||
    '\U{D66}' <= c <= '\U{D6F}' || '\U{DE6}' <= c <= '\U{DEF}' || '\U{E50}' <= c <= '\U{E59}' ||
    '\U{ED0}' <= c <= '\U{ED9}' || '\U{F20}' <= c <= '\U{F29}' || '\U{1040}' <= c <= '\U{1049}' ||
    '\U{1090}' <= c <= '\U{1099}' || '\U{17E0}' <= c <= '\U{17E9}' || '\U{1810}' <= c <= '\U{1819}' ||
    '\U{1946}' <= c <= '\U{194F}' || '\U{19D0}' <= c <= '\U{19D9}' || '\U{1A80}' <= c <= '\U{1A89}' ||
    '\U{1A90}' <= c <= '\U{1A99}' || '\U{1B50}' <= c <= '\U{1B59}' || '\U{1BB0}' <= c <= '\U{1BB9}' ||
    '\U{1C40}' <= c <= '\U{1C49}' || '\U{1C50}' <= c <= '\U{1C59}' || '\U{A620}' <= c <= '\U{A629}' ||
    '\U{A8D0}' <= c <= '\U{A8D9}' || '\U{A900}' <= c <= '\U{A909}' || '\U{A9D0}' <= c <= '\U{A9D9}' ||
    '\U{A9F0}' <= c <= '\U{A9F9}' || '\U{AA50}' <= c <= '\U{AA59}' || '\U{ABF0}' <= c <= '\U{ABF9}' ||
    '\U{FF10}' <= c <= '\U{FF19}' || '\U{104A0}' <= c <= '\U{104A9}' || '\U{10D30}' <= c <= '\U{10D39}' ||
    '\U{11066}' <= c <= '\U{1106F}' || '\U{110F0}' <= c <= '\U{110F9}' || '\U{11136}' <= c <= '\U{1113F}' ||
    '\U{111D0}' <= c <= '\U{111D9}' || '\U{112F0}' <= c <= '\U{112F9}' || '\U{11450}' <= c <= '\U{11459}' ||
    '\U{114D0}' <= c <= '\U{114D9}' || '\U{11650}' <= c <= '\U{11659}' || '\U{116C0}' <= c <= '\U{116C9}' ||
    '\U{11730}' <= c <= '\U{11739}' || '\U{118E0}' <= c <= '\U{118E9}' || '\U{11950}' <= c <= '\U{11959}' ||
    '\U{11C50}' <= c <= '\U{11C59}' || '\U{11D50}' <= c <= '\U{11D59}' || '\U{11DA0}' <= c <= '\U{11DA9}' ||
    '\U{11F50}' <= c <= '\U{11F59}' || '\U{16A60}' <= c <= '\U{16A69}' || '\U{16AC0}' <= c <= '\U{16AC9}' ||
    '\U{16B50}' <= c <= '\U{16B59}' || '\U{1D7CE}' <= c <= '\U{1D7FF}' || '\U{1E140}' <= c <= '\U{1E149}' ||
    '\U{1E2F0}' <= c <= '\U{1E2F9}' || '\U{1E4F0}' <= c <= '\U{1E4F9}' || '\U{1E950}' <= c <= '\U{1E959}' ||
    '\U{1FBF0}' <= c <= '\U{1FBF9}'
  }

  /** Python's `s.endswith(suffix)`. */
  predicate EndsWith(s: string, suffix: string): (b: bool)
    ensures b <==> exists t :: s == t + suffix
  {
    if |suffix| <= |s| && s[|s| - |suffix|..] == suffix then
      assert s == s[..|s| - |suffix|] + suffix;
      true
    else
      false
  }

  /** No name passes both the `.col` and the `.mesh` test. */
  lemma ColMeshExclusive(s: string)
    ensures EndsWith(s, ".col") ==> !EndsWith(s, ".mesh")
  {
    if EndsWith(s, ".col") {
      assert s[|s| - 1] == ".col"[3] == 'l';
      assert ".mesh"[4] == 'h';
    }
  }

  /**
   * A match of `\.\d+$` covering `s[i..j]`: a dot, one or more digits, then the
   * end of the string or a single final newline (where Python's `$` also matches).
   */
  ghost predicate MatchesAt(s: string, i: int, j: int)
  {
    0 <= i && i + 1 < j <= |s| && s[i] == '.' &&
    (forall k :: i < k < j ==> IsDigit(s[k])) &&
    (j == |s| || (j == |s| - 1 && s[j] == '\n'))
  }

  /** Length of the maximal run of digits at the end of `s`. */
  function TrailingDigits(s: string): (k: nat)
    ensures k <= |s|
    ensures forall i :: |s| - k <= i < |s| ==> IsDigit(s[i])
    ensures k < |s| ==> !IsDigit(s[|s| - k - 1])
  {
    if s == [] || !IsDigit(s[|s| - 1]) then 0 else 1 + TrailingDigits(s[..|s| - 1])
  }

  /** The substitution on a string in which `$` can only match at the very end. */
  function StripAtEnd(s: string): string
  {
    var k := TrailingDigits(s);
    if 0 < k < |s| && s[|s| - k - 1] == '.' then s[..|s| - k - 1] else s
  }

  /** `re.sub(r"\.\d+$", "", s)`. */
  function StripSuffix(s: string): (r: string)
    ensures r == s || exists i, j :: MatchesAt(s, i, j) && r == s[..i] + s[j..]
  {
    if |s| > 0 && s[|s| - 1] == '\n' then
      var t := s[..|s| - 1];
      var k := TrailingDigits(t);
      if 0 < k < |t| && t[|t| - k - 1] == '.' then
        assert MatchesAt(s, |t| - k - 1, |t|);
        assert s[..|t| - k - 1] + s[|t|..] == StripAtEnd(t) + "\n";
        StripAtEnd(t) + "\n"
      else
        s
    else
      var k := TrailingDigits(s);
      if 0 < k < |s| && s[|s| - k - 1] == '.' then
        assert MatchesAt(s, |s| - k - 1, |s|);
        StripAtEnd(s)
      else
        s
  }

  /** A match of the pattern starts exactly one place before the maximal digit run. */
  lemma MatchIsMaximal(s: string, i: int, j: int)
    requires MatchesAt(s, i, j)
    ensures j == |s| ==> i == |s| - TrailingDigits(s) - 1
    ensures j < |s| ==> i == j - TrailingDigits(s[..j]) - 1
  {
    var t := s[..j];
    assert forall k :: i < k < |t| ==> IsDigit(t[k]);
    TrailingDigitsAtLeast(t, i + 1);
    assert !IsDigit(t[i]);
    if j == |s| {
      assert t == s;
    }
  }

  lemma {:induction false} TrailingDigitsAtLeast(t: string, p: nat)
    requires p <= |t| && forall k :: p <= k < |t| ==> IsDigit(t[k])
    ensures TrailingDigits(t) >= |t| - p
  {
    if p < |t| {
      TrailingDigitsAtLeast(t[..|t| - 1], p);
    }
  }

  /** Whenever the pattern matches, the substitution removes exactly that match. */
  lemma StripSuffixRemovesMatch(s: string, i: int, j: int)
    requires MatchesAt(s, i, j)
    ensures StripSuffix(s) == s[..i] + s[j..]
  {
    MatchIsMaximal(s, i, j);
    if j == |s| {
      assert s[|s| - 1] != '\n';
      assert s[j..] == [];
    } else {
      var t := s[..|s| - 1];
      assert t == s[..j];
      assert s[..i] == t[..i];
      assert s[j..] == "\n";
    }
  }

  /** Without a match the name is unchanged, and a changed name had a match. */
  lemma StripSuffixUnchanged(s: string)
    ensures (StripSuffix(s) == s) <==> !exists i, j :: MatchesAt(s, i, j)
  {
    if exists i, j :: MatchesAt(s, i, j) {
      var i, j :| MatchesAt(s, i, j);
      StripSuffixRemovesMatch(s, i, j);
      assert |s[..i] + s[j..]| < |s|;
    }
  }

  /** For a name without a newline the result is a prefix of the name. */
  lemma StripSuffixPrefix(s: string)
    requires '\n' !in s
    ensures |StripSuffix(s)| <= |s| && StripSuffix(s) == s[..|StripSuffix(s)|]
  {
    if StripSuffix(s) != s {
      var i, j :| MatchesAt(s, i, j) && StripSuffix(s) == s[..i] + s[j..];
      assert forall k :: 0 <= k < |s| ==> s[k] != '\n';
      assert s[j..] == [];
    }
  }

  /** Blender's duplicate suffixes are stripped, in any decimal digits, one suffix per call. */
  lemma StripSuffixExamples()
    ensures StripSuffix("x.123.456") == "x.123"
    ensures StripSuffix("Cube.001") == "Cube"
    ensures StripSuffix("x.\U{663}") == "x"
  {
    StripExample("x.123.456", 5, "x.123");
    StripExample("Cube.001", 4, "Cube");
    StripExample("x.\U{663}", 1, "x");
  }

  /** A name without a dot followed by digits at its end keeps its name. */
  lemma StripSuffixKeepsExamples()
    ensures StripSuffix("abc.") == "abc."
    ensures StripSuffix("abc") == "abc"
    ensures StripSuffix("abc1") == "abc1"
  {
    NoMatchAbc("abc.");
    NoMatchAbc("abc");
    NoMatchAbc("abc1");
  }

  /** Only one suffix is stripped per call, so the result may still match. */
  lemma StripSuffixOnce()
    ensures StripSuffix("x.1.2") == "x.1"
    ensures StripSuffix(StripSuffix("x.1.2")) == "x"
  {
    StripExample("x.1.2", 3, "x.1");
    StripExample("x.1", 1, "x");
  }

  lemma StripExample(s: string, i: nat, t: string)
    requires MatchesAt(s, i, |s|) && t == s[..i]
    ensures StripSuffix(s) == t
  {
    StripSuffixRemovesMatch(s, i, |s|);
    assert s[|s|..] == [];
  }

  lemma NoMatchAbc(s: string)
    requires s == "abc." || s == "abc" || s == "abc1"
    ensures StripSuffix(s) == s
  {
    assert forall k :: 0 <= k < |s| - 1 ==> s[k] != '.';
    StripSuffixUnchanged(s);
  }
}

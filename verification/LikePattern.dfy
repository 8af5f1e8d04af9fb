/** Compiling prefixes, substrings and globs to SQL LIKE patterns with escape character backslash. */
module LikePattern {
  import opened Wrappers
  import opened RepoPath

  /** The LIKE predicate (section 8.5 of ISO/IEC 9075-2): "%" stands for any string, "_" for any
      character, and the escape character makes the next character literal. */
  predicate Like(pattern: string, s: string)
    decreases |pattern| + |s|
  {
    if pattern == "" then s == ""
    else if pattern[0] == '%' then Like(pattern[1..], s) || (s != "" && Like(pattern, s[1..]))
    else if pattern[0] == '_' then s != "" && Like(pattern[1..], s[1..])
    else if pattern[0] == '\\' then |pattern| >= 2 && s != "" && s[0] == pattern[1] && Like(pattern[2..], s[1..])
    else s != "" && s[0] == pattern[0] && Like(pattern[1..], s[1..])
  }

  predicate OccursAt(s: string, q: string, k: nat) {
    k + |q| <= |s| && s[k..k + |q|] == q
  }

  predicate Contains(s: string, q: string) {
    exists k :: 0 <= k <= |s| && OccursAt(s, q, k)
  }

  /** Each "*" stands for any string, every other character for itself. */
  predicate GlobMatches(glob: string, s: string)
    decreases |glob|
  {
    if glob == "" then s == ""
    else if glob[0] == '*' then exists k :: 0 <= k <= |s| && GlobMatches(glob[1..], s[k..])
    else s != "" && s[0] == glob[0] && GlobMatches(glob[1..], s[1..])
  }

  predicate Special(c: char) {
    c == '%' || c == '_' || c == '\\'
  }

  function EscapeChar(c: char): string {
    if Special(c) then ['\\', c] else [c]
  }

  function Escape(value: string): string {
    if value == "" then "" else EscapeChar(value[0]) + Escape(value[1..])
  }

  lemma {:induction false} EscapeExtends(value: string, c: char)
    ensures Escape(value + [c]) == Escape(value) + EscapeChar(c)
  {
    if value != "" {
      EscapeExtends(value[1..], c);
      assert (value + [c])[1..] == value[1..] + [c];
    } else {
      assert ([c])[1..] == "";
    }
  }

  method EscapeLike(value: string) returns (escaped: string)
    ensures escaped == Escape(value)
  {
    escaped := "";
    for i := 0 to |value|
      invariant escaped == Escape(value[..i])
    {
      assert value[..i + 1] == value[..i] + [value[i]];
      EscapeExtends(value[..i], value[i]);
      if value[i] == '%' || value[i] == '_' || value[i] == '\\' {
        escaped := escaped + ['\\', value[i]];
      } else {
        escaped := escaped + [value[i]];
      }
    }
    assert value[..|value|] == value;
  }

  // --- Literals and "%" ---

  lemma EscapedCharIsLiteral(c: char, rest: string, s: string)
    ensures Like(EscapeChar(c) + rest, s) <==> s != "" && s[0] == c && Like(rest, s[1..])
  {
  }

  lemma PrefixSteps(q: string, s: string)
    requires q != "" && s != ""
    ensures q <= s <==> s[0] == q[0] && q[1..] <= s[1..]
    ensures q <= s ==> s[1..][|q[1..]|..] == s[|q|..]
  {
  }

  /** An escaped text matches itself and nothing else. */
  lemma {:induction false} EscapedIsLiteral(q: string, rest: string, s: string)
    ensures Like(Escape(q) + rest, s) <==> q <= s && Like(rest, s[|q|..])
  {
    if q == "" {
      assert Escape(q) + rest == rest && s[0..] == s;
    } else {
      var tail := Escape(q[1..]) + rest;
      assert Escape(q) + rest == EscapeChar(q[0]) + tail;
      EscapedCharIsLiteral(q[0], tail, s);
      if s != "" {
        EscapedIsLiteral(q[1..], rest, s[1..]);
        PrefixSteps(q, s);
      }
    }
  }

  lemma {:induction false} PercentIsAny(rest: string, s: string)
    ensures Like("%" + rest, s) <==> exists k :: 0 <= k <= |s| && Like(rest, s[k..])
    decreases |s|
  {
    assert ("%" + rest)[1..] == rest;
    assert s[0..] == s;
    if s != "" {
      PercentIsAny(rest, s[1..]);
      if Like("%" + rest, s[1..]) {
        var k :| 0 <= k <= |s[1..]| && Like(rest, s[1..][k..]);
        assert s[1..][k..] == s[k + 1..];
      }
      if k :| 1 <= k <= |s| && Like(rest, s[k..]) {
        assert s[1..][k - 1..] == s[k..];
      }
    }
  }

  lemma TrailingPercent(s: string)
    ensures Like("%", s)
  {
  }

  // --- The three queries ---

  /** `text_files_under_prefix`: exactly the strings that start with the prefix. */
  lemma PrefixPattern(prefix: string, s: string)
    ensures Like(Escape(prefix) + "%", s) <==> StartsWith(s, prefix)
  {
    EscapedIsLiteral(prefix, "%", s);
    if prefix <= s {
      TrailingPercent(s[|prefix|..]);
    }
  }

  /** `search_files`: exactly the strings that contain the query. */
  lemma ContainsPattern(q: string, s: string)
    ensures Like("%" + Escape(q) + "%", s) <==> Contains(s, q)
  {
    assert "%" + Escape(q) + "%" == "%" + (Escape(q) + "%");
    PercentIsAny(Escape(q) + "%", s);
    forall k | 0 <= k <= |s|
      ensures Like(Escape(q) + "%", s[k..]) <==> OccursAt(s, q, k)
    {
      PrefixPattern(q, s[k..]);
      if k + |q| <= |s| {
        assert s[k..][..|q|] == s[k..k + |q|];
      }
    }
  }

  /** `list_files` below a directory: exactly the strings under it, whatever slashes end its name. */
  lemma DirectoryPattern(path: string, s: string)
    ensures Like(Escape(StripRight(path)) + "/%", s) <==> StartsWith(s, StripRight(path) + "/")
  {
    var dir := StripRight(path);
    PrefixPattern(dir + "/", s);
    EscapeExtends(dir, '/');
    assert Escape(dir + "/") + "%" == Escape(dir) + "/%";
  }

  // --- Globs ---

  /** str.replace("**", "%"): from the left, without overlap. */
  function DoubleStars(p: string): string {
    if p == "" then ""
    else if |p| >= 2 && p[0] == '*' && p[1] == '*' then "%" + DoubleStars(p[2..])
    else [p[0]] + DoubleStars(p[1..])
  }

  function SingleStars(p: string): string {
    if p == "" then "" else [if p[0] == '*' then '%' else p[0]] + SingleStars(p[1..])
  }

  function Starred(p: string): string {
    SingleStars(DoubleStars(p))
  }

  /** None stands for a missing or empty glob: no filter. */
  function GlobToLike(value: string): Option<string> {
    if value == "" then None
    else
      var escaped := Escape(Slashed(value));
      var led := if StartsWith(escaped, "**/") then "%" + escaped[2..] else escaped;
      Some(Starred(led))
  }

  lemma StarredChar(c: char, p: string)
    requires c != '*'
    ensures Starred([c] + p) == [c] + Starred(p)
  {
  }

  lemma StarredDouble(p: string)
    ensures Starred("**" + p) == "%" + Starred(p)
  {
  }

  lemma LeadingStars(escaped: string)
    requires StartsWith(escaped, "**/")
    ensures Starred("%" + escaped[2..]) == Starred(escaped)
  {
  }

  /** A tail after "*": what "%" and the rest of the pattern match. */
  lemma StarStep(rest: string, glob: string, s: string)
    requires forall k :: 0 <= k <= |s| ==> (Like(rest, s[k..]) <==> GlobMatches(glob, s[k..]))
    ensures Like("%" + rest, s) <==> GlobMatches("*" + glob, s)
  {
    PercentIsAny(rest, s);
    assert ("*" + glob)[1..] == glob;
  }

  lemma StarStarStep(glob: string, s: string)
    ensures GlobMatches("**" + glob, s) <==> GlobMatches("*" + glob, s)
  {
    assert ("**" + glob)[1..] == "*" + glob && ("*" + glob)[1..] == glob;
    if k :| 0 <= k <= |s| && GlobMatches("*" + glob, s[k..]) {
      var j :| 0 <= j <= |s[k..]| && GlobMatches(glob, s[k..][j..]);
      assert s[k..][j..] == s[k + j..];
    }
    if GlobMatches("*" + glob, s) {
      assert s[0..] == s;
    }
  }

  lemma EscapeStep(c: char, rest: string)
    ensures Escape([c] + rest) == EscapeChar(c) + Escape(rest)
  {
  }

  lemma EscapeDouble(rest: string)
    ensures Starred(Escape("**" + rest)) == "%" + Starred(Escape(rest))
  {
    EscapeStep('*', rest);
    EscapeStep('*', "*" + rest);
    assert ['*'] + ("*" + rest) == "**" + rest;
    assert "*" + ("*" + Escape(rest)) == "**" + Escape(rest);
    StarredDouble(Escape(rest));
  }

  lemma EscapeStar(rest: string)
    requires rest == "" || rest[0] != '*'
    ensures Starred(Escape("*" + rest)) == "%" + Starred(Escape(rest))
  {
  }

  lemma StarredLiteral(c: char, tail: string)
    requires c != '*'
    ensures Starred(EscapeChar(c) + tail) == EscapeChar(c) + Starred(tail)
  {
    StarredChar(c, tail);
    if Special(c) {
      StarredChar('\\', [c] + tail);
      assert EscapeChar(c) + tail == ['\\'] + ([c] + tail);
    }
  }

  lemma {:induction false} StarredMatches(glob: string, s: string)
    ensures Like(Starred(Escape(glob)), s) <==> GlobMatches(glob, s)
    decreases |glob|, |s|
  {
    if glob != "" && glob[0] == '*' {
      var n := if |glob| >= 2 && glob[1] == '*' then 2 else 1;
      var rest := glob[n..];
      forall k | 0 <= k <= |s|
        ensures Like(Starred(Escape(rest)), s[k..]) <==> GlobMatches(rest, s[k..])
      {
        StarredMatches(rest, s[k..]);
      }
      StarStep(Starred(Escape(rest)), rest, s);
      if n == 2 {
        assert glob == "**" + rest;
        EscapeDouble(rest);
        StarStarStep(rest, s);
      } else {
        assert glob == "*" + rest;
        EscapeStar(rest);
      }
    } else if glob != "" {
      StarredLiteral(glob[0], Escape(glob[1..]));
      EscapedCharIsLiteral(glob[0], Starred(Escape(glob[1..])), s);
      if s != "" {
        StarredMatches(glob[1..], s[1..]);
      }
    }
  }

  /** Only the empty glob is no filter. */
  lemma NoGlobNoFilter(value: string)
    ensures GlobToLike(value) == None <==> |value| == 0
  {
  }

  /** The glob translation keeps its meaning: each "*" stands for any string and every other
      character, after backslashes become slashes, for itself. */
  lemma GlobKeepsMeaning(value: string, s: string)
    requires value != ""
    ensures GlobToLike(value).Some? && (Like(GlobToLike(value).value, s) <==> GlobMatches(Slashed(value), s))
  {
    var glob := Slashed(value);
    StarredMatches(glob, s);
    if StartsWith(Escape(glob), "**/") {
      LeadingStars(Escape(glob));
    }
  }
}

/** Repository path prefixes as the source cache normalises them. */
module RepoPath {
  import opened Wrappers

  predicate StartsWith(s: string, prefix: string) {
    prefix <= s
  }

  /** str.replace of every backslash by a slash. */
  function Slashed(s: string): (r: string)
    ensures |r| == |s|
    ensures forall i :: 0 <= i < |s| ==> r[i] == if s[i] == '\\' then '/' else s[i]
  {
    seq(|s|, i requires 0 <= i < |s| => if s[i] == '\\' then '/' else s[i])
  }

  function StripRight(s: string): string {
    if s != [] && s[|s| - 1] == '/' then StripRight(s[..|s| - 1]) else s
  }

  function StripLeft(s: string): string {
    if s != [] && s[0] == '/' then StripLeft(s[1..]) else s
  }

  function Strip(s: string): string {
    StripRight(StripLeft(s))
  }

  /** str.split("/"): one part more than there are slashes. */
  function Split(s: string): (r: seq<string>)
    ensures |r| >= 1
  {
    if s == [] then [""]
    else
      var rest := Split(s[..|s| - 1]);
      var n := |rest| - 1;
      if s[|s| - 1] == '/' then rest + [""] else rest[..n] + [rest[n] + [s[|s| - 1]]]
  }

  function Join(parts: seq<string>): string {
    if parts == [] then ""
    else if |parts| == 1 then parts[0]
    else Join(parts[..|parts| - 1]) + "/" + parts[|parts| - 1]
  }

  function Kept(parts: seq<string>): seq<string> {
    if parts == [] then []
    else
      var n := |parts| - 1;
      Kept(parts[..n]) + if parts[n] == "" || parts[n] == "." then [] else [parts[n]]
  }

  function Lower(s: string): (r: string)
    ensures |r| == |s|
  {
    seq(|s|, i requires 0 <= i < |s| => if 'A' <= s[i] <= 'Z' then s[i] - 'A' + 'a' else s[i])
  }

  /** What precedes the first dot. */
  function Stem(s: string): string {
    if s == [] || s[0] == '.' then "" else [s[0]] + Stem(s[1..])
  }

  predicate IsDevice(name: string) {
    name in {"con", "prn", "aux", "nul"} ||
    (|name| == 4 && name[..3] in {"com", "lpt"} && '1' <= name[3] <= '9')
  }

  predicate UnsafePart(part: string) {
    part == ".." || ':' in part || IsDevice(Lower(Stem(part)))
  }

  predicate AnyUnsafe(parts: seq<string>) {
    exists i :: 0 <= i < |parts| && UnsafePart(parts[i])
  }

  function Parts(prefix: string): seq<string> {
    Kept(Split(Strip(Slashed(prefix))))
  }

  /** None stands for the ValueError. */
  function NormalizePrefix(prefix: string): Option<string> {
    if prefix == "" || Strip(Slashed(prefix)) == "" then Some("")
    else if AnyUnsafe(Parts(prefix)) then None
    else Some(Join(Parts(prefix)) + "/")
  }

  // --- Parts of a normalised prefix ---

  predicate Clean(part: string) {
    part != "" && part != "." && '/' !in part && '\\' !in part
  }

  predicate AllClean(parts: seq<string>) {
    forall i :: 0 <= i < |parts| ==> Clean(parts[i])
  }

  lemma {:induction false} SplitHasNoSlash(s: string)
    ensures forall i :: 0 <= i < |Split(s)| ==> '/' !in Split(s)[i]
    ensures '\\' !in s ==> forall i :: 0 <= i < |Split(s)| ==> '\\' !in Split(s)[i]
  {
    if s != [] {
      SplitHasNoSlash(s[..|s| - 1]);
      assert s[|s| - 1] in s;
    }
  }

  lemma {:induction false} KeptFrom(parts: seq<string>)
    ensures forall i :: 0 <= i < |Kept(parts)| ==>
              Kept(parts)[i] in parts && Kept(parts)[i] != "" && Kept(parts)[i] != "."
  {
    if parts != [] {
      var n := |parts| - 1;
      KeptFrom(parts[..n]);
      assert parts[n] in parts;
    }
  }

  lemma {:induction false} StripKeepsChars(s: string)
    ensures forall c :: c in StripRight(s) ==> c in s
    ensures forall c :: c in StripLeft(s) ==> c in s
    decreases |s|
  {
    if s != [] && s[|s| - 1] == '/' {
      StripKeepsChars(s[..|s| - 1]);
    }
    if s != [] && s[0] == '/' {
      StripKeepsChars(s[1..]);
    }
  }

  lemma PartsAreClean(prefix: string)
    ensures AllClean(Parts(prefix))
  {
    var stripped := Strip(Slashed(prefix));
    StripKeepsChars(Slashed(prefix));
    StripKeepsChars(StripLeft(Slashed(prefix)));
    assert '\\' !in stripped;
    SplitHasNoSlash(stripped);
    KeptFrom(Split(stripped));
    forall i | 0 <= i < |Parts(prefix)|
      ensures Clean(Parts(prefix)[i])
    {
      assert Parts(prefix)[i] in Split(stripped);
    }
  }

  // --- Splitting a joined path ---

  lemma {:induction false} SplitAppends(s: string, part: string)
    requires '/' !in part
    ensures Split(s + "/" + part) == Split(s) + [part]
  {
    var whole := s + "/" + part;
    if part == "" {
      assert whole[..|whole| - 1] == s;
    } else {
      var n := |part| - 1;
      assert part[n] in part;
      assert '/' !in part[..n];
      SplitAppends(s, part[..n]);
      assert whole[..|whole| - 1] == s + "/" + part[..n];
      assert part[..n] + [part[n]] == part;
    }
  }

  lemma {:induction false} SplitWhole(part: string)
    requires '/' !in part
    ensures Split(part) == [part]
  {
    if part != "" {
      var n := |part| - 1;
      assert part[n] in part;
      SplitWhole(part[..n]);
      assert part[..n] + [part[n]] == part;
    }
  }

  lemma JoinSteps(front: seq<string>, part: string)
    requires front != []
    ensures Join(front + [part]) == Join(front) + "/" + part
  {
    assert (front + [part])[..|front|] == front;
  }

  lemma {:induction false} SplitJoin(parts: seq<string>)
    requires parts != [] && AllClean(parts)
    ensures Split(Join(parts)) == parts
    decreases |parts|, 0
  {
    var n := |parts| - 1;
    assert Clean(parts[n]);
    if n == 0 {
      SplitWhole(parts[0]);
    } else {
      SplitJoinStep(parts[..n], parts[n]);
      assert parts[..n] + [parts[n]] == parts;
    }
  }

  lemma {:induction false} SplitJoinStep(front: seq<string>, part: string)
    requires front != [] && AllClean(front) && '/' !in part
    ensures Split(Join(front + [part])) == front + [part]
    decreases |front|, 1
  {
    SplitJoin(front);
    JoinSteps(front, part);
    SplitAppends(Join(front), part);
  }

  lemma {:induction false} KeptAll(parts: seq<string>)
    requires AllClean(parts)
    ensures Kept(parts) == parts
  {
    if parts != [] {
      KeptAll(parts[..|parts| - 1]);
    }
  }

  /** A join of clean parts starts and ends with a character other than the separator, and has no backslash. */
  lemma {:induction false} JoinEdges(parts: seq<string>)
    requires parts != [] && AllClean(parts)
    ensures Join(parts) != "" && Join(parts)[0] != '/' && Join(parts)[|Join(parts)| - 1] != '/'
    ensures '\\' !in Join(parts)
  {
    var n := |parts| - 1;
    assert parts[n][0] in parts[n] && parts[n][|parts[n]| - 1] in parts[n];
    if n > 0 {
      JoinEdges(parts[..n]);
    }
  }

  lemma SlashedIsId(s: string)
    requires '\\' !in s
    ensures Slashed(s) == s
  {
  }

  lemma StripJoined(parts: seq<string>)
    requires parts != [] && AllClean(parts)
    ensures Strip(Slashed(Join(parts) + "/")) == Join(parts)
  {
    var joined := Join(parts);
    JoinEdges(parts);
    SlashedIsId(joined + "/");
    assert StripLeft(joined + "/") == joined + "/";
    assert (joined + "/")[..|joined|] == joined;
    assert StripRight(joined) == joined;
  }

  /** Normalising again changes nothing, except that "/" becomes the prefix of everything. */
  lemma NormalizedPrefixIsStableIff(prefix: string)
    requires NormalizePrefix(prefix).Some?
    ensures var r := NormalizePrefix(prefix).value;
            (NormalizePrefix(r) == Some(r) <==> r != "/") && (r == "/" ==> NormalizePrefix(r) == Some(""))
  {
    var r := NormalizePrefix(prefix).value;
    var parts := Parts(prefix);
    if r != "" {
      if parts == [] {
        assert StripLeft("/") == "" && Slashed("/") == "/";
      } else {
        PartsAreClean(prefix);
        StripJoined(parts);
        SplitJoin(parts);
        KeptAll(parts);
        JoinEdges(parts);
        assert r != "/";
      }
    }
  }

  // --- Which inputs normalise to "/" ---

  /** Something is left after stripping, but every component is empty or ".". */
  predicate OnlyDots(prefix: string) {
    var parts := Split(Strip(Slashed(prefix)));
    Strip(Slashed(prefix)) != "" && forall i :: 0 <= i < |parts| ==> parts[i] == "" || parts[i] == "."
  }

  lemma {:induction false} KeptNothingIff(parts: seq<string>)
    ensures Kept(parts) == [] <==> forall i :: 0 <= i < |parts| ==> parts[i] == "" || parts[i] == "."
  {
    if parts != [] {
      var n := |parts| - 1;
      KeptNothingIff(parts[..n]);
      assert forall i :: 0 <= i < n ==> parts[..n][i] == parts[i];
    }
  }

  lemma NormalizesToSlashIff(prefix: string)
    ensures NormalizePrefix(prefix) == Some("/") <==> OnlyDots(prefix)
  {
    KeptNothingIff(Split(Strip(Slashed(prefix))));
    if Parts(prefix) != [] {
      PartsAreClean(prefix);
      JoinEdges(Parts(prefix));
      assert |Join(Parts(prefix)) + "/"| >= 2;
    } else {
      assert !AnyUnsafe(Parts(prefix)) && Join(Parts(prefix)) + "/" == "/";
    }
    if prefix == "" {
      assert Slashed(prefix) == "";
    }
  }
}

/** Normalised prefixes from the outside: what the components of a path are, which are refused, and how
    the normalised prefix is spelled. */
module PathLaws {
  import opened Wrappers
  import opened RepoPath

  predicate IsSeparator(c: char) {
    c == '/' || c == '\\'
  }

  predicate NoSeparator(s: string) {
    forall i :: 0 <= i < |s| ==> !IsSeparator(s[i])
  }

  lemma SlashedJoins(a: string, b: string)
    ensures Slashed(a + b) == Slashed(a) + Slashed(b)
  {
  }

  /** One more character: a slash opens a part, anything else extends the last one. */
  function Grown(parts: seq<string>, c: char): seq<string>
    requires parts != []
  {
    var n := |parts| - 1;
    if c == '/' then parts + [""] else parts[..n] + [parts[n] + [c]]
  }

  lemma SplitGrows(s: string, c: char)
    ensures Split(s + [c]) == Grown(Split(s), c)
  {
    assert (s + [c])[..|s|] == s;
  }

  lemma GrownBehind(front: seq<string>, parts: seq<string>, c: char)
    requires parts != []
    ensures Grown(front + parts, c) == front + Grown(parts, c)
  {
  }

  lemma {:induction false} SplitJoins(a: string, b: string)
    ensures Split(a + "/" + b) == Split(a) + Split(b)
  {
    if b == "" {
      SplitGrows(a, '/');
      assert a + "/" + b == a + ['/'];
      assert Split(b) == [""];
    } else {
      var n := |b| - 1;
      SplitJoins(a, b[..n]);
      SplitJoinsStep(a, a + "/" + b[..n], b[..n], b[n]);
      LastCharacter(a + "/", b);
    }
  }

  lemma LastCharacter(front: string, b: string)
    requires b != ""
    ensures var n := |b| - 1; b[..n] + [b[n]] == b && (front + b[..n]) + [b[n]] == front + b
  {
  }

  lemma SplitJoinsStep(a: string, whole: string, b: string, c: char)
    requires Split(whole) == Split(a) + Split(b)
    ensures Split(whole + [c]) == Split(a) + Split(b + [c])
  {
    SplitGrows(whole, c);
    SplitGrows(b, c);
    GrownBehind(Split(a), Split(b), c);
  }

  lemma {:induction false} KeptJoins(a: seq<string>, b: seq<string>)
    ensures Kept(a + b) == Kept(a) + Kept(b)
  {
    if b == [] {
      assert a + b == a;
    } else {
      var n := |b| - 1;
      KeptJoins(a, b[..n]);
      assert (a + b)[..|a + b| - 1] == a + b[..n];
    }
  }

  lemma KeptOne(part: string)
    ensures Kept([part]) == if part == "" || part == "." then [] else [part]
  {
    assert [part][..0] == [];
  }

  function KeptOf(s: string): seq<string> {
    Kept(Split(s))
  }

  lemma KeptOfJoins(a: string, b: string)
    ensures KeptOf(a + "/" + b) == KeptOf(a) + KeptOf(b)
  {
    SplitJoins(a, b);
    KeptJoins(Split(a), Split(b));
  }

  lemma KeptOfNothing()
    ensures KeptOf("") == []
  {
    KeptOne("");
  }

  lemma {:induction false} StripLeftKeeps(s: string)
    ensures KeptOf(StripLeft(s)) == KeptOf(s)
  {
    if s != [] && s[0] == '/' {
      StripLeftKeeps(s[1..]);
      KeptOfJoins("", s[1..]);
      KeptOfNothing();
      assert "" + "/" + s[1..] == s;
    }
  }

  lemma {:induction false} StripRightKeeps(s: string)
    ensures KeptOf(StripRight(s)) == KeptOf(s)
  {
    if s != [] && s[|s| - 1] == '/' {
      var n := |s| - 1;
      StripRightKeeps(s[..n]);
      KeptOfJoins(s[..n], "");
      KeptOfNothing();
      assert s[..n] + "/" + "" == s;
    }
  }

  lemma PartsAreKept(prefix: string)
    ensures Parts(prefix) == KeptOf(Slashed(prefix))
  {
    StripLeftKeeps(Slashed(prefix));
    StripRightKeeps(StripLeft(Slashed(prefix)));
  }

  /** The components of two paths with a separator between them are those of the first and of the second. */
  lemma PartsJoin(a: string, separator: char, b: string)
    requires IsSeparator(separator)
    ensures Parts(a + [separator] + b) == Parts(a) + Parts(b)
  {
    SlashedJoins(a + [separator], b);
    SlashedJoins(a, [separator]);
    assert Slashed([separator]) == "/";
    PartsAreKept(a);
    PartsAreKept(b);
    PartsAreKept(a + [separator] + b);
    KeptOfJoins(Slashed(a), Slashed(b));
  }

  /** And a text without separators is its own only component, unless it is empty or ".". */
  lemma PartsOfOne(part: string)
    requires NoSeparator(part)
    ensures Parts(part) == if part == "" || part == "." then [] else [part]
  {
    assert Slashed(part) == part;
    SplitWhole(part);
    KeptOne(part);
    PartsAreKept(part);
  }

  // --- Refusal ---

  const Devices: seq<string> := ["con", "prn", "aux", "nul",
    "com1", "com2", "com3", "com4", "com5", "com6", "com7", "com8", "com9",
    "lpt1", "lpt2", "lpt3", "lpt4", "lpt5", "lpt6", "lpt7", "lpt8", "lpt9"]

  /** `name` in lower case, alone or before an extension. */
  predicate NamesDevice(part: string, name: string) {
    |name| <= |part| && (|part| > |name| ==> part[|name|] == '.') &&
    forall i :: 0 <= i < |name| ==> name[i] == if 'A' <= part[i] <= 'Z' then part[i] - 'A' + 'a' else part[i]
  }

  lemma {:induction false} StemEnds(part: string)
    ensures Stem(part) <= part && '.' !in Stem(part)
    ensures |Stem(part)| < |part| ==> part[|Stem(part)|] == '.'
  {
    if part != [] && part[0] != '.' {
      StemEnds(part[1..]);
    }
  }

  lemma DeviceNames(name: string)
    ensures IsDevice(name) <==> name in Devices
  {
    assert Devices[0] == "con" && Devices[1] == "prn" && Devices[2] == "aux" && Devices[3] == "nul";
    if IsDevice(name) && name !in {"con", "prn", "aux", "nul"} {
      assert name == name[..3] + [name[3]];
      NumberedDevice(name[..3], name[3]);
    }
    forall k | 0 <= k < |Devices|
      ensures IsDevice(Devices[k])
    {
      if 4 <= k {
        assert Devices[k][..3] == if k < 13 then "com" else "lpt";
      }
    }
  }

  lemma NumberedDevice(stem: string, digit: char)
    requires stem in {"com", "lpt"} && '1' <= digit <= '9'
    ensures stem + [digit] in Devices
  {
    assert digit in "123456789" by {
      var digits := "123456789";
      assert digits[(digit as int) - ('1' as int)] == digit;
    }
    if stem == "com" {
      assert Devices[3 + (digit as int) - ('0' as int)] == stem + [digit];
    } else {
      assert Devices[12 + (digit as int) - ('0' as int)] == stem + [digit];
    }
  }

  lemma NamedDevice(part: string, name: string)
    requires name in Devices
    ensures NamesDevice(part, name) <==> Lower(Stem(part)) == name
  {
    StemEnds(part);
    assert '.' !in name;
    if NamesDevice(part, name) {
      StemIsPrefix(part, |name|);
      assert Lower(Stem(part)) == name;
    }
  }

  /** A prefix without a dot that ends at a dot or at the end is the stem. */
  lemma {:induction false} StemIsPrefix(part: string, n: nat)
    requires n <= |part| && (n < |part| ==> part[n] == '.')
    requires forall i :: 0 <= i < n ==> part[i] != '.'
    ensures Stem(part) == part[..n]
  {
    if n > 0 {
      StemIsPrefix(part[1..], n - 1);
      assert part[..n] == [part[0]] + part[1..][..n - 1];
    }
  }

  /** A component is refused if and only if it is "..", has a colon, or names a device. */
  lemma UnsafeIff(part: string)
    ensures UnsafePart(part) <==>
            part == ".." || (exists i :: 0 <= i < |part| && part[i] == ':') ||
            exists k :: 0 <= k < |Devices| && NamesDevice(part, Devices[k])
  {
    var name := Lower(Stem(part));
    DeviceNames(name);
    if IsDevice(name) {
      var k :| 0 <= k < |Devices| && Devices[k] == name;
      NamedDevice(part, name);
      assert NamesDevice(part, Devices[k]);
    }
    if k :| 0 <= k < |Devices| && NamesDevice(part, Devices[k]) {
      NamedDevice(part, Devices[k]);
      assert name in Devices;
    }
  }

  // --- Spelling ---

  /** Each component followed by a slash. */
  function Spelled(parts: seq<string>): string {
    if parts == [] then "" else parts[0] + "/" + Spelled(parts[1..])
  }

  lemma {:induction false} SpelledExtends(parts: seq<string>, part: string)
    ensures Spelled(parts + [part]) == Spelled(parts) + part + "/"
  {
    if parts == [] {
      assert [part][1..] == [];
    } else {
      SpelledExtends(parts[1..], part);
      assert (parts + [part])[1..] == parts[1..] + [part];
    }
  }

  lemma {:induction false} JoinIsSpelled(parts: seq<string>)
    requires parts != []
    ensures Join(parts) + "/" == Spelled(parts)
  {
    var n := |parts| - 1;
    if n == 0 {
      assert parts[1..] == [];
    } else {
      JoinIsSpelled(parts[..n]);
      SpelledExtends(parts[..n], parts[n]);
      assert parts[..n] + [parts[n]] == parts;
    }
  }

  lemma {:induction false} StripRightEmptyIff(s: string)
    ensures StripRight(s) == "" <==> forall i :: 0 <= i < |s| ==> s[i] == '/'
  {
    if s != [] {
      StripRightEmptyIff(s[..|s| - 1]);
    }
  }

  lemma {:induction false} StripEmptyIff(s: string)
    ensures Strip(s) == "" <==> forall i :: 0 <= i < |s| ==> s[i] == '/'
  {
    if s != [] && s[0] == '/' {
      StripEmptyIff(s[1..]);
      assert StripLeft(s) == StripLeft(s[1..]);
      assert forall i :: 1 <= i < |s| ==> s[i] == s[1..][i - 1];
    } else {
      StripRightEmptyIff(s);
    }
  }

  /** The whole function: nothing but separators is the empty prefix; a refused component refuses the
      prefix; without components it is "/"; otherwise the components, each with a slash behind it. */
  lemma NormalizedSpelling(prefix: string)
    ensures NormalizePrefix(prefix) ==
            if forall i :: 0 <= i < |prefix| ==> IsSeparator(prefix[i]) then Some("")
            else if exists k :: 0 <= k < |Parts(prefix)| && UnsafePart(Parts(prefix)[k]) then None
            else if |Parts(prefix)| == 0 then Some("/")
            else Some(Spelled(Parts(prefix)))
  {
    OnlySeparatorsIff(prefix);
    var parts := Parts(prefix);
    if parts != [] {
      JoinIsSpelled(parts);
    } else {
      assert Join(parts) + "/" == "/";
    }
  }

  lemma OnlySeparatorsIff(prefix: string)
    ensures prefix == "" || Strip(Slashed(prefix)) == "" <==> forall i :: 0 <= i < |prefix| ==> IsSeparator(prefix[i])
  {
    StripEmptyIff(Slashed(prefix));
    assert forall i :: 0 <= i < |prefix| ==> (Slashed(prefix)[i] == '/' <==> IsSeparator(prefix[i]));
  }
}

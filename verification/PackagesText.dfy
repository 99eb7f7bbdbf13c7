/** The comma-separated text entity over a package list: printer, parser, and when they are inverse. */
module PackagesText {
  import opened Wrappers
  import opened Ordering
  import opened PolicyDocument
  import opened Coordinator
  import Ha = HaValidator
  import W = Writes

  /** The characters str.strip removes. */
  predicate IsSpace(c: char) {
    var n := c as int;
    || 0x09 <= n <= 0x0D || 0x1C <= n <= 0x20 || n == 0x85 || n == 0xA0 || n == 0x1680
    || 0x2000 <= n <= 0x200A || n == 0x2028 || n == 0x2029 || n == 0x202F || n == 0x205F || n == 0x3000
  }

  function StripLeft(s: string): string {
    if s != "" && IsSpace(s[0]) then StripLeft(s[1..]) else s
  }

  function StripRight(s: string): string {
    if s != "" && IsSpace(s[|s| - 1]) then StripRight(s[..|s| - 1]) else s
  }

  function Strip(s: string): string { StripRight(StripLeft(s)) }

  /** ",".join */
  function Join(names: seq<string>): string {
    if names == [] then "" else if |names| == 1 then names[0] else names[0] + "," + Join(names[1..])
  }

  function FirstComma(s: string): nat
    ensures FirstComma(s) <= |s|
    ensures FirstComma(s) < |s| ==> s[FirstComma(s)] == ','
    ensures forall i :: 0 <= i < FirstComma(s) ==> s[i] != ','
  {
    if s == "" || s[0] == ',' then 0 else 1 + FirstComma(s[1..])
  }

  /** split(",") */
  function Split(s: string): seq<string>
    decreases |s|
  {
    var i := FirstComma(s);
    if i == |s| then [s] else [s[..i]] + Split(s[i + 1..])
  }

  /** The list comprehension of async_set_value. */
  function KeepNamed(parts: seq<string>): seq<string> {
    if parts == [] then []
    else (if Strip(parts[0]) != "" then [Strip(parts[0])] else []) + KeepNamed(parts[1..])
  }

  /** native_value and async_set_value */
  function Shown(names: seq<string>): string { Join(names) }

  function Read(text: string): seq<string> { KeepNamed(Split(text)) }

  /** A name the text form can carry: not empty, no comma, no space at either end. */
  predicate Clean(name: string) {
    name != "" && ',' !in name && !IsSpace(name[0]) && !IsSpace(name[|name| - 1])
  }

  lemma StripOfClean(name: string)
    requires Clean(name)
    ensures Strip(name) == name
  {
  }

  lemma StripLeftShape(s: string)
    ensures StripLeft(s) != "" ==> !IsSpace(StripLeft(s)[0])
    ensures ',' !in s ==> ',' !in StripLeft(s)
  {
  }

  lemma StripRightShape(s: string)
    ensures StripRight(s) != "" ==> s != "" && !IsSpace(StripRight(s)[|StripRight(s)| - 1]) && StripRight(s)[0] == s[0]
    ensures ',' !in s ==> ',' !in StripRight(s)
  {
  }

  lemma StrippedIsClean(part: string)
    requires ',' !in part && Strip(part) != ""
    ensures Clean(Strip(part))
  {
    StripLeftShape(part);
    StripRightShape(StripLeft(part));
  }

  lemma {:induction false} SplitHasNoCommas(s: string)
    ensures forall part :: part in Split(s) ==> ',' !in part
    decreases |s|
  {
    var i := FirstComma(s);
    if i < |s| {
      SplitHasNoCommas(s[i + 1..]);
    }
  }

  lemma {:induction false} KeptAreClean(parts: seq<string>)
    requires forall part :: part in parts ==> ',' !in part
    ensures forall name :: name in KeepNamed(parts) ==> Clean(name)
  {
    if parts != [] {
      assert parts[0] in parts;
      KeptAreClean(parts[1..]);
      if Strip(parts[0]) != "" {
        StrippedIsClean(parts[0]);
      }
    }
  }

  lemma FirstCommaSkips(name: string, rest: string)
    requires ',' !in name
    ensures FirstComma(name + "," + rest) == |name|
  {
    var s := name + "," + rest;
    assert s[|name|] == ',';
    assert forall i :: 0 <= i < |name| ==> s[i] == name[i] && name[i] in name;
  }

  lemma {:induction false} SplitOfJoin(names: seq<string>)
    requires forall n :: n in names ==> ',' !in n
    requires names != []
    ensures Split(Join(names)) == names
  {
    assert names[0] in names;
    if |names| == 1 {
      assert FirstComma(names[0]) == |names[0]|;
    } else {
      FirstCommaSkips(names[0], Join(names[1..]));
      var s := Join(names);
      assert s[..|names[0]|] == names[0] && s[|names[0]| + 1..] == Join(names[1..]);
      SplitOfJoin(names[1..]);
    }
  }

  lemma {:induction false} KeepAllClean(names: seq<string>)
    requires forall n :: n in names ==> Clean(n)
    ensures KeepNamed(names) == names
  {
    if names != [] {
      assert names[0] in names;
      StripOfClean(names[0]);
      KeepAllClean(names[1..]);
    }
  }

  /** Reading back what is shown gives the list, exactly when every name is clean. */
  lemma RoundTripIffClean(names: seq<string>)
    ensures Read(Shown(names)) == names <==> forall n :: n in names ==> Clean(n)
  {
    if forall n :: n in names ==> Clean(n) {
      if names == [] {
        assert Split("") == [""] && Strip("") == "";
        assert [""][1..] == [];
      } else {
        SplitOfJoin(names);
        KeepAllClean(names);
      }
    }
    SplitHasNoCommas(Shown(names));
    KeptAreClean(Split(Shown(names)));
  }

  // ----- what any typed text is read as ---------------------------------------------------------

  /** The white space of Unicode, one by one. */
  lemma SpacesAre(c: char)
    ensures IsSpace(c) <==> c as int in {
      9, 10, 11, 12, 13, 28, 29, 30, 31, 32, 133, 160, 5760, 8192, 8193, 8194, 8195, 8196, 8197, 8198, 8199, 8200,
      8201, 8202, 8232, 8233, 8239, 8287, 12288 }
  {
  }

  predicate AllSpace(s: string) { forall i :: 0 <= i < |s| ==> IsSpace(s[i]) }

  predicate Trimmed(name: string) { name == "" || (!IsSpace(name[0]) && !IsSpace(name[|name| - 1])) }

  /** The part is the name with white space around it. */
  predicate Surrounds(part: string, left: string, name: string, right: string) {
    part == left + name + right && AllSpace(left) && AllSpace(right)
  }

  lemma {:induction false} StripLeftOf(left: string, rest: string)
    requires AllSpace(left) && (rest == "" || !IsSpace(rest[0]))
    ensures StripLeft(left + rest) == rest
  {
    if left == "" {
      assert left + rest == rest;
    } else {
      assert (left + rest)[1..] == left[1..] + rest;
      StripLeftOf(left[1..], rest);
    }
  }

  lemma {:induction false} StripRightOf(rest: string, right: string)
    requires AllSpace(right) && (rest == "" || !IsSpace(rest[|rest| - 1]))
    ensures StripRight(rest + right) == rest
  {
    if right == "" {
      assert rest + right == rest;
    } else {
      var s := rest + right;
      assert s[..|s| - 1] == rest + right[..|right| - 1];
      StripRightOf(rest, right[..|right| - 1]);
    }
  }

  lemma {:induction false} StripLeftSplits(s: string) returns (left: string)
    ensures AllSpace(left) && s == left + StripLeft(s)
  {
    if s != "" && IsSpace(s[0]) {
      var more := StripLeftSplits(s[1..]);
      left := [s[0]] + more;
      assert s == [s[0]] + s[1..];
    } else {
      left := "";
    }
  }

  lemma {:induction false} StripRightSplits(s: string) returns (right: string)
    ensures AllSpace(right) && s == StripRight(s) + right
  {
    if s != "" && IsSpace(s[|s| - 1]) {
      var more := StripRightSplits(s[..|s| - 1]);
      right := more + [s[|s| - 1]];
      assert s == s[..|s| - 1] + [s[|s| - 1]];
    } else {
      right := "";
    }
  }

  /** Stripping removes the white space at both ends, all of it and nothing else. */
  lemma StripIff(part: string, name: string)
    requires Trimmed(name) && name != ""
    ensures Strip(part) == name <==> exists left, right :: Surrounds(part, left, name, right)
  {
    if Strip(part) == name {
      var left := StripLeftSplits(part);
      var right := StripRightSplits(StripLeft(part));
      assert part == left + name + right;
      assert Surrounds(part, left, name, right);
    }
    if exists left, right :: Surrounds(part, left, name, right) {
      var left, right :| Surrounds(part, left, name, right);
      assert part == left + (name + right);
      StripLeftOf(left, name + right);
      StripRightOf(name, right);
    }
  }

  lemma StripIsTrimmed(part: string)
    ensures Trimmed(Strip(part))
  {
    StripLeftShape(part);
    StripRightShape(StripLeft(part));
  }

  lemma {:induction false} KeptIff(parts: seq<string>, name: string)
    ensures name in KeepNamed(parts) <==> name != "" && exists part :: part in parts && Strip(part) == name
  {
    if parts != [] {
      KeptIff(parts[1..], name);
      assert parts == [parts[0]] + parts[1..];
    }
  }

  /** Any text is parts without commas between commas. */
  lemma {:induction false} TextIsParts(text: string)
    ensures Split(text) != [] && Join(Split(text)) == text
    ensures forall part :: part in Split(text) ==> ',' !in part
    decreases |text|
  {
    SplitHasNoCommas(text);
    if FirstComma(text) < |text| {
      var part, rest := SplitStep(text);
      hide Split, Join;
      TextIsParts(rest);
      JoinCons(part, Split(rest));
    }
  }

  lemma SplitStep(text: string) returns (part: string, rest: string)
    requires FirstComma(text) < |text|
    ensures text == part + "," + rest && |rest| < |text| && Split(text) == [part] + Split(rest)
  {
    var i := FirstComma(text);
    part, rest := text[..i], text[i + 1..];
  }

  lemma JoinCons(part: string, rest: seq<string>)
    requires rest != []
    ensures Join([part] + rest) == part + "," + Join(rest)
  {
    assert ([part] + rest)[1..] == rest;
  }

  /**
   * What typed text is read as: a name is taken exactly when it is not empty,
   * has no white space at either end, and is one of the parts between commas
   * with white space around it.
   */
  lemma ReadIff(parts: seq<string>, name: string)
    requires parts != [] && forall part :: part in parts ==> ',' !in part
    ensures name in Read(Join(parts)) <==>
      name != "" && Trimmed(name) && exists part, left, right :: part in parts && Surrounds(part, left, name, right)
  {
    SplitOfJoin(parts);
    KeptIff(parts, name);
    forall part | part in parts && name != "" && Trimmed(name)
      ensures Strip(part) == name <==> exists left, right :: Surrounds(part, left, name, right)
    {
      StripIff(part, name);
    }
    if name in Read(Join(parts)) {
      var part :| part in parts && Strip(part) == name;
      StripIsTrimmed(part);
      var left, right :| Surrounds(part, left, name, right);
    }
  }

  /** Names keep the order of their parts, repetitions included. */
  lemma {:induction false} ReadInOrder(first: seq<string>, rest: seq<string>)
    requires first != [] && rest != [] && forall part :: part in first + rest ==> ',' !in part
    ensures Read(Join(first + rest)) == Read(Join(first)) + Read(Join(rest))
  {
    assert (forall part :: part in first ==> part in first + rest) && (forall part :: part in rest ==> part in first + rest);
    SplitOfJoin(first + rest);
    SplitOfJoin(first);
    SplitOfJoin(rest);
    KeptOfBoth(first, rest);
  }

  lemma {:induction false} KeptOfBoth(first: seq<string>, rest: seq<string>)
    ensures KeepNamed(first + rest) == KeepNamed(first) + KeepNamed(rest)
  {
    if first == [] {
      assert first + rest == rest;
    } else {
      assert (first + rest)[0] == first[0] && (first + rest)[1..] == first[1..] + rest;
      KeptOfBoth(first[1..], rest);
    }
  }

  // ----- resubmitting the displayed text ------------------------------------------------------

  /** The list the entity for this key displays. */
  function ListAt(desired: Doc, key: Key): seq<string> {
    if key in desired && desired[key].Arr? then
      seq(|desired[key].items|, i requires 0 <= i < |desired[key].items| =>
        if desired[key].items[i].Str? then desired[key].items[i].s else "")
    else []
  }

  /** Submitting an entity's own text unchanged changes nothing, as long as the names are clean. */
  lemma ResubmittingChangesNothing(desired: Doc, key: Key)
    requires Ha.IsNormal(desired) && (key.KioskPackages? || key.AllowedPackages?)
    requires forall n :: n in ListAt(desired, key) ==> Clean(n)
    ensures Ha.Validate(Merge(desired, SetKey(key, Arr(Strings(Read(Shown(ListAt(desired, key)))))))) == Ok(desired)
  {
    var names := ListAt(desired, key);
    RoundTripIffClean(names);
    W.NormalIsComplete(desired);
    assert Arr(Strings(names)) == desired[key] by {
      var items := desired[key].items;
      assert Ha.IsNameList(desired[key]);
      forall i | 0 <= i < |items| ensures Strings(names)[i] == items[i] {
        assert items[i] in items;
      }
    }
    assert Merge(desired, SetKey(key, desired[key])) == desired;
  }

  /**
   * A name that is not clean does not survive: submitting the kiosk list, or
   * any list in open mode, with such a name in it never leaves the policy as
   * it was. (Under an allowlist a kiosk package is folded back in regardless.)
   */
  lemma ResubmittingLosesUncleanNames(desired: Doc, key: Key, name: string)
    requires Ha.IsNormal(desired) && (key.KioskPackages? || (key.AllowedPackages? && Ha.Meaning(desired).mode.Open?))
    requires name in ListAt(desired, key) && !Clean(name)
    ensures Ha.Validate(Merge(desired, SetKey(key, Arr(Strings(Read(Shown(ListAt(desired, key)))))))) != Ok(desired)
  {
    var names := ListAt(desired, key);
    var read := Read(Shown(names));
    var change := SetKey(key, Arr(Strings(read)));
    SplitHasNoCommas(Shown(names));
    KeptAreClean(Split(Shown(names)));
    assert "" !in read;
    Ha.NamesOfStrings(read);
    W.NormalIsComplete(desired);
    var i :| 0 <= i < |names| && names[i] == name;
    assert desired[key].items[i] in desired[key].items;
    assert name in Ha.Names(desired[key]) && name !in Ha.Names(Arr(Strings(read)));
    NormalListsAreMeanings(desired);
    var result := Ha.Validate(Merge(desired, change));
    if result.Ok? {
      W.WriteOutcome(desired, change);
      Ha.ReadsBack(CodePoint, W.Changed(Ha.Meaning(desired), change)) by {
        Ha.AcceptedIsSafe(Merge(desired, change));
        W.MergeMeans(desired, change);
      }
      assert Ha.Meaning(result.value) != Ha.Meaning(desired);
    }
  }

  /** The lists of a normal document are its kiosk and allowed sets. */
  lemma NormalListsAreMeanings(desired: Doc)
    requires Ha.IsNormal(desired)
    ensures KioskPackages in desired && Ha.Names(desired[KioskPackages]) == Ha.Meaning(desired).kiosk
    ensures AllowedPackages in desired && Ha.Names(desired[AllowedPackages]) == Ha.Meaning(desired).allowed
  {
    Ha.NormalIsSafe(desired);
    var r := RecordOf(CodePoint, Ha.Meaning(desired));
    Ha.RecordMeans(CodePoint, Ha.Meaning(desired));
    assert "" !in r.kiosk by { assert "" in r.kiosk ==> "" in Elements(r.kiosk); }
    assert "" !in r.allowed by { assert "" in r.allowed ==> "" in Elements(r.allowed); }
    Ha.NamesOfStrings(r.kiosk);
    Ha.NamesOfStrings(r.allowed);
    assert desired == ToJson(r);
  }
}

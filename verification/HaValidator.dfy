/** The Home Assistant side of the document language (custom_components/local_mdm/policy.py). */
module HaValidator {
  import opened Wrappers
  import opened Ordering
  import opened PolicyDocument

  predicate IsNameList(j: Json) {
    j.Arr? && forall x :: x in j.items ==> x.Str? && x.s != ""
  }

  function Names(j: Json): set<string> {
    if j.Arr? then set x | x in j.items && x.Str? :: x.s else {}
  }

  /** The packages a document lists under a key, without the DPC itself. */
  function Packages(doc: Doc, key: Key): set<string> {
    if key in doc then Names(doc[key]) - {DPC_PACKAGE} else {}
  }

  predicate HasBadList(doc: Doc, key: Key) { key in doc && !IsNameList(doc[key]) }

  predicate HasBadMode(doc: Doc) {
    AppMode in doc && doc[AppMode] != Str(OPEN) && doc[AppMode] != Str(ALLOWLIST)
  }

  function ModeOf(doc: Doc): Mode {
    if AppMode in doc && doc[AppMode] == Str(ALLOWLIST) then Allowlist else Open
  }

  predicate Malformed(doc: Doc) {
    || HasUnknown(doc)
    || HasBadFlag(doc)
    || HasBadList(doc, KioskPackages)
    || HasBadList(doc, AllowedPackages)
    || HasBadMode(doc)
  }

  function Meaning(doc: Doc): Policy {
    var kiosk := Packages(doc, KioskPackages);
    Policy(FlagsOn(doc), kiosk, ModeOf(doc), Fold(ModeOf(doc), kiosk, Packages(doc, AllowedPackages)))
  }

  /** The verdict, free of check order: judge the meaning, answer with its normal form. */
  function Validate(doc: Doc): Result<Doc> {
    match Judge(doc, Malformed(doc), Meaning(doc))
    case Err(e) => Err(e)
    case Ok(p) => Ok(Render(CodePoint, p))
  }

  function DefaultPolicy(): (d: Doc)
    ensures d.Keys == KnownKeys()
  {
    map k | k in KnownKeys() ::
      if k.Flag? then Bool(false) else if k.AppMode? then Str(OPEN) else Arr([])
  }

  function SortedList(names: set<string>): Json { Arr(Strings(Sorted(CodePoint, names))) }

  /** The flag loop of validate_policy, over any listing of the flags. */
  method CopyFlags(policy: Doc, flags: seq<Flag>) returns (ok: bool, normalized: Doc)
    requires forall f: Flag :: f in flags
    ensures ok == !HasBadFlag(policy)
    ensures ok ==> normalized.Keys == KnownKeys()
    ensures ok ==> forall k :: k in KnownKeys() ==>
      normalized[k] == if k.Flag? then Bool(k.flag in FlagsOn(policy)) else DefaultPolicy()[k]
  {
    normalized := DefaultPolicy();
    for i := 0 to |flags|
      invariant normalized.Keys == KnownKeys()
      invariant forall f :: f in flags[..i] && Flag(f) in policy ==> policy[Flag(f)].Bool?
      invariant forall k :: k in KnownKeys() ==>
        normalized[k] == if k.Flag? && k.flag in flags[..i] && k in policy then policy[k] else DefaultPolicy()[k]
    {
      var key := Flag(flags[i]);
      assert flags[..i + 1] == flags[..i] + [flags[i]];
      if key in policy {
        if !policy[key].Bool? {
          return false, normalized;
        }
        normalized := normalized[key := policy[key]];
      }
    }
    assert flags[..|flags|] == flags;
    return true, normalized;
  }

  /** The list loop of validate_policy. */
  method CopyLists(policy: Doc, flagged: Doc) returns (ok: bool, normalized: Doc)
    ensures ok == !(HasBadList(policy, KioskPackages) || HasBadList(policy, AllowedPackages))
    ensures ok ==> normalized == flagged
      [KioskPackages := SortedList(Packages(policy, KioskPackages))]
      [AllowedPackages := SortedList(Packages(policy, AllowedPackages))]
  {
    normalized := flagged;
    var lists := [KioskPackages, AllowedPackages];
    for i := 0 to 2
      invariant forall j :: 0 <= j < i ==> !HasBadList(policy, lists[j])
      invariant i == 0 ==> normalized == flagged
      invariant i == 1 ==> normalized == flagged[KioskPackages := SortedList(Packages(policy, KioskPackages))]
      invariant i == 2 ==> normalized == flagged
        [KioskPackages := SortedList(Packages(policy, KioskPackages))]
        [AllowedPackages := SortedList(Packages(policy, AllowedPackages))]
    {
      var key := lists[i];
      var packages := if key in policy then policy[key] else Arr([]);
      if !IsNameList(packages) {
        return false, normalized;
      }
      assert Names(packages) - {DPC_PACKAGE} == Packages(policy, key);
      normalized := normalized[key := SortedList(Names(packages) - {DPC_PACKAGE})];
    }
    assert !HasBadList(policy, lists[0]) && !HasBadList(policy, lists[1]);
    return true, normalized;
  }

  lemma Assembled(policy: Doc, d: Doc)
    requires !HasBadMode(policy)
    requires d.Keys == KnownKeys()
    requires forall k :: k in KnownKeys() && k.Flag? ==> d[k] == Bool(k.flag in FlagsOn(policy))
    requires d[KioskPackages] == SortedList(Meaning(policy).kiosk)
    requires d[AllowedPackages] == SortedList(Meaning(policy).allowed)
    requires d[AppMode] == if AppMode in policy then policy[AppMode] else Str(OPEN)
    ensures d == Render(CodePoint, Meaning(policy))
  {
  }

  /** The end of validate_policy: fold the kiosk target in, then refuse a policy with nothing to open. */
  method FoldAndGuard(policy: Doc, filled: Doc) returns (r: Result<Doc>)
    requires !HasForbidden(policy) && !Malformed(policy)
    requires filled.Keys == KnownKeys()
    requires forall k :: k in KnownKeys() && k.Flag? ==> filled[k] == Bool(k.flag in FlagsOn(policy))
    requires filled[KioskPackages] == SortedList(Packages(policy, KioskPackages))
    requires filled[AllowedPackages] == SortedList(Packages(policy, AllowedPackages))
    requires filled[AppMode] == if AppMode in policy then policy[AppMode] else Str(OPEN)
    ensures r == Validate(policy)
  {
    var normalized := filled;
    var kiosk, allowed := Packages(policy, KioskPackages), Packages(policy, AllowedPackages);
    assert (normalized[AppMode] == Str(ALLOWLIST)) == ModeOf(policy).Allowlist?;
    if normalized[AppMode] == Str(ALLOWLIST) {
      normalized := normalized[AllowedPackages := SortedList(allowed + kiosk)];
      if allowed + kiosk == {} {
        return Err(Unsafe);
      }
    }
    if normalized[Flag(KioskMode)] == Bool(true) && kiosk == {} {
      return Err(Unsafe);
    }
    Assembled(policy, normalized);
    return Ok(normalized);
  }

  /** validate_policy: checks in the source's order, first failure wins, a dictionary filled key by key. */
  method ValidatePolicy(policy: Doc) returns (r: Result<Doc>)
    ensures r == Validate(policy)
  {
    if HasForbidden(policy) {
      return Err(Unsafe);
    }
    if HasUnknown(policy) {
      return Err(Invalid);
    }
    forall f: Flag ensures f in FLAGS {
      EveryFlagIsListed(f);
    }
    var flagsOk, normalized := CopyFlags(policy, FLAGS);
    if !flagsOk {
      return Err(Invalid);
    }
    var listsOk;
    listsOk, normalized := CopyLists(policy, normalized);
    if !listsOk {
      return Err(Invalid);
    }
    var mode := if AppMode in policy then policy[AppMode] else Str(OPEN);
    if mode != Str(OPEN) && mode != Str(ALLOWLIST) {
      return Err(Invalid);
    }
    normalized := normalized[AppMode := mode];
    r := FoldAndGuard(policy, normalized);
  }

  // ----- what acceptance means ----------------------------------------------------

  /** An accepted document is the code-point rendering of a safe policy. */
  lemma AcceptedIsSafe(doc: Doc)
    requires Validate(doc).Ok?
    ensures Safe(Meaning(doc)) && Validate(doc).value == Render(CodePoint, Meaning(doc))
  {
  }

  lemma NamesOfStrings(names: seq<string>)
    requires "" !in names
    ensures IsNameList(Arr(Strings(names))) && Names(Arr(Strings(names))) == Elements(names)
  {
    var items := Strings(names);
    forall x | x in items ensures x.Str? && x.s != "" && x.s in Elements(names) {
      var i :| 0 <= i < |items| && items[i] == x;
    }
    forall n | n in names ensures n in Names(Arr(items)) {
      var i :| 0 <= i < |names| && names[i] == n;
      assert items[i] == Str(n);
    }
  }

  lemma WrittenFlags(r: Record)
    ensures FlagsOn(ToJson(r)) == r.on
  {
  }

  lemma WrittenMode(r: Record)
    ensures ModeOf(ToJson(r)) == r.mode && !HasBadMode(ToJson(r))
  {
  }

  lemma WrittenList(r: Record, key: Key)
    requires key.KioskPackages? || key.AllowedPackages?
    requires Safe(PolicyOf(r))
    ensures !HasBadList(ToJson(r), key)
    ensures Packages(ToJson(r), key) == Elements(if key.KioskPackages? then r.kiosk else r.allowed)
  {
    var list := if key.KioskPackages? then r.kiosk else r.allowed;
    assert "" !in list by { assert "" in list ==> "" in Elements(list); }
    NamesOfStrings(list);
    assert ToJson(r)[key] == Arr(Strings(list));
  }

  /** A written document means what was written, whatever order its lists are in. */
  lemma WrittenMeans(r: Record)
    requires Safe(PolicyOf(r))
    ensures !HasForbidden(ToJson(r)) && !Malformed(ToJson(r)) && Meaning(ToJson(r)) == PolicyOf(r)
  {
    WrittenFlags(r);
    WrittenMode(r);
    WrittenList(r, KioskPackages);
    WrittenList(r, AllowedPackages);
    var p := PolicyOf(r);
    assert Fold(p.mode, p.kiosk, p.allowed) == p.allowed;
  }

  lemma RecordMeans(o: Order, p: Policy)
    ensures PolicyOf(RecordOf(o, p)) == p
  {
  }

  /** Whatever order the writer sorted in, the reader recovers exactly the policy written. */
  lemma ReadsBack(o: Order, p: Policy)
    requires Safe(p)
    ensures Meaning(Render(o, p)) == p
    ensures Validate(Render(o, p)) == Ok(Render(CodePoint, p))
  {
    RecordMeans(o, p);
    WrittenMeans(RecordOf(o, p));
  }

  /** Normalising is idempotent: sort, dedupe and fold change nothing the second time. */
  lemma ValidateIsIdempotent(doc: Doc)
    requires Validate(doc).Ok?
    ensures Validate(Validate(doc).value) == Validate(doc)
  {
    AcceptedIsSafe(doc);
    ReadsBack(CodePoint, Meaning(doc));
  }

  ghost predicate IsNormal(doc: Doc) { Validate(doc) == Ok(doc) }

  /** A normal document is the rendering of the safe policy it means. */
  lemma NormalIsSafe(doc: Doc)
    requires IsNormal(doc)
    ensures Safe(Meaning(doc)) && doc == Render(CodePoint, Meaning(doc))
  {
  }

  lemma DefaultIsNormal()
    ensures IsNormal(DefaultPolicy())
  {
    var p := Policy({}, {}, Open, {});
    EmptyElements(Sorted(CodePoint, {}));
    assert Strings(Sorted(CodePoint, {})) == [];
    assert DefaultPolicy() == Render(CodePoint, p);
    ReadsBack(CodePoint, p);
  }
}

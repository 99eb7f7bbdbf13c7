/** The tablet side of the document language (android Policy.kt). Record is its data class. */
module DpcCodec {
  import opened Wrappers
  import opened Ordering
  import opened PolicyDocument

  /** What optString makes of a value: every JSON value has a text. */
  function Text(j: Json): string {
    match j
    case Null => "null"
    case Bool(b) => if b then "true" else "false"
    case Num(text) => text
    case Str(s) => s
    case Arr(items) => "[" + Texts(items) + "]"
    case Obj(text) => text
  }

  function Texts(items: seq<Json>): string {
    if items == [] then "" else Text(items[0]) + (if |items| == 1 then "" else ",") + Texts(items[1..])
  }

  /** optJSONArray: anything but an array counts as absent. */
  function Items(doc: Doc, key: Key): seq<Json> {
    if key in doc && doc[key].Arr? then doc[key].items else []
  }

  predicate HasEmptyName(items: seq<Json>) { exists j :: j in items && Text(j) == "" }

  function Names(items: seq<Json>): set<string> { set j | j in items :: Text(j) }

  function Packages(doc: Doc, key: Key): set<string> { Names(Items(doc, key)) - {DPC_PACKAGE} }

  function ModeText(doc: Doc): string { if AppMode in doc then Text(doc[AppMode]) else OPEN }

  predicate HasBadMode(doc: Doc) { ModeText(doc) != OPEN && ModeText(doc) != ALLOWLIST }

  function ModeOf(doc: Doc): Mode { if ModeText(doc) == ALLOWLIST then Allowlist else Open }

  predicate Malformed(doc: Doc) {
    || HasUnknown(doc)
    || HasBadFlag(doc)
    || HasEmptyName(Items(doc, KioskPackages))
    || HasEmptyName(Items(doc, AllowedPackages))
    || HasBadMode(doc)
  }

  function Meaning(doc: Doc): Policy {
    var kiosk := Packages(doc, KioskPackages);
    Policy(FlagsOn(doc), kiosk, ModeOf(doc), Fold(ModeOf(doc), kiosk, Packages(doc, AllowedPackages)))
  }

  /** The verdict, free of check order. */
  function Decode(doc: Doc): Result<Record> {
    match Judge(doc, Malformed(doc), Meaning(doc))
    case Err(e) => Err(e)
    case Ok(p) => Ok(RecordOf(Utf16, p))
  }

  /** The inner function packages: one pass over the array, filling a mutable set. */
  method ReadPackages(doc: Doc, key: Key) returns (ok: bool, names: seq<string>)
    ensures ok == !HasEmptyName(Items(doc, key))
    ensures ok ==> names == Sorted(Utf16, Packages(doc, key))
  {
    var items := Items(doc, key);
    var out: set<string> := {};
    for i := 0 to |items|
      invariant forall j :: 0 <= j < i ==> Text(items[j]) != ""
      invariant out == Names(items[..i]) - {DPC_PACKAGE}
    {
      var name := Text(items[i]);
      assert items[..i + 1] == items[..i] + [items[i]];
      assert Names(items[..i + 1]) == Names(items[..i]) + {name};
      if name == "" {
        return false, [];
      }
      if name != DPC_PACKAGE {
        out := out + {name};
      }
    }
    assert items[..|items|] == items;
    return true, Sorted(Utf16, out);
  }

  /** The constructor arguments: one flag read per key. */
  method ReadFlags(doc: Doc, flags: seq<Flag>) returns (ok: bool, on: set<Flag>)
    requires forall f: Flag :: f in flags
    ensures ok == !HasBadFlag(doc)
    ensures ok ==> on == FlagsOn(doc)
  {
    on := {};
    for i := 0 to |flags|
      invariant forall f :: f in flags[..i] && Flag(f) in doc ==> doc[Flag(f)].Bool?
      invariant forall f: Flag :: f in on <==> f in flags[..i] && f in FlagsOn(doc)
    {
      var key := Flag(flags[i]);
      assert flags[..i + 1] == flags[..i] + [flags[i]];
      if key in doc {
        if !doc[key].Bool? {
          return false, on;
        }
        if doc[key].b {
          on := on + {flags[i]};
        }
      }
    }
    assert flags[..|flags|] == flags;
    return true, on;
  }

  /** fromJson, checking in its own order: lists and mode before flags, kiosk before allowlist. */
  method FromJson(doc: Doc) returns (r: Result<Record>)
    ensures r == Decode(doc)
  {
    if HasForbidden(doc) {
      return Err(Unsafe);
    }
    if HasUnknown(doc) {
      return Err(Invalid);
    }
    var ok, packages := ReadPackages(doc, KioskPackages);
    if !ok {
      return Err(Invalid);
    }
    var mode := ModeText(doc);
    if mode != OPEN && mode != ALLOWLIST {
      return Err(Invalid);
    }
    var listed;
    ok, listed := ReadPackages(doc, AllowedPackages);
    if !ok {
      return Err(Invalid);
    }
    var allowed := if mode == ALLOWLIST then Sorted(Utf16, Elements(listed) + Elements(packages)) else listed;
    forall f: Flag ensures f in FLAGS {
      EveryFlagIsListed(f);
    }
    var on;
    ok, on := ReadFlags(doc, FLAGS);
    if !ok {
      return Err(Invalid);
    }
    var policy := Record(on, packages, if mode == ALLOWLIST then Allowlist else Open, allowed);
    assert policy == RecordOf(Utf16, Meaning(doc));
    EmptyElements(policy.kiosk);
    EmptyElements(policy.allowed);
    if KioskMode in policy.on && policy.kiosk == [] {
      return Err(Unsafe);
    }
    if policy.mode.Allowlist? && policy.allowed == [] {
      return Err(Unsafe);
    }
    return Ok(policy);
  }

  // ----- what a decoded policy is ---------------------------------------------------

  /** What fromJson can produce: a safe policy with its lists in the tablet's order. */
  ghost predicate Producible(r: Record) {
    && Safe(PolicyOf(r))
    && r == RecordOf(Utf16, PolicyOf(r))
  }

  lemma DecodedIsProducible(doc: Doc)
    requires Decode(doc).Ok?
    ensures Producible(Decode(doc).value) && PolicyOf(Decode(doc).value) == Meaning(doc)
  {
  }

  lemma ItemsOfStrings(names: seq<string>)
    requires "" !in names
    ensures !HasEmptyName(Strings(names)) && Names(Strings(names)) == Elements(names)
  {
    var items := Strings(names);
    forall j | j in items ensures Text(j) != "" && Text(j) in Elements(names) {
      var i :| 0 <= i < |items| && items[i] == j;
    }
    forall n | n in names ensures n in Names(items) {
      var i :| 0 <= i < |names| && names[i] == n;
      assert items[i] == Str(n) && items[i] in items && Text(items[i]) == n;
    }
  }

  lemma WrittenList(r: Record, key: Key)
    requires key.KioskPackages? || key.AllowedPackages?
    requires Safe(PolicyOf(r))
    ensures !HasEmptyName(Items(ToJson(r), key))
    ensures Packages(ToJson(r), key) == Elements(if key.KioskPackages? then r.kiosk else r.allowed)
  {
    var list := if key.KioskPackages? then r.kiosk else r.allowed;
    assert "" !in list by { assert "" in list ==> "" in Elements(list); }
    ItemsOfStrings(list);
    assert ToJson(r)[key] == Arr(Strings(list));
  }

  lemma WrittenMode(r: Record)
    ensures ModeOf(ToJson(r)) == r.mode && !HasBadMode(ToJson(r))
  {
  }

  /** A document with safe content means what was written, whichever side sorted it. */
  lemma WrittenMeans(r: Record)
    requires Safe(PolicyOf(r))
    ensures !HasForbidden(ToJson(r)) && !Malformed(ToJson(r)) && Meaning(ToJson(r)) == PolicyOf(r)
  {
    WrittenMode(r);
    WrittenList(r, KioskPackages);
    WrittenList(r, AllowedPackages);
    var p := PolicyOf(r);
    assert Fold(p.mode, p.kiosk, p.allowed) == p.allowed;
    assert FlagsOn(ToJson(r)) == r.on by {
      forall f: Flag ensures f in FlagsOn(ToJson(r)) <==> f in r.on {
        assert ToJson(r)[Flag(f)] == Bool(f in r.on);
      }
    }
  }

  /** fromJson(toJson(p)) == p for every p fromJson can produce: the store never falls back to its default. */
  lemma StoreRoundTrip(r: Record)
    requires Producible(r)
    ensures Decode(ToJson(r)) == Ok(r)
  {
    WrittenMeans(r);
  }

  /** Producible is exactly the image of the decoder. */
  lemma ProducibleIffDecoded(r: Record)
    ensures Producible(r) <==> exists doc :: Decode(doc) == Ok(r)
  {
    if Producible(r) {
      StoreRoundTrip(r);
    }
    forall doc | Decode(doc) == Ok(r) ensures Producible(r) {
      DecodedIsProducible(doc);
    }
  }
}

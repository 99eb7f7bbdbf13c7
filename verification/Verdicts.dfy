/**
 * Both validators in the document's own terms: which documents are refused and
 * how, and what an accepted one contains afterwards, key by key.
 */
module Verdicts {
  import opened Wrappers
  import opened Ordering
  import opened PolicyDocument
  import Ha = HaValidator
  import Dpc = DpcCodec

  /** A key that could cut the management path. */
  predicate CutsOff(doc: Doc) {
    exists name :: Other(name) in doc && name in {
      "no_config_wifi", "no_config_tethering", "no_network_reset", "no_config_mobile_networks", "no_airplane_mode",
      "no_debugging_features", "no_config_private_dns", "no_config_vpn", "wifi_disabled", "network_settings_blocked",
      "adb_disabled", "user_restrictions", "global_settings", "secure_settings" }
  }

  predicate IsOn(doc: Doc, f: Flag) { Flag(f) in doc && doc[Flag(f)] == Bool(true) }

  // ----- Home Assistant ---------------------------------------------------------------------

  predicate Lists(doc: Doc, key: Key, name: string) { key in doc && doc[key].Arr? && Str(name) in doc[key].items }

  /** Every key is known and has a value of its kind. */
  predicate HaWellFormed(doc: Doc) {
    forall k :: k in doc ==>
      match k {
        case Flag(_) => doc[k].Bool?
        case AppMode => doc[k] == Str("open") || doc[k] == Str("allowlist")
        case Other(_) => false
        case _ => doc[k].Arr? && forall x :: x in doc[k].items ==> x.Str? && x.s != ""
      }
  }

  /** A kiosk with no target, or an allowlist with nothing to open. */
  ghost predicate HaTraps(doc: Doc) {
    || (IsOn(doc, KioskMode) && forall x :: Lists(doc, KioskPackages, x) ==> x == "com.trooperthorn.localmdm")
    || (AppMode in doc && doc[AppMode] == Str("allowlist") &&
        forall x :: Lists(doc, KioskPackages, x) || Lists(doc, AllowedPackages, x) ==> x == "com.trooperthorn.localmdm")
  }

  /** Exactly which documents are refused as unsafe, which as invalid, and which are accepted. */
  lemma HaVerdict(doc: Doc)
    ensures Ha.Validate(doc) == Err(Unsafe) <==> CutsOff(doc) || (HaWellFormed(doc) && HaTraps(doc))
    ensures Ha.Validate(doc) == Err(Invalid) <==> !CutsOff(doc) && !HaWellFormed(doc)
  {
    assert CutsOff(doc) <==> HasForbidden(doc) by { ForbiddenKeys(doc); }
    HaMalformedIff(doc);
    if HaWellFormed(doc) {
      HaDangerousIff(doc);
    }
  }

  lemma ForbiddenKeys(doc: Doc)
    ensures CutsOff(doc) <==> HasForbidden(doc)
  {
    if HasForbidden(doc) {
      var k :| k in doc && IsForbidden(k);
      assert Other(k.name) in doc;
    }
  }

  lemma HaMalformedIff(doc: Doc)
    ensures Ha.Malformed(doc) <==> !HaWellFormed(doc)
  {
    if !Ha.Malformed(doc) {
      forall k | k in doc ensures match k {
          case Flag(_) => doc[k].Bool?
          case AppMode => doc[k] == Str("open") || doc[k] == Str("allowlist")
          case Other(_) => false
          case _ => doc[k].Arr? && forall x :: x in doc[k].items ==> x.Str? && x.s != ""
        } {
      }
    }
  }

  lemma HaPackagesAre(doc: Doc, key: Key, x: string)
    ensures x in Ha.Packages(doc, key) <==> x != "com.trooperthorn.localmdm" && Lists(doc, key, x)
  {
  }

  lemma HaDangerousIff(doc: Doc)
    requires HaWellFormed(doc)
    ensures Dangerous(Ha.Meaning(doc)) <==> HaTraps(doc)
  {
    var kiosk, allowed := Ha.Packages(doc, KioskPackages), Ha.Packages(doc, AllowedPackages);
    forall x { HaPackagesAre(doc, KioskPackages, x); }
    forall x { HaPackagesAre(doc, AllowedPackages, x); }
    assert kiosk == {} <==> forall x :: Lists(doc, KioskPackages, x) ==> x == "com.trooperthorn.localmdm";
    assert kiosk + allowed == {} <==>
      forall x :: Lists(doc, KioskPackages, x) || Lists(doc, AllowedPackages, x) ==> x == "com.trooperthorn.localmdm";
  }

  /** A list value: strings, each once, ascending in an order. */
  ghost predicate IsSortedList(o: Order, j: Json) {
    exists names :: j == Arr(Strings(names)) && StrictlySorted(o, names)
  }

  /** Exactly what an accepted document becomes: every key present, flags and mode kept, lists cleaned, kiosk folded in. */
  lemma HaNormalForm(doc: Doc)
    requires Ha.Validate(doc).Ok?
    ensures var d := Ha.Validate(doc).value;
      && (forall k :: k in d <==> !k.Other?)
      && (forall f :: d[Flag(f)] == Bool(IsOn(doc, f)))
      && d[AppMode] == (if AppMode in doc then doc[AppMode] else Str("open"))
      && IsSortedList(CodePoint, d[KioskPackages]) && IsSortedList(CodePoint, d[AllowedPackages])
      && (forall x :: Lists(d, KioskPackages, x) <==> x != "com.trooperthorn.localmdm" && Lists(doc, KioskPackages, x))
      && (forall x :: Lists(d, AllowedPackages, x) <==>
            && x != "com.trooperthorn.localmdm"
            && (Lists(doc, AllowedPackages, x)
                || (AppMode in doc && doc[AppMode] == Str("allowlist") && Lists(doc, KioskPackages, x))))
  {
    var d, p := Ha.Validate(doc).value, Ha.Meaning(doc);
    forall x { HaPackagesAre(doc, KioskPackages, x); }
    forall x { HaPackagesAre(doc, AllowedPackages, x); }
    forall x { WrittenNames(Sorted(CodePoint, p.kiosk), x); }
    forall x { WrittenNames(Sorted(CodePoint, p.allowed), x); }
    assert d[KioskPackages] == Arr(Strings(Sorted(CodePoint, p.kiosk)));
    assert d[AllowedPackages] == Arr(Strings(Sorted(CodePoint, p.allowed)));
  }

  lemma WrittenNames(names: seq<string>, x: string)
    ensures Str(x) in Strings(names) <==> x in Elements(names)
  {
    if x in names {
      var i :| 0 <= i < |names| && names[i] == x;
      assert Strings(names)[i] == Str(x);
    }
  }

  // ----- the tablet ---------------------------------------------------------------------------

  predicate Names(doc: Doc, key: Key, name: string) {
    key in doc && doc[key].Arr? && exists j :: j in doc[key].items && Dpc.Text(j) == name
  }

  predicate HasMode(doc: Doc, mode: string) { if AppMode in doc then Dpc.Text(doc[AppMode]) == mode else mode == "open" }

  predicate DpcWellFormed(doc: Doc) {
    && (forall k :: k in doc ==> !k.Other? && (k.Flag? ==> doc[k].Bool?))
    && !Names(doc, KioskPackages, "") && !Names(doc, AllowedPackages, "")
    && (HasMode(doc, "open") || HasMode(doc, "allowlist"))
  }

  ghost predicate DpcTraps(doc: Doc) {
    || (IsOn(doc, KioskMode) && forall x :: Names(doc, KioskPackages, x) ==> x == "com.trooperthorn.localmdm")
    || (HasMode(doc, "allowlist") &&
        forall x :: Names(doc, KioskPackages, x) || Names(doc, AllowedPackages, x) ==> x == "com.trooperthorn.localmdm")
  }

  lemma DpcPackagesAre(doc: Doc, key: Key, x: string)
    ensures x in Dpc.Packages(doc, key) <==> x != "com.trooperthorn.localmdm" && Names(doc, key, x)
  {
  }

  lemma DpcVerdict(doc: Doc)
    ensures Dpc.Decode(doc) == Err(Unsafe) <==> CutsOff(doc) || (DpcWellFormed(doc) && DpcTraps(doc))
    ensures Dpc.Decode(doc) == Err(Invalid) <==> !CutsOff(doc) && !DpcWellFormed(doc)
  {
    ForbiddenKeys(doc);
    DpcMalformedIff(doc);
    if DpcWellFormed(doc) {
      DpcDangerousIff(doc);
    }
  }

  lemma DpcMalformedIff(doc: Doc)
    ensures Dpc.Malformed(doc) <==> !DpcWellFormed(doc)
  {
  }

  lemma DpcDangerousIff(doc: Doc)
    requires DpcWellFormed(doc)
    ensures Dangerous(Dpc.Meaning(doc)) <==> DpcTraps(doc)
  {
    var kiosk, allowed := Dpc.Packages(doc, KioskPackages), Dpc.Packages(doc, AllowedPackages);
    forall x { DpcPackagesAre(doc, KioskPackages, x); }
    forall x { DpcPackagesAre(doc, AllowedPackages, x); }
    assert kiosk == {} <==> forall x :: Names(doc, KioskPackages, x) ==> x == "com.trooperthorn.localmdm";
    assert kiosk + allowed == {} <==>
      forall x :: Names(doc, KioskPackages, x) || Names(doc, AllowedPackages, x) ==> x == "com.trooperthorn.localmdm";
  }

  /** Exactly what a decoded policy is, with the texts of the items as names. */
  lemma DpcDecodes(doc: Doc)
    requires Dpc.Decode(doc).Ok?
    ensures var r := Dpc.Decode(doc).value;
      && (forall f :: f in r.on <==> IsOn(doc, f))
      && (r.mode.Allowlist? <==> HasMode(doc, "allowlist"))
      && StrictlySorted(Utf16, r.kiosk) && StrictlySorted(Utf16, r.allowed)
      && (forall x :: x in r.kiosk <==> x != "com.trooperthorn.localmdm" && Names(doc, KioskPackages, x))
      && (forall x :: x in r.allowed <==>
            && x != "com.trooperthorn.localmdm"
            && (Names(doc, AllowedPackages, x) || (HasMode(doc, "allowlist") && Names(doc, KioskPackages, x))))
  {
    var p := Dpc.Meaning(doc);
    forall x { DpcPackagesAre(doc, KioskPackages, x); }
    forall x { DpcPackagesAre(doc, AllowedPackages, x); }
    assert forall x :: x in Sorted(Utf16, p.kiosk) <==> x in Elements(Sorted(Utf16, p.kiosk));
    assert forall x :: x in Sorted(Utf16, p.allowed) <==> x in Elements(Sorted(Utf16, p.allowed));
  }

  /** The least restrictive policy of either side: everything off, open, nothing listed. */
  lemma DefaultsAreEmpty()
    ensures var d := Ha.DefaultPolicy();
      && (forall k :: k in d <==> !k.Other?) && (forall f :: d[Flag(f)] == Bool(false))
      && d[AppMode] == Str("open") && d[KioskPackages] == Arr([]) && d[AllowedPackages] == Arr([])
  {
  }
}

/** Two independent validators, one document language. */
module ValidatorAgreement {
  import opened Wrappers
  import opened Ordering
  import opened PolicyDocument
  import Ha = HaValidator
  import Dpc = DpcCodec

  predicate IsStringArray(j: Json) { j.Arr? && forall x :: x in j.items ==> x.Str? }

  /** Package lists are absent or arrays of strings, the mode is absent or a string. */
  predicate WellTyped(doc: Doc) {
    && (KioskPackages in doc ==> IsStringArray(doc[KioskPackages]))
    && (AllowedPackages in doc ==> IsStringArray(doc[AllowedPackages]))
    && (AppMode in doc ==> doc[AppMode].Str?)
  }

  lemma ListsAgree(doc: Doc, key: Key)
    requires key in doc ==> IsStringArray(doc[key])
    ensures Ha.Packages(doc, key) == Dpc.Packages(doc, key)
    ensures Ha.HasBadList(doc, key) == Dpc.HasEmptyName(Dpc.Items(doc, key))
  {
  }

  lemma ModesAgree(doc: Doc)
    requires AppMode in doc ==> doc[AppMode].Str?
    ensures Ha.HasBadMode(doc) == Dpc.HasBadMode(doc) && Ha.ModeOf(doc) == Dpc.ModeOf(doc)
  {
  }

  /**
   * One language. On well-typed documents both sides give the same verdict,
   * class and meaning, whatever order they check in; Home Assistant accepts
   * exactly the well-typed documents the tablet accepts; so whatever the tablet
   * rejects, Home Assistant rejects first.
   */
  lemma OneLanguage(doc: Doc)
    ensures WellTyped(doc) ==> Ha.Meaning(doc) == Dpc.Meaning(doc)
    ensures WellTyped(doc) ==>
      match Ha.Validate(doc) {
        case Err(e) => Dpc.Decode(doc) == Err(e)
        case Ok(d) => Dpc.Decode(doc).Ok? && PolicyOf(Dpc.Decode(doc).value) == Ha.Meaning(d)
      }
    ensures Ha.Validate(doc).Ok? <==> WellTyped(doc) && Dpc.Decode(doc).Ok?
    ensures Dpc.Decode(doc).Err? ==> Ha.Validate(doc).Err?
  {
    if WellTyped(doc) {
      ListsAgree(doc, KioskPackages);
      ListsAgree(doc, AllowedPackages);
      ModesAgree(doc);
      if Ha.Validate(doc).Ok? {
        Ha.AcceptedIsSafe(doc);
        Ha.ReadsBack(CodePoint, Ha.Meaning(doc));
      }
    }
  }

  /** The leniency is real: the tablet treats a non-array list as empty and reads numbers as names. */
  lemma DpcIsMoreLenient()
    ensures var doc: Doc := map[KioskPackages := Str("org.example.app")];
      Dpc.Decode(doc).Ok? && Ha.Validate(doc) == Err(Invalid)
    ensures var doc: Doc := map[AllowedPackages := Arr([Num("5")])];
      Dpc.Decode(doc).Ok? && Dpc.Decode(doc).value.allowed == ["5"] && Ha.Validate(doc) == Err(Invalid)
  {
    var one: Doc := map[KioskPackages := Str("org.example.app")];
    assert Ha.HasBadList(one, KioskPackages);
    var items := [Num("5")];
    var two: Doc := map[AllowedPackages := Arr(items)];
    assert items[0] in items && !items[0].Str?;
    assert Ha.HasBadList(two, AllowedPackages);
    assert Dpc.Items(two, AllowedPackages) == items;
    assert |DPC_PACKAGE| != |"5"|;
    assert Dpc.Names(items) == {"5"};
    assert Dpc.Packages(two, AllowedPackages) == {"5"};
    assert StrictlySorted(Utf16, ["5"]) && Elements(["5"]) == {"5"};
    SortedListIsFixed(Utf16, ["5"]);
  }

  // ----- the pair as a fixed point ------------------------------------------------------

  /** The tablet accepts every normal document and stores exactly its meaning. */
  lemma TabletAcceptsNormal(d: Doc)
    requires Ha.IsNormal(d)
    ensures Dpc.Decode(d) == Ok(RecordOf(Utf16, Ha.Meaning(d)))
    ensures Dpc.Producible(Dpc.Decode(d).value)
  {
    Ha.NormalIsSafe(d);
    Dpc.WrittenMeans(RecordOf(CodePoint, Ha.Meaning(d)));
    Dpc.DecodedIsProducible(d);
  }

  /** Every policy the tablet can store is one Home Assistant can own: adoption never falls back to defaults. */
  lemma HaAcceptsStored(r: Record)
    requires Dpc.Producible(r)
    ensures Ha.Validate(ToJson(r)) == Ok(Render(CodePoint, PolicyOf(r)))
    ensures Ha.Meaning(ToJson(r)) == PolicyOf(r)
  {
    Ha.WrittenMeans(r);
  }

  /**
   * Push then report: what the tablet reports about a pushed document, once
   * Home Assistant normalises it, is the document pushed, although the tablet
   * sorted the lists its own way. This is what keeps drift repair from looping.
   */
  lemma PushThenReport(d: Doc)
    requires Ha.IsNormal(d)
    ensures Dpc.Decode(d).Ok? && Ha.Validate(ToJson(Dpc.Decode(d).value)) == Ok(d)
  {
    TabletAcceptsNormal(d);
    Ha.NormalIsSafe(d);
    HaAcceptsStored(Dpc.Decode(d).value);
  }

  /** Report then push: pushing back an adopted policy stores the very same record. */
  lemma AdoptThenPush(r: Record)
    requires Dpc.Producible(r)
    ensures Ha.Validate(ToJson(r)).Ok? && Dpc.Decode(Ha.Validate(ToJson(r)).value) == Ok(r)
  {
    HaAcceptsStored(r);
    Ha.ReadsBack(CodePoint, PolicyOf(r));
    TabletAcceptsNormal(Ha.Validate(ToJson(r)).value);
  }
}

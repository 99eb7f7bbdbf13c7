/**
 * What an apply and an install do to every single package and key, in terms of
 * the policy, the device and the platform's answers.
 */
module EngineOutcomes {
  import opened Wrappers
  import opened Ordering
  import opened PolicyDocument
  import opened Enforcement
  import opened EnforcementRuns
  import Dpc = DpcCodec
  import Ha = HaValidator
  import V = ValidatorAgreement

  /** A tablet that stored nothing, or nothing it can decode, enforces what Home Assistant's default document says. */
  lemma DefaultsAgree(store: Store)
    requires store.policy.None? || Dpc.Decode(store.policy.value).Err?
    ensures Dpc.Decode(Ha.DefaultPolicy()) == Ok(StoredPolicy(store))
  {
    var d := Ha.DefaultPolicy();
    Ha.DefaultIsNormal();
    V.TabletAcceptsNormal(d);
    assert FlagsOn(d) == {} && Ha.Names(d[KioskPackages]) == {} && Ha.Names(d[AllowedPackages]) == {};
    DefaultIsProducible();
    EmptyElements(Sorted(Utf16, {}));
  }

  // ----- which packages are wanted suspended --------------------------------------------------

  /** This package, the adb shell, Settings, the system UI, the Play Store and every HOME app. */
  predicate IsSpared(pl: Platform, pkg: string) {
    || pkg in {
      "com.trooperthorn.localmdm", "com.android.shell", "com.android.settings", "com.android.systemui",
      "com.android.vending" }
    || pkg in pl.home
  }

  /** Under an allowlist: every launchable package that is neither allowed nor spared. */
  predicate IsHeldBy(p: Record, pl: Platform, pkg: string) {
    p.mode.Allowlist? && pkg in pl.launchable && pkg !in p.allowed && !IsSpared(pl, pkg)
  }

  lemma WantedIff(p: Record, pl: Platform, pkg: string)
    ensures pkg in Wanted(p, pl) <==> IsHeldBy(p, pl, pkg)
  {
  }

  // ----- every package after an apply -----------------------------------------------------------

  /** Some package this DPC suspended is no longer wanted, so the lift call is made; here it throws. */
  predicate LiftFails(st: State, p: Record, o: Oracle) {
    o.liftFault.Some? && exists x :: x in st.store.suspended && !IsHeldBy(p, st.platform, x)
  }

  /** Some package is wanted, so the hold call is made unless the lift call threw; here it throws. */
  predicate HoldFails(st: State, p: Record, o: Oracle) {
    !LiftFails(st, p, o) && o.holdFault.Some? && exists x :: x in st.platform.launchable && IsHeldBy(p, st.platform, x)
  }

  lemma FailuresAre(st: State, p: Record, o: Oracle)
    ensures LiftFails(st, p, o) <==> LiftThrows(st, p, o)
    ensures HoldFails(st, p, o) <==> HoldThrows(st, p, o)
  {
    var w := Wanted(p, st.platform);
    forall x ensures x in w <==> IsHeldBy(p, st.platform, x) { WantedIff(p, st.platform, x); }
    var lift := set x | x in st.store.suspended && !IsHeldBy(p, st.platform, x);
    assert lift == st.store.suspended - w;
    assert lift != {} <==> exists x :: x in st.store.suspended && !IsHeldBy(p, st.platform, x) by {
      if lift != {} {
        var x :| x in lift;
        assert x in st.store.suspended && !IsHeldBy(p, st.platform, x);
      }
      if exists x :: x in st.store.suspended && !IsHeldBy(p, st.platform, x) {
        var x :| x in st.store.suspended && !IsHeldBy(p, st.platform, x);
        assert x in lift;
      }
    }
    assert w != {} <==> exists x :: x in st.platform.launchable && IsHeldBy(p, st.platform, x);
  }

  /**
   * Every package after an apply. A held one is suspended if it was already or
   * its hold went through; any other one is suspended if it was and this DPC
   * did not lift it.
   */
  lemma SuspendedAfterApply(st: State, p: Record, version: int, o: Oracle, x: string)
    ensures x in Apply(st, p, version, o).platform.suspended <==>
      if IsHeldBy(p, st.platform, x)
      then x in st.platform.suspended || !(LiftFails(st, p, o) || HoldFails(st, p, o) || x in o.refuseHold)
      else x in st.platform.suspended && (x !in st.store.suspended || LiftFails(st, p, o) || x in o.refuseLift)
  {
    ApplyClosedForm(st, p, version, o);
    FailuresAre(st, p, o);
    WantedIff(p, st.platform, x);
  }

  /** The bookkeeping of every package after an apply: listed as suspended, as refused, as awaiting approval. */
  lemma ListedAfterApply(st: State, p: Record, version: int, o: Oracle, x: string)
    ensures var after := Apply(st, p, version, o).store; var threw := LiftFails(st, p, o) || HoldFails(st, p, o);
      && (x in after.suspended <==> IsHeldBy(p, st.platform, x) && (threw || x !in o.refuseHold))
      && (x in after.unsuspendable <==>
            if IsHeldBy(p, st.platform, x) then !threw && x in o.refuseHold
            else x in st.store.suspended && !LiftFails(st, p, o) && x in o.refuseLift)
      && (x in after.pending <==> x in st.store.pending && IsHeldBy(p, st.platform, x))
  {
    ApplyClosedForm(st, p, version, o);
    FailuresAre(st, p, o);
    WantedIff(p, st.platform, x);
  }

  /** The installed packages and what they are stay what they were. */
  lemma ApplyChangesNoPackage(st: State, p: Record, version: int, o: Oracle)
    ensures var after := Apply(st, p, version, o).platform;
      after.installed == st.platform.installed && after.launchable == st.platform.launchable && after.home == st.platform.home
  {
    ApplyClosedForm(st, p, version, o);
  }

  // ----- what the reported results mean -----------------------------------------------------------

  /** Some package the lift or the hold call was asked to change was refused. */
  predicate SomeRefused(st: State, p: Record, o: Oracle) {
    || (exists x :: x in st.store.suspended && !IsHeldBy(p, st.platform, x) && x in o.refuseLift)
    || (exists x :: x in st.platform.launchable && IsHeldBy(p, st.platform, x) && x in o.refuseHold)
  }

  function ResultOfFault(fault: Fault): Outcome {
    match fault
    case SecurityFault => Refused
    case RuntimeFault => Failed
  }

  /**
   * The result Home Assistant sees for the application mode: applied exactly
   * when both calls went through for every package, limited exactly when one
   * was refused, refused or failed exactly when a call threw.
   */
  lemma AppModeResult(st: State, p: Record, version: int, o: Oracle)
    ensures var results := Apply(st, p, version, o).store.enforcement;
      && AppMode in results
      && results[AppMode] ==
           if LiftFails(st, p, o) then ResultOfFault(o.liftFault.value)
           else if HoldFails(st, p, o) then ResultOfFault(o.holdFault.value)
           else if SomeRefused(st, p, o) then Limited else Applied
  {
    ApplyClosedForm(st, p, version, o);
    FailuresAre(st, p, o);
    var w := Wanted(p, st.platform);
    forall x ensures x in w <==> IsHeldBy(p, st.platform, x) { WantedIff(p, st.platform, x); }
    hide Wanted, IsHeldBy;
    var stuck := (st.store.suspended - w) * o.refuseLift + w * o.refuseHold;
    if stuck != {} {
      var x :| x in stuck;
      assert x in st.store.suspended || x in st.platform.launchable;
      assert SomeRefused(st, p, o);
    }
    if exists x :: x in st.store.suspended && !IsHeldBy(p, st.platform, x) && x in o.refuseLift {
      var x :| x in st.store.suspended && !IsHeldBy(p, st.platform, x) && x in o.refuseLift;
      assert x in stuck;
    }
    if exists x :: x in st.platform.launchable && IsHeldBy(p, st.platform, x) && x in o.refuseHold {
      var x :| x in st.platform.launchable && IsHeldBy(p, st.platform, x) && x in o.refuseHold;
      assert x in stuck;
    }
  }

  /** The first call of a block that throws, or the length of the block. */
  predicate FirstThrow(ws: seq<Write>, faults: Faults, i: nat) {
    i <= |ws| && (forall j :: 0 <= j < i ==> ws[j] !in faults) && (i < |ws| ==> ws[i] in faults)
  }

  lemma {:induction false} FirstThrowDecides(ws: seq<Write>, faults: Faults, i: nat)
    requires FirstThrow(ws, faults, i)
    ensures Effective(ws, faults) == ws[..i]
    ensures BlockFault(ws, faults) == if i < |ws| then Some(faults[ws[i]]) else None
    decreases i
  {
    if i > 0 {
      assert ws[0] !in faults;
      assert forall j :: 0 <= j < i - 1 ==> ws[1..][j] == ws[j + 1];
      FirstThrowDecides(ws[1..], faults, i - 1);
      assert ws[..i] == [ws[0]] + ws[1..][..i - 1];
    }
  }

  /**
   * The result of a flag: that of the first of its calls that throws, which
   * alone of the rest are not made; otherwise applied, but for a kiosk without
   * a target.
   */
  lemma FlagResult(st: State, p: Record, version: int, o: Oracle, f: Flag, i: nat)
    requires FirstThrow(Block(p, f), o.faults, i)
    ensures Effective(Block(p, f), o.faults) == Block(p, f)[..i]
    ensures var results := Apply(st, p, version, o).store.enforcement;
      && Flag(f) in results
      && results[Flag(f)] ==
           if i < |Block(p, f)| then ResultOfFault(o.faults[Block(p, f)[i]])
           else if f == KioskMode && f in p.on && p.kiosk == [] then Failed else Applied
  {
    FirstThrowDecides(Block(p, f), o.faults, i);
    ApplyClosedForm(st, p, version, o);
    ResultOf(st, p, o, f);
  }

  /** The kiosk target is shown last: only once lock task, HOME and its features are in force. */
  lemma TargetIsShownLast(p: Record, m: map<SettingKey, Setting>, faults: Faults, target: Setting)
    requires KioskMode in p.on && Write(KioskScreen, target) in Effective(KioskWrites(p), faults)
    ensures p.kiosk != [] && target == Showing(Some(p.kiosk[0]))
    ensures Realized(p, KioskMode, Overwrite(m, Effective(KioskWrites(p), faults)))
  {
    var ws := KioskWrites(p);
    var i := FirstThrowExists(ws, faults);
    FirstThrowDecides(ws, faults, i);
    var j :| 0 <= j < i && ws[j] == Write(KioskScreen, target);
    assert j == 5 && i == 6 && ws[..6] == ws;
    KioskRealizes(m, p);
  }

  lemma {:induction false} FirstThrowExists(ws: seq<Write>, faults: Faults) returns (i: nat)
    ensures FirstThrow(ws, faults, i)
  {
    i := 0;
    while i < |ws| && ws[i] !in faults
      invariant i <= |ws| && forall j :: 0 <= j < i ==> ws[j] !in faults
    {
      i := i + 1;
    }
  }

  // ----- installs and removals --------------------------------------------------------------------

  /** A removed package leaves the two lists; no other package, setting or result changes. */
  lemma RemovalTouchesOnlyItsPackage(st: State, pkg: string, x: string)
    ensures var after := Step(st, Removed(pkg));
      && (x in after.store.pending <==> x in st.store.pending && x != pkg)
      && (x in after.store.suspended <==> x in st.store.suspended && x != pkg)
      && (x in after.platform.suspended <==> x in st.platform.suspended && x != pkg)
      && after.store.policy == st.store.policy && after.store.version == st.store.version
      && after.store.enforcement == st.store.enforcement && after.platform.settings == st.platform.settings
  {
  }

  /**
   * A fresh install: under an allowlist, a launchable package that it neither
   * allows nor is the DPC joins the pending ones, and those are cut down to the
   * held ones; any other install leaves the store as it was.
   */
  lemma PendingAfterInstall(st: State, pkg: string, launchable: bool, home: bool, o: Oracle, x: string)
    requires pkg !in st.platform.installed && WellFormed(st.platform)
    ensures var after := Step(st, Installed(pkg, launchable, home, o)); var p := StoredPolicy(st.store);
      if p.mode.Allowlist? && launchable && pkg !in p.allowed && pkg != "com.trooperthorn.localmdm"
      then x in after.store.pending <==> (x == pkg || x in st.store.pending) && IsHeldBy(p, after.platform, x)
      else after.store == st.store
  {
    var there := st.(platform := WithPackage(st.platform, pkg, launchable, home));
    var p := StoredPolicy(st.store);
    hide ReadBack;
    if p.mode.Allowlist? && launchable && pkg !in p.allowed && pkg != "com.trooperthorn.localmdm" {
      var noted := there.(store := there.store.(pending := there.store.pending + {pkg}));
      AppModeClosedForm(noted, p, o,
        there.store.enforcement[AppMode := PlanOutcome(PlanFor(noted, p, o))], noted);
      WantedIff(p, there.platform, x);
    }
  }

  /** An update of an installed package is no fresh install: nothing changes. */
  lemma UpdatesChangeNothing(st: State, pkg: string, launchable: bool, home: bool, o: Oracle)
    requires pkg in st.platform.installed
    ensures Step(st, Installed(pkg, launchable, home, o)) == st
  {
  }

  // ----- over runs ----------------------------------------------------------------------------------

  /** The books are true and nothing is suspended that the stored policy does not hold. */
  predicate SuspendsOnlyHeld(st: State) {
    && WellFormed(st.platform) && InSync(st)
    && forall x :: x in st.platform.suspended ==> IsHeldBy(StoredPolicy(st.store), st.platform, x)
  }

  lemma ApplySuspendsOnlyHeld(st: State, p: Record, version: int, o: Oracle)
    requires WellFormed(st.platform) && InSync(st) && Clean(st, p, o) && Dpc.Producible(p)
    ensures SuspendsOnlyHeld(Apply(st, p, version, o))
  {
    var after := Apply(st, p, version, o);
    ApplyInSyncIff(st, p, version, o);
    StoredAfterApply(st, p, version, o);
    ApplyChangesNoPackage(st, p, version, o);
    CleanApplyEnforcesAllowlist(st, p, version, o);
    hide Apply, ReadBack, Clean;
    forall x | x in after.platform.suspended ensures IsHeldBy(p, after.platform, x) {
      WantedIff(p, st.platform, x);
    }
  }

  lemma AddedSuspendsOnlyHeld(st: State, pkg: string, launchable: bool, home: bool, o: Oracle)
    requires SuspendsOnlyHeld(st) && pkg !in st.platform.installed && CleanStep(st, Installed(pkg, launchable, home, o))
    ensures SuspendsOnlyHeld(Step(st, Installed(pkg, launchable, home, o)))
  {
    var e := Installed(pkg, launchable, home, o);
    var there := st.(platform := WithPackage(st.platform, pkg, launchable, home));
    var p := StoredPolicy(st.store);
    StepInSyncIff(st, e);
    hide ReadBack;
    assert forall x :: x in st.platform.suspended ==> x in st.platform.installed && x != pkg;
    if Enforced(st, e).Some? {
      var noted := there.(store := there.store.(pending := there.store.pending + {pkg}));
      AppModeClosedForm(noted, p, o,
        there.store.enforcement[AppMode := PlanOutcome(PlanFor(noted, p, o))], noted);
    }
    var after := Step(st, e);
    forall x | x in after.platform.suspended ensures IsHeldBy(p, after.platform, x) {
      WantedIff(p, there.platform, x);
    }
  }

  lemma StepSuspendsOnlyHeld(st: State, e: Event)
    requires SuspendsOnlyHeld(st) && CleanStep(st, e)
    ensures SuspendsOnlyHeld(Step(st, e))
  {
    match e
    case Pushed(doc, version, o) =>
      if Dpc.Decode(doc).Ok? {
        Dpc.DecodedIsProducible(doc);
        ApplySuspendsOnlyHeld(st, Dpc.Decode(doc).value, version, o);
      }
    case Booted(o) =>
      ReadBackIsProducible(st.store.policy);
      ApplySuspendsOnlyHeld(st, StoredPolicy(st.store), st.store.version, o);
    case Installed(pkg, launchable, home, o) =>
      if pkg !in st.platform.installed {
        AddedSuspendsOnlyHeld(st, pkg, launchable, home, o);
      }
    case Removed(pkg) =>
  }

  /**
   * Over every run whose suspend calls are clean, at every moment: the DPC, the
   * adb shell, Settings, the system UI, the Play Store, every HOME app and every
   * allowed package stay usable, and in open mode everything does.
   */
  lemma {:induction false} RunSuspendsOnlyHeld(st: State, es: seq<Event>)
    requires SuspendsOnlyHeld(st) && CleanRun(st, es)
    ensures var after := Run(st, es); var p := StoredPolicy(after.store);
      && SuspendsOnlyHeld(after)
      && after.platform.suspended !! after.platform.home
      && after.platform.suspended !! {
           "com.trooperthorn.localmdm", "com.android.shell", "com.android.settings", "com.android.systemui",
           "com.android.vending" }
      && after.platform.suspended !! Elements(p.allowed)
      && (p.mode.Open? ==> after.platform.suspended == {})
    decreases |es|
  {
    hide Step, CleanStep, ReadBack;
    if es != [] {
      StepSuspendsOnlyHeld(st, es[0]);
      RunSuspendsOnlyHeld(Step(st, es[0]), es[1..]);
    }
  }

  /** The same of the packages awaiting approval, over every run at all, whatever the platform answers. */
  lemma PendingAreHeld(st: State, es: seq<Event>, x: string)
    requires HeldAreWanted(st) && x in Run(st, es).store.pending
    ensures IsHeldBy(StoredPolicy(Run(st, es).store), Run(st, es).platform, x)
  {
    RunHolds(st, es);
    WantedIff(StoredPolicy(Run(st, es).store), Run(st, es).platform, x);
  }
}

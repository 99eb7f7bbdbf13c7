/** What holds over every sequence of pushes, boots, installs and removals on a Device Owner tablet. */
module EnforcementRuns {
  import opened Wrappers
  import opened Ordering
  import opened PolicyDocument
  import opened Enforcement
  import Dpc = DpcCodec

  datatype Event =
    | Pushed(doc: Doc, version: int, oracle: Oracle)
    | Booted(oracle: Oracle)
    | Installed(pkg: string, launchable: bool, home: bool, oracle: Oracle)
    | Removed(pkg: string)

  function WithPackage(pl: Platform, pkg: string, launchable: bool, home: bool): Platform {
    pl.(
      installed := pl.installed + {pkg},
      launchable := if launchable then pl.launchable + {pkg} else pl.launchable,
      home := if home then pl.home + {pkg} else pl.home)
  }

  function WithoutPackage(pl: Platform, pkg: string): Platform {
    pl.(installed := pl.installed - {pkg}, launchable := pl.launchable - {pkg},
        home := pl.home - {pkg}, suspended := pl.suspended - {pkg})
  }

  /** A push is decoded first; only a fresh install reaches onPackageAdded. */
  function Step(st: State, e: Event): State {
    match e
    case Pushed(doc, version, o) =>
      (match Dpc.Decode(doc) case Ok(p) => Apply(st, p, version, o) case Err(_) => st)
    case Booted(o) => Boot(st, o)
    case Installed(pkg, launchable, home, o) =>
      if pkg in st.platform.installed then st
      else PackageAdded(st.(platform := WithPackage(st.platform, pkg, launchable, home)), pkg, o)
    case Removed(pkg) => PackageRemoved(st.(platform := WithoutPackage(st.platform, pkg)), pkg)
  }

  function Run(st: State, es: seq<Event>): State
    decreases |es|
  {
    if es == [] then st else Run(Step(st, es[0]), es[1..])
  }

  // ----- the store's bookkeeping is what the platform has suspended ----------------------

  predicate InSync(st: State) { st.store.suspended == st.platform.suspended }

  /**
   * The exact condition on the platform's answers under which one round of
   * suspend calls keeps the bookkeeping true: no lift throws or is refused, and
   * nothing already suspended is refused again; if the hold call throws, there
   * was nothing new to hold.
   */
  predicate Clean(st: State, p: Record, o: Oracle) {
    var wanted := Wanted(p, st.platform);
    var lift := st.store.suspended - wanted;
    && (lift != {} ==> o.liftFault.None? && lift !! o.refuseLift)
    && (if wanted != {} && o.holdFault.Some? then wanted <= st.store.suspended
        else (st.store.suspended * wanted) !! o.refuseHold)
  }

  lemma PlanInSync(st: State, p: Record, o: Oracle)
    requires InSync(st)
    ensures var plan := PlanFor(st, p, o);
      plan.wanted - plan.stuck == st.platform.suspended - plan.lifted + plan.held <==> Clean(st, p, o)
  {
    var plan := PlanFor(st, p, o);
    var s, w := st.store.suspended, plan.wanted;
    var left, right := w - plan.stuck, s - plan.lifted + plan.held;
    if LiftThrows(st, p, o) {
      var x :| x in s - w;
      assert x in right && x !in left;
    } else if HoldThrows(st, p, o) {
      if Clean(st, p, o) {
        assert (s - w) * o.refuseLift == {} && w <= s;
        assert left == w && right == s - (s - w);
      } else if exists x :: x in s - w && x in o.refuseLift {
        var x :| x in s - w && x in o.refuseLift;
        assert x in right && x !in left;
      } else {
        assert (s - w) !! o.refuseLift;
        var x :| x in w && x !in s;
        assert x in left && x !in right;
      }
    } else {
      if Clean(st, p, o) {
        assert plan.lifted == s - w && plan.held == w - o.refuseHold && plan.stuck == w * o.refuseHold;
        assert left == w - o.refuseHold;
        assert right == s * w + (w - o.refuseHold);
        assert s * w <= w - o.refuseHold;
      } else if exists x :: x in s - w && x in o.refuseLift {
        var x :| x in s - w && x in o.refuseLift;
        assert x in right && x !in left;
      } else {
        assert (s - w) !! o.refuseLift;
        var x :| x in s * w && x in o.refuseHold;
        assert x in right && x !in left;
      }
    }
  }

  /** After an apply the bookkeeping is right exactly when the platform answered cleanly. */
  lemma ApplyInSyncIff(st: State, p: Record, version: int, o: Oracle)
    requires InSync(st)
    ensures InSync(Apply(st, p, version, o)) <==> Clean(st, p, o)
  {
    ApplyClosedForm(st, p, version, o);
    PlanInSync(st, p, o);
  }

  // ----- a refused lift is forgotten -------------------------------------------------------

  /** Suspended on the platform and unknown to the store. */
  predicate Stranded(st: State, pkg: string) { pkg in st.platform.suspended && pkg !in st.store.suspended }

  /** A refused lift drops the package from the store while the platform keeps it suspended. */
  lemma RefusedLiftStrands(st: State, p: Record, version: int, o: Oracle, pkg: string)
    requires pkg in st.store.suspended && pkg in st.platform.suspended
    requires pkg !in Wanted(p, st.platform) && pkg in o.refuseLift && !LiftThrows(st, p, o)
    ensures Stranded(Apply(st, p, version, o), pkg)
  {
    ApplyClosedForm(st, p, version, o);
  }

  /** The suspend calls of an event, if it makes any: under which policy, on which device. */
  function Enforced(st: State, e: Event): Option<(Record, Platform, Oracle)> {
    match e
    case Pushed(doc, _, o) =>
      (match Dpc.Decode(doc) case Ok(p) => Some((p, st.platform, o)) case Err(_) => None)
    case Booted(o) => Some((StoredPolicy(st.store), st.platform, o))
    case Installed(pkg, launchable, home, o) =>
      var p := StoredPolicy(st.store);
      var there := WithPackage(st.platform, pkg, launchable, home);
      if pkg in st.platform.installed || p.mode.Open? || pkg in p.allowed || pkg == DPC_PACKAGE || pkg !in there.launchable
      then None else Some((p, there, o))
    case Removed(_) => None
  }

  /** The event takes the package back: it is removed, or wanted again and its hold call not refused. */
  predicate Reclaims(st: State, e: Event, pkg: string) {
    || e == Removed(pkg)
    || (Enforced(st, e).Some? && var (p, platform, o) := Enforced(st, e).value;
        var there := st.(platform := platform);
        pkg in Wanted(p, platform) && (LiftThrows(there, p, o) || HoldThrows(there, p, o) || pkg !in o.refuseHold))
  }

  lemma StrandedStep(st: State, e: Event, pkg: string)
    requires Stranded(st, pkg)
    ensures Stranded(Step(st, e), pkg) <==> !Reclaims(st, e, pkg)
  {
    hide Dpc.Decode, Apply, ReadBack, FlagWrites, Results, PendingAfter;
    match e
    case Pushed(doc, version, o) =>
      if Dpc.Decode(doc).Ok? { ApplyClosedForm(st, Dpc.Decode(doc).value, version, o); }
    case Booted(o) => ApplyClosedForm(st, StoredPolicy(st.store), st.store.version, o);
    case Installed(added, launchable, home, o) =>
      if Enforced(st, e).Some? {
        var p := StoredPolicy(st.store);
        var there := st.(platform := WithPackage(st.platform, added, launchable, home));
        var noted := there.(store := there.store.(pending := there.store.pending + {added}));
        AppModeClosedForm(noted, p, o,
          there.store.enforcement[AppMode := PlanOutcome(PlanFor(noted, p, o))], noted);
      }
    case Removed(_) =>
  }

  predicate StaysStranded(st: State, es: seq<Event>, pkg: string)
    decreases |es|
  {
    Stranded(st, pkg) && (es != [] ==> StaysStranded(Step(st, es[0]), es[1..], pkg))
  }

  predicate NeverReclaimed(st: State, es: seq<Event>, pkg: string)
    decreases |es|
  {
    es != [] ==> !Reclaims(st, es[0], pkg) && NeverReclaimed(Step(st, es[0]), es[1..], pkg)
  }

  /**
   * Over every run: a stranded package stays suspended and unlisted at every
   * moment exactly while no event reclaims it. No later apply lifts it.
   */
  lemma {:induction false} RefusedLiftIsForgotten(st: State, es: seq<Event>, pkg: string)
    requires Stranded(st, pkg)
    ensures StaysStranded(st, es, pkg) <==> NeverReclaimed(st, es, pkg)
    decreases |es|
  {
    hide Step, Reclaims, Stranded;
    if es != [] {
      StrandedStep(st, es[0], pkg);
      if Stranded(Step(st, es[0]), pkg) {
        RefusedLiftIsForgotten(Step(st, es[0]), es[1..], pkg);
      }
    }
  }

  /** The condition of one event: what the suspend calls it makes, if any, must not do. */
  predicate CleanStep(st: State, e: Event) {
    Enforced(st, e).Some? ==>
      var (p, platform, o) := Enforced(st, e).value;
      Clean(st.(platform := platform), p, o)
  }

  lemma StepInSyncIff(st: State, e: Event)
    requires InSync(st)
    ensures InSync(Step(st, e)) <==> CleanStep(st, e)
  {
    hide Dpc.Decode, Apply, ReadBack, FlagWrites, Results, PendingAfter, Clean;
    match e
    case Pushed(doc, version, o) =>
      if Dpc.Decode(doc).Ok? {
        ApplyInSyncIff(st, Dpc.Decode(doc).value, version, o);
      }
    case Booted(o) =>
      ApplyInSyncIff(st, StoredPolicy(st.store), st.store.version, o);
    case Installed(pkg, launchable, home, o) =>
      if Enforced(st, e).Some? {
        AddedInSyncIff(st.(platform := WithPackage(st.platform, pkg, launchable, home)), pkg, o);
      }
    case Removed(pkg) =>
  }

  lemma AddedInSyncIff(st: State, pkg: string, o: Oracle)
    requires InSync(st)
    requires var p := StoredPolicy(st.store);
      p.mode.Allowlist? && pkg !in p.allowed && pkg != DPC_PACKAGE && pkg in st.platform.launchable
    ensures InSync(PackageAdded(st, pkg, o)) <==> Clean(st, StoredPolicy(st.store), o)
  {
    var p := StoredPolicy(st.store);
    var noted := st.(store := st.store.(pending := st.store.pending + {pkg}));
    AppModeClosedForm(noted, p, o,
      st.store.enforcement[AppMode := PlanOutcome(PlanFor(noted, p, o))], noted);
    PlanInSync(noted, p, o);
  }

  predicate StaysInSync(st: State, es: seq<Event>)
    decreases |es|
  {
    InSync(st) && (es != [] ==> StaysInSync(Step(st, es[0]), es[1..]))
  }

  predicate CleanRun(st: State, es: seq<Event>)
    decreases |es|
  {
    es != [] ==> CleanStep(st, es[0]) && CleanRun(Step(st, es[0]), es[1..])
  }

  /**
   * Over every run the store lists exactly what this DPC has suspended, at
   * every moment, if and only if the suspend calls of every event are clean.
   */
  lemma {:induction false} RunInSyncIff(st: State, es: seq<Event>)
    requires InSync(st)
    ensures StaysInSync(st, es) <==> CleanRun(st, es)
    decreases |es|
  {
    hide Step, InSync, CleanStep;
    if es != [] {
      StepInSyncIff(st, es[0]);
      if InSync(Step(st, es[0])) {
        RunInSyncIff(Step(st, es[0]), es[1..]);
      }
    }
  }

  /**
   * After a clean apply the platform suspends only what the policy wants and
   * everything it wants unless refused: never an allowed package, this package,
   * the shell, Settings, the system UI, Play or a HOME app; nothing in open mode.
   */
  lemma CleanApplyEnforcesAllowlist(st: State, p: Record, version: int, o: Oracle)
    requires InSync(st) && Clean(st, p, o)
    ensures var after := Apply(st, p, version, o).platform;
      && after.suspended <= Wanted(p, st.platform)
      && Wanted(p, st.platform) - o.refuseHold <= after.suspended
      && after.suspended !! NeverTouched(after)
      && after.suspended !! Elements(p.allowed)
      && (p.mode.Open? ==> after.suspended == {})
      && (p.mode.Allowlist? ==> after.launchable - (Elements(p.allowed) + NeverTouched(after)) - o.refuseHold <= after.suspended)
  {
    ApplyClosedForm(st, p, version, o);
    PlanInSync(st, p, o);
  }

  // ----- held packages ----------------------------------------------------------------------

  predicate WellFormed(pl: Platform) { pl.launchable <= pl.installed && pl.home <= pl.installed }

  /** Every held package is one the stored policy wants suspended right now. */
  predicate HeldAreWanted(st: State) {
    WellFormed(st.platform) && st.store.pending <= Wanted(StoredPolicy(st.store), st.platform)
  }

  lemma StoredAfterApply(st: State, p: Record, version: int, o: Oracle)
    requires Dpc.Producible(p)
    ensures StoredPolicy(Apply(st, p, version, o).store) == p
  {
    ApplyClosedForm(st, p, version, o);
    Dpc.StoreRoundTrip(p);
  }

  lemma DefaultIsProducible()
    ensures Dpc.Producible(DEFAULT_RECORD)
  {
    EmptyElements(Sorted(Utf16, {}));
  }

  lemma ReadBackIsProducible(stored: Option<Doc>)
    ensures Dpc.Producible(ReadBack(stored))
  {
    DefaultIsProducible();
    if stored.Some? && Dpc.Decode(stored.value).Ok? {
      Dpc.DecodedIsProducible(stored.value);
    }
  }

  lemma ApplyHolds(st: State, p: Record, version: int, o: Oracle)
    requires WellFormed(st.platform) && Dpc.Producible(p)
    ensures HeldAreWanted(Apply(st, p, version, o))
    ensures Wanted(p, Apply(st, p, version, o).platform) == Wanted(p, st.platform)
  {
    StoredAfterApply(st, p, version, o);
    ApplyClosedForm(st, p, version, o);
  }

  lemma AddedHolds(st: State, pkg: string, o: Oracle)
    requires WellFormed(st.platform)
    requires st.store.pending <= Wanted(StoredPolicy(st.store), st.platform)
    ensures HeldAreWanted(PackageAdded(st, pkg, o))
  {
    var p := StoredPolicy(st.store);
    var noted := st.(store := st.store.(pending := st.store.pending + {pkg}));
    AppModeClosedForm(noted, p, o,
      st.store.enforcement[AppMode := PlanOutcome(PlanFor(noted, p, o))], noted);
  }

  lemma StepHolds(st: State, e: Event)
    requires HeldAreWanted(st)
    ensures HeldAreWanted(Step(st, e))
  {
    match e
    case Pushed(doc, version, o) =>
      if Dpc.Decode(doc).Ok? {
        Dpc.DecodedIsProducible(doc);
        ApplyHolds(st, Dpc.Decode(doc).value, version, o);
      }
    case Booted(o) =>
      ReadBackIsProducible(st.store.policy);
      ApplyHolds(st, StoredPolicy(st.store), st.store.version, o);
    case Installed(pkg, launchable, home, o) =>
      if pkg !in st.platform.installed {
        AddedHolds(st.(platform := WithPackage(st.platform, pkg, launchable, home)), pkg, o);
      }
    case Removed(pkg) =>
  }

  /** Over every run, whatever the platform refuses or throws, held packages are wanted ones. */
  lemma {:induction false} RunHolds(st: State, es: seq<Event>)
    requires HeldAreWanted(st)
    ensures HeldAreWanted(Run(st, es))
    decreases |es|
  {
    if es != [] {
      StepHolds(st, es[0]);
      RunHolds(Step(st, es[0]), es[1..]);
    }
  }

  /** Consequence for the operator: nothing allowed or never-touched awaits approval, nothing at all in open mode. */
  lemma HeldAreNeverAllowed(st: State, es: seq<Event>)
    requires HeldAreWanted(st)
    ensures var after := Run(st, es); var p := StoredPolicy(after.store);
      && after.store.pending !! Elements(p.allowed)
      && after.store.pending !! NeverTouched(after.platform)
      && after.store.pending <= after.platform.installed
      && (p.mode.Open? ==> after.store.pending == {})
  {
    RunHolds(st, es);
  }

  /**
   * A fresh launchable package under an allowlist that does not name it is
   * held for approval whatever the platform answers, and suspended exactly
   * when no call throws and its hold is not refused.
   */
  lemma FreshPackageIsHeld(st: State, pkg: string, o: Oracle)
    requires pkg !in st.platform.installed
    requires StoredPolicy(st.store).mode.Allowlist? && pkg !in StoredPolicy(st.store).allowed
    requires pkg !in NeverTouched(st.platform)
    ensures var there := st.(platform := WithPackage(st.platform, pkg, true, false));
      var p := StoredPolicy(st.store);
      var after := Step(st, Installed(pkg, true, false, o));
      && pkg in after.store.pending
      && (pkg in after.platform.suspended <==>
            pkg in st.platform.suspended || (o.holdFault.None? && !LiftThrows(there, p, o) && pkg !in o.refuseHold))
  {
    var there := st.(platform := WithPackage(st.platform, pkg, true, false));
    var p := StoredPolicy(st.store);
    var noted := there.(store := there.store.(pending := there.store.pending + {pkg}));
    AppModeClosedForm(noted, p, o,
      there.store.enforcement[AppMode := PlanOutcome(PlanFor(noted, p, o))], noted);
  }

  // ----- a key reported applied is in force --------------------------------------------------

  /** The platform settings a flag asks for. */
  predicate Realized(p: Record, f: Flag, m: map<SettingKey, Setting>) {
    match f
    case KioskMode =>
      && PreferredHome in m && m[PreferredHome] == Switch(f in p.on)
      && KioskHomeAlias in m && m[KioskHomeAlias] == Switch(f in p.on)
      && LockTaskPackages in m && m[LockTaskPackages] ==
           Names(if f in p.on then Elements(p.kiosk) + {DPC_PACKAGE, SHELL_PACKAGE} else {})
      && (f in p.on ==> LockTaskFeatures in m && m[LockTaskFeatures] == Switch(true))
      && KioskScreen in m && m[KioskScreen].Showing?
      && (if f in p.on then p.kiosk != [] && m[KioskScreen].target == Some(p.kiosk[0])
          else m[KioskScreen].target == None)
    case WifiAlwaysOn => f in p.on ==> Toggle(f) in m && m[Toggle(f)] == Switch(true)
    case _ => Toggle(f) in m && m[Toggle(f)] == Switch(f in p.on)
  }

  function OwnerOf(key: SettingKey): Flag { if key.Toggle? then key.flag else KioskMode }

  lemma EffectiveStays(p: Record, f: Flag, faults: Faults, ws: seq<Write>)
    requires forall w :: w in ws ==> OwnerOf(w.key) == f
    ensures forall w :: w in Effective(ws, faults) ==> OwnerOf(w.key) == f
    ensures BlockFault(ws, faults).None? ==> Effective(ws, faults) == ws
  {
  }

  lemma {:induction false} OverwriteSplit(m: map<SettingKey, Setting>, a: seq<Write>, b: seq<Write>)
    ensures Overwrite(m, a + b) == Overwrite(Overwrite(m, a), b)
    decreases |a|
  {
    if a == [] {
      assert a + b == b;
    } else {
      assert (a + b)[0] == a[0] && (a + b)[1..] == a[1..] + b;
      OverwriteSplit(m[a[0].key := a[0].value], a[1..], b);
    }
  }

  lemma OverwriteLast(m: map<SettingKey, Setting>, ws: seq<Write>, w: Write)
    ensures Overwrite(m, ws + [w]) == Overwrite(m, ws)[w.key := w.value]
  {
    OverwriteSplit(m, ws, [w]);
    assert [w][1..] == [];
  }

  lemma OverwriteElsewhere(m: map<SettingKey, Setting>, ws: seq<Write>, f: Flag, g: Flag, p: Record)
    requires f != g && (forall w :: w in ws ==> OwnerOf(w.key) == g) && Realized(p, f, m)
    ensures Realized(p, f, Overwrite(m, ws))
    decreases |ws|
  {
    if ws != [] {
      assert OwnerOf(ws[0].key) == g;
      OverwriteElsewhere(m[ws[0].key := ws[0].value], ws[1..], f, g, p);
    }
  }

  lemma BlockRealizes(m: map<SettingKey, Setting>, p: Record, f: Flag)
    requires f.KioskMode? ==> !MissingTarget(p)
    ensures Realized(p, f, Overwrite(m, Block(p, f)))
  {
    var ws := Block(p, f);
    if f.KioskMode? {
      KioskRealizes(m, p);
    } else if ws != [] {
      assert ws[1..] == [];
    }
  }

  lemma KioskRealizes(m: map<SettingKey, Setting>, p: Record)
    requires !MissingTarget(p)
    ensures Realized(p, KioskMode, Overwrite(m, KioskWrites(p)))
  {
    var ws := KioskWrites(p);
    var m1 := m[ws[0].key := ws[0].value];
    var m2 := m1[ws[1].key := ws[1].value];
    var m3 := m2[ws[2].key := ws[2].value];
    var m4 := m3[ws[3].key := ws[3].value];
    assert ws[1..][1..] == ws[2..] && ws[2..][1..] == ws[3..] && ws[3..][1..] == ws[4..];
    assert Overwrite(m, ws) == Overwrite(m1, ws[1..]) == Overwrite(m2, ws[2..]);
    assert Overwrite(m2, ws[2..]) == Overwrite(m3, ws[3..]) == Overwrite(m4, ws[4..]);
    if KioskMode in p.on {
      var m5 := m4[ws[4].key := ws[4].value];
      var m6 := m5[ws[5].key := ws[5].value];
      assert ws[4..][1..] == ws[5..] && ws[5..][1..] == [];
      assert Overwrite(m4, ws[4..]) == Overwrite(m5, ws[5..]) == Overwrite(m6, []);
    } else {
      assert ws[4..] == [];
    }
  }

  predicate Distinct(flags: seq<Flag>) { forall i, j :: 0 <= i < j < |flags| ==> flags[i] != flags[j] }

  lemma BlockOwner(p: Record, f: Flag)
    ensures forall w :: w in Block(p, f) ==> OwnerOf(w.key) == f
  {
  }

  lemma {:induction false} FlagsRealized(
    m: map<SettingKey, Setting>, p: Record, flags: seq<Flag>, faults: Faults, f: Flag)
    requires Distinct(flags) && f in flags && FlagOutcome(p, f, faults) == Applied
    ensures Realized(p, f, Overwrite(m, FlagWrites(p, flags, faults)))
    decreases |flags|
  {
    var init, last := flags[..|flags| - 1], flags[|flags| - 1];
    var before := Overwrite(m, FlagWrites(p, init, faults));
    OverwriteSplit(m, FlagWrites(p, init, faults), Effective(Block(p, last), faults));
    BlockOwner(p, last);
    EffectiveStays(p, last, faults, Block(p, last));
    if last == f {
      BlockRealizes(before, p, f);
    } else {
      FlagsRealized(m, p, init, faults, f);
      OverwriteElsewhere(before, Effective(Block(p, last), faults), f, last, p);
    }
  }

  function PlaceOf(f: Flag): nat {
    match f
    case CameraDisabled => 0 case ScreenCaptureDisabled => 1 case StatusBarDisabled => 2 case InstallAppsBlocked => 3
    case UninstallAppsBlocked => 4 case UsbFileTransferBlocked => 5 case AdjustVolumeBlocked => 6
    case SafeBootBlocked => 7 case FactoryResetBlocked => 8 case AutoOsUpdates => 9 case StayAwakeOnPower => 10
    case WifiAlwaysOn => 11 case AccountsLocked => 12 case AddUserBlocked => 13 case KioskMode => 14
  }

  lemma EnforceOrderIsDistinct()
    ensures Distinct(ENFORCE_ORDER)
  {
    assert forall i :: 0 <= i < |ENFORCE_ORDER| ==> PlaceOf(ENFORCE_ORDER[i]) == i;
  }

  lemma ResultOf(st: State, p: Record, o: Oracle, f: Flag)
    ensures Flag(f) in Results(st, p, o) && Results(st, p, o)[Flag(f)] == FlagOutcome(p, f, o.faults)
  {
  }

  /**
   * A key the tablet reports as applied is in force on the platform: no later
   * part of apply undoes it. Home Assistant's enforced sensors rest on this.
   */
  lemma AppliedIsInForce(st: State, p: Record, version: int, o: Oracle, f: Flag)
    ensures var after := Apply(st, p, version, o);
      && Flag(f) in after.store.enforcement
      && (after.store.enforcement[Flag(f)] == Applied ==> Realized(p, f, after.platform.settings))
  {
    ApplyClosedForm(st, p, version, o);
    ResultOf(st, p, o, f);
    EveryFlagIsEnforced(f);
    EnforceOrderIsDistinct();
    if FlagOutcome(p, f, o.faults) == Applied {
      FlagsRealized(st.platform.settings, p, ENFORCE_ORDER, o.faults, f);
    }
  }
}

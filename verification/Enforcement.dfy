/**
 * What PolicyEngine does to the store and the platform, on values. One apply is
 * a program of single effects, so that "the process died here" is a
 * prefix of that program.
 */
module Enforcement {
  import opened Wrappers
  import opened Ordering
  import opened PolicyDocument
  import Dpc = DpcCodec

  const SHELL_PACKAGE := "com.android.shell"
  const SETTINGS_PACKAGE := "com.android.settings"
  const SYSTEM_UI_PACKAGE := "com.android.systemui"
  const PLAY_STORE_PACKAGE := "com.android.vending"

  datatype Fault = SecurityFault | RuntimeFault

  /** The per-key result Home Assistant sees. */
  datatype Outcome = Applied | Refused | Failed | Limited

  datatype SettingKey =
    | Toggle(flag: Flag) | LockTaskPackages | PreferredHome | KioskHomeAlias | LockTaskFeatures | KioskScreen

  datatype Setting = Switch(on: bool) | Names(packages: set<string>) | Showing(target: Option<string>)

  datatype Write = Write(key: SettingKey, value: Setting)

  /** The device: which packages exist, open from a launcher or are HOME, and what this DPC has set. */
  datatype Platform = Platform(
    installed: set<string>, launchable: set<string>, home: set<string>,
    suspended: set<string>, settings: map<SettingKey, Setting>)

  /** PolicyStore. Sets are persisted as string sets. */
  datatype Store = Store(
    policy: Option<Doc>, version: int, suspended: set<string>, unsuspendable: set<string>,
    pending: set<string>, enforcement: map<Key, Outcome>)

  datatype State = State(store: Store, platform: Platform)

  /** The calls that throw, by call and argument: clearing the preferred HOME may work where adding one throws. */
  type Faults = map<Write, Fault>

  /** How the platform answers: setters that throw, suspend calls that throw or refuse some packages. */
  datatype Oracle = Oracle(
    faults: Faults, liftFault: Option<Fault>, holdFault: Option<Fault>,
    refuseLift: set<string>, refuseHold: set<string>)

  const DEFAULT_RECORD := Record({}, [], Open, [])

  /** What a persisted document reads as: absent or undecodable is the default policy. */
  function ReadBack(stored: Option<Doc>): Record {
    match stored
    case None => DEFAULT_RECORD
    case Some(doc) => match Dpc.Decode(doc) { case Ok(r) => r case Err(_) => DEFAULT_RECORD }
  }

  /** The store's policy getter. */
  function StoredPolicy(s: Store): Record { ReadBack(s.policy) }

  // ----- flag settings ----------------------------------------------------------------

  /** The order apply enforces the flags in: kiosk last. */
  const ENFORCE_ORDER: seq<Flag> := [
    CameraDisabled, ScreenCaptureDisabled, StatusBarDisabled, InstallAppsBlocked,
    UninstallAppsBlocked, UsbFileTransferBlocked, AdjustVolumeBlocked, SafeBootBlocked,
    FactoryResetBlocked, AutoOsUpdates, StayAwakeOnPower, WifiAlwaysOn, AccountsLocked,
    AddUserBlocked, KioskMode
  ]

  lemma EveryFlagIsEnforced(f: Flag)
    ensures f in ENFORCE_ORDER
  {
  }

  predicate MissingTarget(p: Record) { KioskMode in p.on && p.kiosk == [] }

  /** applyKiosk: the DPC and the adb shell stay in the lock task list, clear-then-add for HOME. */
  function KioskWrites(p: Record): seq<Write> {
    if KioskMode in p.on then
      [ Write(LockTaskPackages, Names(Elements(p.kiosk) + {DPC_PACKAGE, SHELL_PACKAGE})),
        Write(PreferredHome, Switch(false)), Write(KioskHomeAlias, Switch(true)),
        Write(PreferredHome, Switch(true)), Write(LockTaskFeatures, Switch(true)) ]
      + if p.kiosk == [] then [] else [Write(KioskScreen, Showing(Some(p.kiosk[0])))]
    else
      [ Write(LockTaskPackages, Names({})), Write(PreferredHome, Switch(false)),
        Write(KioskHomeAlias, Switch(false)), Write(KioskScreen, Showing(None)) ]
  }

  /** The platform calls behind one flag. Wi-Fi is only ever switched on. */
  function Block(p: Record, f: Flag): seq<Write> {
    match f
    case KioskMode => KioskWrites(p)
    case WifiAlwaysOn => if f in p.on then [Write(Toggle(f), Switch(true))] else []
    case _ => [Write(Toggle(f), Switch(f in p.on))]
  }

  /** The writes of a block that happen before one throws. */
  function Effective(ws: seq<Write>, faults: Faults): seq<Write> {
    if ws == [] || ws[0] in faults then [] else [ws[0]] + Effective(ws[1..], faults)
  }

  function BlockFault(ws: seq<Write>, faults: Faults): Option<Fault> {
    if ws == [] then None
    else if ws[0] in faults then Some(faults[ws[0]])
    else BlockFault(ws[1..], faults)
  }

  function OutcomeOfFault(fault: Option<Fault>): Outcome {
    match fault
    case None => Applied
    case Some(SecurityFault) => Refused
    case Some(RuntimeFault) => Failed
  }

  function FlagOutcome(p: Record, f: Flag, faults: Faults): Outcome {
    var fault := BlockFault(Block(p, f), faults);
    if fault.None? && f.KioskMode? && MissingTarget(p) then Failed else OutcomeOfFault(fault)
  }

  function FlagWrites(p: Record, flags: seq<Flag>, faults: Faults): seq<Write> {
    if flags == [] then []
    else FlagWrites(p, flags[..|flags| - 1], faults) + Effective(Block(p, flags[|flags| - 1]), faults)
  }

  function FlagOutcomes(p: Record, flags: seq<Flag>, faults: Faults): map<Key, Outcome> {
    map k | k in (set f | f in flags :: Flag(f)) :: FlagOutcome(p, k.flag, faults)
  }

  function Overwrite(m: map<SettingKey, Setting>, ws: seq<Write>): map<SettingKey, Setting>
    decreases |ws|
  {
    if ws == [] then m else Overwrite(m[ws[0].key := ws[0].value], ws[1..])
  }

  // ----- application mode ---------------------------------------------------------------

  /** Never suspended, whatever the policy: this package, adb shell, Settings, system UI, Play, HOME. */
  function NeverTouched(pl: Platform): set<string> {
    {DPC_PACKAGE, SHELL_PACKAGE, SETTINGS_PACKAGE, SYSTEM_UI_PACKAGE, PLAY_STORE_PACKAGE} + pl.home
  }

  /** The packages the policy wants suspended. */
  function Wanted(p: Record, pl: Platform): set<string> {
    if p.mode.Allowlist? then pl.launchable - (Elements(p.allowed) + NeverTouched(pl)) else {}
  }

  /** What the two suspend calls did. */
  datatype Plan = Plan(wanted: set<string>, lifted: set<string>, held: set<string>, stuck: set<string>, fault: Option<Fault>)

  function LiftThrows(st: State, p: Record, o: Oracle): bool {
    st.store.suspended - Wanted(p, st.platform) != {} && o.liftFault.Some?
  }

  function HoldThrows(st: State, p: Record, o: Oracle): bool {
    !LiftThrows(st, p, o) && Wanted(p, st.platform) != {} && o.holdFault.Some?
  }

  function PlanFor(st: State, p: Record, o: Oracle): Plan {
    var wanted := Wanted(p, st.platform);
    var lift := st.store.suspended - wanted;
    if LiftThrows(st, p, o) then Plan(wanted, {}, {}, {}, o.liftFault)
    else if HoldThrows(st, p, o) then Plan(wanted, lift - o.refuseLift, {}, lift * o.refuseLift, o.holdFault)
    else Plan(wanted, lift - o.refuseLift, wanted - o.refuseHold, lift * o.refuseLift + wanted * o.refuseHold, None)
  }

  function PlanOutcome(plan: Plan): Outcome {
    if plan.fault.Some? then OutcomeOfFault(plan.fault) else if plan.stuck == {} then Applied else Limited
  }

  function PendingAfter(st: State, p: Record): set<string> {
    if p.mode.Allowlist? then st.store.pending * Wanted(p, st.platform) else {}
  }

  // ----- one effect at a time ---------------------------------------------------------------

  datatype Effect =
    | PutPolicy(doc: Doc) | PutVersion(version: int) | Set(write: Write)
    | Unsuspend(packages: set<string>) | Suspend(packages: set<string>)
    | PutSuspended(packages: set<string>) | PutUnsuspendable(packages: set<string>)
    | PutPending(packages: set<string>) | PutEnforcement(results: map<Key, Outcome>)

  function Do(e: Effect, st: State): State {
    match e
    case PutPolicy(doc) => st.(store := st.store.(policy := Some(doc)))
    case PutVersion(v) => st.(store := st.store.(version := v))
    case Set(w) => st.(platform := st.platform.(settings := st.platform.settings[w.key := w.value]))
    case Unsuspend(ps) => st.(platform := st.platform.(suspended := st.platform.suspended - ps))
    case Suspend(ps) => st.(platform := st.platform.(suspended := st.platform.suspended + ps))
    case PutSuspended(ps) => st.(store := st.store.(suspended := ps))
    case PutUnsuspendable(ps) => st.(store := st.store.(unsuspendable := ps))
    case PutPending(ps) => st.(store := st.store.(pending := ps))
    case PutEnforcement(results) => st.(store := st.store.(enforcement := results))
  }

  function Exec(es: seq<Effect>, st: State): State {
    if es == [] then st else Exec(es[1..], Do(es[0], st))
  }

  function Sets(ws: seq<Write>): seq<Effect> {
    seq(|ws|, i requires 0 <= i < |ws| => Set(ws[i]))
  }

  function AppModeProgram(st: State, p: Record, o: Oracle): seq<Effect> {
    var plan := PlanFor(st, p, o);
    [ Unsuspend(plan.lifted), Suspend(plan.held), PutSuspended(plan.wanted - plan.stuck),
      PutUnsuspendable(plan.stuck), PutPending(PendingAfter(st, p)) ]
  }

  function Results(st: State, p: Record, o: Oracle): map<Key, Outcome> {
    FlagOutcomes(p, ENFORCE_ORDER, o.faults)[AppMode := PlanOutcome(PlanFor(st, p, o))]
  }

  /** apply: persist first, then the flags, then the application mode, then the results. */
  function ApplyProgram(st: State, p: Record, version: int, o: Oracle): seq<Effect> {
    [PutPolicy(ToJson(p)), PutVersion(version)]
    + Sets(FlagWrites(p, ENFORCE_ORDER, o.faults))
    + (AppModeProgram(st, p, o) + [PutEnforcement(Results(st, p, o))])
  }

  function Apply(st: State, p: Record, version: int, o: Oracle): State {
    Exec(ApplyProgram(st, p, version, o), st)
  }

  /** MdmService.onCreate: apply whatever is stored. */
  function Boot(st: State, o: Oracle): State {
    Apply(st, StoredPolicy(st.store), st.store.version, o)
  }

  /** onPackageAdded, called after the platform already lists the package. */
  function PackageAdded(st: State, pkg: string, o: Oracle): State {
    var p := StoredPolicy(st.store);
    if !p.mode.Allowlist? || pkg in p.allowed || pkg == DPC_PACKAGE || pkg !in st.platform.launchable then st
    else
      var noted := st.(store := st.store.(pending := st.store.pending + {pkg}));
      Exec(AppModeProgram(noted, p, o)
        + [PutEnforcement(st.store.enforcement[AppMode := PlanOutcome(PlanFor(noted, p, o))])], noted)
  }

  function PackageRemoved(st: State, pkg: string): State {
    st.(store := st.store.(pending := st.store.pending - {pkg}, suspended := st.store.suspended - {pkg}))
  }

  // ----- closed forms ---------------------------------------------------------------------------

  lemma {:induction false} ExecSplit(a: seq<Effect>, b: seq<Effect>, st: State)
    ensures Exec(a + b, st) == Exec(b, Exec(a, st))
  {
    if a == [] {
      assert a + b == b;
    } else {
      assert (a + b)[0] == a[0] && (a + b)[1..] == a[1..] + b;
      ExecSplit(a[1..], b, Do(a[0], st));
    }
  }

  lemma {:induction false} ExecSets(ws: seq<Write>, st: State)
    ensures Exec(Sets(ws), st) == st.(platform := st.platform.(settings := Overwrite(st.platform.settings, ws)))
  {
    if ws != [] {
      assert Sets(ws)[0] == Set(ws[0]) && Sets(ws)[1..] == Sets(ws[1..]);
      ExecSets(ws[1..], Do(Set(ws[0]), st));
    }
  }

  lemma AppModeClosedForm(st: State, p: Record, o: Oracle, results: map<Key, Outcome>, from: State)
    ensures Exec(AppModeProgram(st, p, o) + [PutEnforcement(results)], from) ==
      var plan := PlanFor(st, p, o);
      State(
        from.store.(suspended := plan.wanted - plan.stuck, unsuspendable := plan.stuck,
          pending := PendingAfter(st, p), enforcement := results),
        from.platform.(suspended := from.platform.suspended - plan.lifted + plan.held))
  {
    var es := AppModeProgram(st, p, o) + [PutEnforcement(results)];
    var s1 := Do(es[0], from);
    var s2 := Do(es[1], s1);
    var s3 := Do(es[2], s2);
    var s4 := Do(es[3], s3);
    var s5 := Do(es[4], s4);
    assert es[1..][1..] == es[2..] && es[2..][1..] == es[3..] && es[3..][1..] == es[4..]
      && es[4..][1..] == es[5..] && es[5..][1..] == [];
    assert Exec(es, from) == Exec(es[1..], s1) == Exec(es[2..], s2) == Exec(es[3..], s3);
    assert Exec(es[3..], s3) == Exec(es[4..], s4) == Exec(es[5..], s5);
    assert Exec(es[5..], s5) == Exec([], Do(es[5], s5));
  }

  lemma ApplyClosedForm(st: State, p: Record, version: int, o: Oracle)
    ensures Apply(st, p, version, o) ==
      var plan := PlanFor(st, p, o);
      State(
        Store(Some(ToJson(p)), version, plan.wanted - plan.stuck, plan.stuck, PendingAfter(st, p), Results(st, p, o)),
        st.platform.(
          suspended := st.platform.suspended - plan.lifted + plan.held,
          settings := Overwrite(st.platform.settings, FlagWrites(p, ENFORCE_ORDER, o.faults))))
  {
    var head: seq<Effect> := [PutPolicy(ToJson(p)), PutVersion(version)];
    var ws := FlagWrites(p, ENFORCE_ORDER, o.faults);
    var tail := AppModeProgram(st, p, o) + [PutEnforcement(Results(st, p, o))];
    var s2 := Do(head[1], Do(head[0], st));
    assert head[1..][1..] == [] && Exec(head, st) == Exec(head[1..], Do(head[0], st)) == Exec([], s2);
    ExecSplit(head, Sets(ws), st);
    ExecSets(ws, s2);
    ExecSplit(head + Sets(ws), tail, st);
    AppModeClosedForm(st, p, o, Results(st, p, o), Exec(head + Sets(ws), st));
  }
}

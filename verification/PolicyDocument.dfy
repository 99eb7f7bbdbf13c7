/**
 * The policy document both sides exchange, and what a document means once
 * list order and duplicates are forgotten.
 */
module PolicyDocument {
  import opened Wrappers
  import opened Ordering

  datatype Flag =
    | KioskMode | CameraDisabled | ScreenCaptureDisabled | StatusBarDisabled
    | InstallAppsBlocked | UninstallAppsBlocked | UsbFileTransferBlocked | AdjustVolumeBlocked
    | SafeBootBlocked | FactoryResetBlocked | AutoOsUpdates | StayAwakeOnPower
    | WifiAlwaysOn | AccountsLocked | AddUserBlocked

  /** The flags in the order both sides list them. */
  const FLAGS: seq<Flag> := [
    KioskMode, CameraDisabled, ScreenCaptureDisabled, StatusBarDisabled,
    InstallAppsBlocked, UninstallAppsBlocked, UsbFileTransferBlocked, AdjustVolumeBlocked,
    SafeBootBlocked, FactoryResetBlocked, AutoOsUpdates, StayAwakeOnPower,
    WifiAlwaysOn, AccountsLocked, AddUserBlocked
  ]

  lemma EveryFlagIsListed(f: Flag)
    ensures f in FLAGS
  {
  }

  /** A document key. Every string outside the vocabulary is Other. */
  datatype Key = Flag(flag: Flag) | KioskPackages | AppMode | AllowedPackages | Other(name: string)

  /** A JSON value. Numbers and objects keep only the text they print as. */
  datatype Json =
    | Null
    | Bool(b: bool)
    | Num(text: string)
    | Str(s: string)
    | Arr(items: seq<Json>)
    | Obj(text: string)

  type Doc = map<Key, Json>

  const OPEN := "open"
  const ALLOWLIST := "allowlist"
  const DPC_PACKAGE := "com.trooperthorn.localmdm"

  const FORBIDDEN: set<string> := {
    "no_config_wifi", "no_config_tethering", "no_network_reset", "no_config_mobile_networks",
    "no_airplane_mode", "no_debugging_features", "no_config_private_dns", "no_config_vpn",
    "wifi_disabled", "network_settings_blocked", "adb_disabled", "user_restrictions",
    "global_settings", "secure_settings"
  }

  predicate IsForbidden(key: Key) { key.Other? && key.name in FORBIDDEN }

  function KnownKeys(): (r: set<Key>)
    ensures forall k :: k in r <==> !k.Other?
  {
    (set f: Flag | true :: Flag(f)) + {KioskPackages, AllowedPackages, AppMode}
  }

  datatype Mode = Open | Allowlist

  function ModeName(m: Mode): string { if m.Open? then OPEN else ALLOWLIST }

  /** What a document asks for. Package lists are sets here: order carries no meaning. */
  datatype Policy = Policy(on: set<Flag>, kiosk: set<string>, mode: Mode, allowed: set<string>)

  /** The kiosk target must stay openable: allowlist mode folds the kiosk packages in. */
  function Fold(mode: Mode, kiosk: set<string>, allowed: set<string>): set<string> {
    if mode.Allowlist? then allowed + kiosk else allowed
  }

  predicate Dangerous(p: Policy) {
    (KioskMode in p.on && p.kiosk == {}) || (p.mode.Allowlist? && p.allowed == {})
  }

  /** The safety promise of an accepted policy. */
  ghost predicate Safe(p: Policy) {
    && "" !in p.kiosk && "" !in p.allowed
    && DPC_PACKAGE !in p.kiosk && DPC_PACKAGE !in p.allowed
    && (p.mode.Allowlist? ==> p.kiosk <= p.allowed && p.allowed != {})
    && (KioskMode in p.on ==> p.kiosk != {})
  }

  function Strings(names: seq<string>): seq<Json> {
    seq(|names|, i requires 0 <= i < |names| => Str(names[i]))
  }

  /** A policy with its lists in some order: the tablet's data class, or one side's normal form. */
  datatype Record = Record(on: set<Flag>, kiosk: seq<string>, mode: Mode, allowed: seq<string>)

  function RecordOf(o: Order, p: Policy): Record {
    Record(p.on, Sorted(o, p.kiosk), p.mode, Sorted(o, p.allowed))
  }

  function PolicyOf(r: Record): Policy {
    Policy(r.on, Elements(r.kiosk), r.mode, Elements(r.allowed))
  }

  /** toJson: the full document, every key present. */
  function ToJson(r: Record): (d: Doc) {
    map k | k in KnownKeys() ::
      match k
      case Flag(f) => Bool(f in r.on)
      case KioskPackages => Arr(Strings(r.kiosk))
      case AllowedPackages => Arr(Strings(r.allowed))
      case _ => Str(ModeName(r.mode))
  }

  /** The full document for a policy, lists sorted in the writer's order. */
  function Render(o: Order, p: Policy): Doc { ToJson(RecordOf(o, p)) }

  predicate HasForbidden(doc: Doc) { exists k :: k in doc && IsForbidden(k) }

  predicate HasUnknown(doc: Doc) { exists k :: k in doc && k.Other? }

  predicate HasBadFlag(doc: Doc) { exists k :: k in doc && k.Flag? && !doc[k].Bool? }

  function FlagsOn(doc: Doc): set<Flag> {
    set f: Flag | Flag(f) in doc && doc[Flag(f)] == Bool(true)
  }

  /**
   * The verdict both validators give, whatever order they check in: forbidden
   * keys are unsafe before anything else, then every malformation is invalid,
   * then a dangerous policy is unsafe.
   */
  function Judge(doc: Doc, malformed: bool, p: Policy): Result<Policy> {
    if HasForbidden(doc) then Err(Unsafe)
    else if malformed then Err(Invalid)
    else if Dangerous(p) then Err(Unsafe)
    else Ok(p)
  }
}

/**
 * The tablet's objects: the preferences it persists and the engine that writes
 * them, as Device Owner or without any tier.
 */
module DpcEngine {
  import opened Wrappers
  import opened Ordering
  import opened PolicyDocument
  import opened Enforcement
  import opened EnforcementRuns
  import Dpc = DpcCodec

  /** PolicyStore: properties backed by persistent preferences. */
  class PolicyStore {
    var policy: Option<Doc>
    var policyVersion: int
    var suspendedPackages: set<string>
    var unsuspendable: set<string>
    var pendingPackages: set<string>
    var enforcement: map<Key, Outcome>

    constructor ()
      ensures Value() == Store(None, 0, {}, {}, {}, map[])
    {
      policy, policyVersion := None, 0;
      suspendedPackages, unsuspendable, pendingPackages, enforcement := {}, {}, {}, map[];
    }

    ghost function Value(): Store
      reads this
    {
      Store(policy, policyVersion, suspendedPackages, unsuspendable, pendingPackages, enforcement)
    }

    /** The policy getter: decode what is stored, fall back to the default. */
    method GetPolicy() returns (p: Record)
      ensures p == StoredPolicy(Value())
    {
      match policy
      case None => p := DEFAULT_RECORD;
      case Some(doc) =>
        var decoded := Dpc.FromJson(doc);
        p := if decoded.Ok? then decoded.value else DEFAULT_RECORD;
    }
  }

  /** How a PUT is answered: 200 with the new status, 422 or 400. */
  datatype PutAnswer = Accepted | Unprocessable | BadRequest

  class PolicyEngine {
    const store: PolicyStore
    const owner: bool
    var platform: Platform

    constructor (store: PolicyStore, owner: bool, platform: Platform)
      ensures this.store == store && this.owner == owner && Value() == State(store.Value(), platform)
    {
      this.store := store;
      this.owner := owner;
      this.platform := platform;
    }

    ghost function Value(): State
      reads this, store
    {
      State(store.Value(), platform)
    }

    /** DevicePolicyManager.setPackagesSuspended: changes what it may, returns what it refused. */
    method SetPackagesSuspended(packages: set<string>, suspend: bool, refused: set<string>) returns (stuck: set<string>)
      modifies this`platform
      ensures stuck == packages * refused
      ensures platform == old(platform).(suspended :=
        if suspend then old(platform.suspended) + (packages - refused)
        else old(platform.suspended) - (packages - refused))
    {
      var changed := packages - refused;
      platform := platform.(suspended := if suspend then platform.suspended + changed else platform.suspended - changed);
      stuck := packages * refused;
    }

    /** attempt: run the calls of one key until one throws. */
    method Attempt(ws: seq<Write>, faults: Faults) returns (fault: Option<Fault>)
      modifies this`platform
      ensures fault == BlockFault(ws, faults)
      ensures platform == old(platform).(settings := Overwrite(old(platform.settings), Effective(ws, faults)))
    {
      ghost var start := platform.settings;
      for i := 0 to |ws|
        invariant Effective(ws, faults) == ws[..i] + Effective(ws[i..], faults)
        invariant BlockFault(ws, faults) == BlockFault(ws[i..], faults)
        invariant platform == old(platform).(settings := Overwrite(start, ws[..i]))
      {
        if ws[i] in faults {
          assert Effective(ws, faults) == ws[..i];
          return Some(faults[ws[i]]);
        }
        assert ws[i..][1..] == ws[i + 1..];
        OverwriteLast(start, ws[..i], ws[i]);
        assert ws[..i + 1] == ws[..i] + [ws[i]];
        platform := platform.(settings := platform.settings[ws[i].key := ws[i].value]);
      }
      assert Effective(ws, faults) == ws[..|ws|];
      return None;
    }

    /** applyAppMode: lift what is no longer wanted, hold what is, then rewrite the bookkeeping. */
    method ApplyAppMode(policy: Record, o: Oracle) returns (outcome: Outcome)
      modifies this`platform, store
      ensures store.policy == old(store.policy) && store.policyVersion == old(store.policyVersion)
      ensures store.enforcement == old(store.enforcement)
      ensures var st, plan := old(Value()), PlanFor(old(Value()), policy, o);
        && outcome == PlanOutcome(plan)
        && store.suspendedPackages == plan.wanted - plan.stuck
        && store.unsuspendable == plan.stuck
        && store.pendingPackages == PendingAfter(st, policy)
        && platform == st.platform.(suspended := st.platform.suspended - plan.lifted + plan.held)
    {
      var wanted: set<string> := {};
      if policy.mode.Allowlist? {
        var keep := Elements(policy.allowed);
        keep := keep + {DPC_PACKAGE};
        keep := keep + {SHELL_PACKAGE};
        keep := keep + {SETTINGS_PACKAGE};
        keep := keep + {SYSTEM_UI_PACKAGE};
        keep := keep + {PLAY_STORE_PACKAGE};
        keep := keep + platform.home;
        assert keep == Elements(policy.allowed) + NeverTouched(platform);
        wanted := platform.launchable - keep;
      }
      var lift, hold := store.suspendedPackages - wanted, wanted;
      var stuck: set<string> := {};
      var fault: Option<Fault> := None;
      if lift != {} {
        if o.liftFault.Some? {
          fault := o.liftFault;
        } else {
          var refused := SetPackagesSuspended(lift, false, o.refuseLift);
          stuck := stuck + refused;
        }
      }
      if fault.None? && hold != {} {
        if o.holdFault.Some? {
          fault := o.holdFault;
        } else {
          var refused := SetPackagesSuspended(hold, true, o.refuseHold);
          stuck := stuck + refused;
        }
      }
      store.suspendedPackages := wanted - stuck;
      store.unsuspendable := stuck;
      store.pendingPackages := if policy.mode.Allowlist? then store.pendingPackages * wanted else {};
      outcome := if fault.Some? then OutcomeOfFault(fault) else if stuck == {} then Applied else Limited;
    }

    /** The flag half of apply: one attempt per key, in order; a failing key never stops the others. */
    method ApplyFlags(policy: Record, order: seq<Flag>, faults: Faults) returns (result: map<Key, Outcome>)
      modifies this`platform
      ensures result == FlagOutcomes(policy, order, faults)
      ensures platform == old(platform).(settings := Overwrite(old(platform.settings), FlagWrites(policy, order, faults)))
    {
      result := map[];
      for i := 0 to |order|
        invariant result == FlagOutcomes(policy, order[..i], faults)
        invariant platform == old(platform).(settings :=
          Overwrite(old(platform.settings), FlagWrites(policy, order[..i], faults)))
      {
        var f := order[i];
        var fault := Attempt(Block(policy, f), faults);
        result := result[Flag(f) := if fault.None? && f.KioskMode? && MissingTarget(policy) then Failed
                                    else OutcomeOfFault(fault)];
        OneMoreFlag(old(platform.settings), policy, order, i, faults);
      }
      assert order[..|order|] == order;
    }

    /** apply: persist first, then the flags, then the application mode. */
    method Apply(policy: Record, version: int, o: Oracle)
      modifies this`platform, store
      ensures Value() == Enforcement.Apply(old(Value()), policy, version, o)
    {
      store.policy := Some(ToJson(policy));
      store.policyVersion := version;
      var result := ApplyFlags(policy, ENFORCE_ORDER, o.faults);
      ghost var before := Value();
      assert PlanFor(before, policy, o) == PlanFor(old(Value()), policy, o);
      var appMode := ApplyAppMode(policy, o);
      result := result[AppMode := appMode];
      store.enforcement := result;
      ApplyClosedForm(old(Value()), policy, version, o);
    }

    /** onPackageAdded: under an allowlist a fresh launchable package is noted as pending and held. */
    method OnPackageAdded(pkg: string, o: Oracle)
      modifies this`platform, store
      ensures Value() == if owner then PackageAdded(old(Value()), pkg, o) else old(Value())
    {
      var policy := store.GetPolicy();
      if !owner || !policy.mode.Allowlist? {
        return;
      }
      if pkg in policy.allowed || pkg == DPC_PACKAGE {
        return;
      }
      if pkg !in platform.launchable {
        return;
      }
      store.pendingPackages := store.pendingPackages + {pkg};
      ghost var noted := Value();
      var result := store.enforcement;
      var appMode := ApplyAppMode(policy, o);
      result := result[AppMode := appMode];
      store.enforcement := result;
      AppModeClosedForm(noted, policy, o, result, noted);
    }

    /** onPackageRemoved: nothing to approve or lift any more. */
    method OnPackageRemoved(pkg: string)
      modifies store
      ensures Value() == PackageRemoved(old(Value()), pkg)
    {
      store.pendingPackages := store.pendingPackages - {pkg};
      store.suspendedPackages := store.suspendedPackages - {pkg};
    }

    /** MdmService.onCreate: re-assert the stored policy on every start, unless nothing can be enforced. */
    method OnCreate(o: Oracle)
      modifies this`platform, store
      ensures Value() == if owner then Boot(old(Value()), o) else old(Value())
    {
      if !owner {
        return;
      }
      var policy := store.GetPolicy();
      Apply(policy, store.policyVersion, o);
    }

    /**
     * HttpServer.putPolicy: decode, check the tier, and only then apply. None is a body without a
     * policy object; a missing version is the next one.
     */
    method PutPolicy(policy: Option<Doc>, version: Option<int>, o: Oracle) returns (answer: PutAnswer)
      modifies this`platform, store
      ensures answer == Accepted <==> policy.Some? && Dpc.Decode(policy.value).Ok? && owner
      ensures answer == BadRequest <==> policy.None? || Dpc.Decode(policy.value) == Err(Invalid)
      ensures Value() == if answer == Accepted
        then Step(old(Value()), Pushed(policy.value, version.GetOr(old(store.policyVersion) + 1), o))
        else old(Value())
    {
      var wanted := version.GetOr(store.policyVersion + 1);
      if policy.None? {
        return BadRequest;
      }
      var decoded := Dpc.FromJson(policy.value);
      if decoded.Err? {
        return if decoded.error == Unsafe then Unprocessable else BadRequest;
      }
      if !owner {
        return Unprocessable;
      }
      Apply(decoded.value, wanted, o);
      return Accepted;
    }
  }

  lemma OneMoreOutcome(p: Record, flags: seq<Flag>, f: Flag, faults: Faults)
    ensures FlagOutcomes(p, flags + [f], faults) == FlagOutcomes(p, flags, faults)[Flag(f) := FlagOutcome(p, f, faults)]
  {
  }

  lemma OneMoreFlag(m: map<SettingKey, Setting>, p: Record, order: seq<Flag>, i: nat, faults: Faults)
    requires i < |order|
    ensures FlagOutcomes(p, order[..i + 1], faults) ==
      FlagOutcomes(p, order[..i], faults)[Flag(order[i]) := FlagOutcome(p, order[i], faults)]
    ensures Overwrite(m, FlagWrites(p, order[..i + 1], faults)) ==
      Overwrite(Overwrite(m, FlagWrites(p, order[..i], faults)), Effective(Block(p, order[i]), faults))
  {
    var before, after := order[..i], order[..i + 1];
    assert after[..i] == before && after == before + [order[i]];
    OneMoreOutcome(p, before, order[i], faults);
    OverwriteSplit(m, FlagWrites(p, before, faults), Effective(Block(p, order[i]), faults));
  }
}

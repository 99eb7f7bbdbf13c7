/** Approving a held package, from the button in Home Assistant to the platform. */
module ApproveFlow {
  import opened Wrappers
  import opened Ordering
  import opened PolicyDocument
  import opened Coordinator
  import opened Enforcement
  import opened EnforcementRuns
  import Ha = HaValidator
  import Dpc = DpcCodec
  import W = Writes
  import V = ValidatorAgreement

  /** Merging and validating an approval of a held package always succeeds and only adds that package. */
  lemma ApprovalIsAccepted(st: State, desired: Doc, pkg: string)
    requires Ha.IsNormal(desired) && Dpc.Decode(desired) == Ok(StoredPolicy(st.store))
    requires HeldAreWanted(st) && pkg in st.store.pending && pkg != ""
    ensures var pushed := Ha.Validate(Merge(desired, Approve(pkg)));
      && pushed.Ok? && Dpc.Decode(pushed.value).Ok?
      && PolicyOf(Dpc.Decode(pushed.value).value) ==
           PolicyOf(StoredPolicy(st.store)).(allowed := Elements(StoredPolicy(st.store).allowed) + {pkg})
  {
    hide Ha.Validate, Dpc.Decode;
    var p := Ha.Meaning(desired);
    V.TabletAcceptsNormal(desired);
    Ha.RecordMeans(Utf16, p);
    Ha.NormalIsSafe(desired);
    assert pkg != DPC_PACKAGE;
    var q := W.Changed(p, Approve(pkg));
    assert q == p.(allowed := p.allowed + {pkg});
    W.WriteOutcome(desired, Approve(pkg));
    assert Safe(q);
    Ha.ReadsBack(CodePoint, q);
    V.TabletAcceptsNormal(Render(CodePoint, q));
    Ha.RecordMeans(Utf16, q);
  }

  /**
   * End to end: the package leaves the held list and the wanted set, is
   * un-suspended unless the platform refuses, and no other package's treatment
   * changes.
   */
  lemma ApprovalReachesThePlatform(st: State, desired: Doc, pkg: string, version: int, o: Oracle)
    requires Ha.IsNormal(desired) && Dpc.Decode(desired) == Ok(StoredPolicy(st.store))
    requires HeldAreWanted(st) && pkg in st.store.pending && pkg != ""
    ensures var before := StoredPolicy(st.store);
      var pushed := Ha.Validate(Merge(desired, Approve(pkg)));
      && pushed.Ok?
      && var after := Step(st, Pushed(pushed.value, version, o)); var now := StoredPolicy(after.store);
        && after.store.pending == st.store.pending - {pkg}
        && Wanted(now, after.platform) == Wanted(before, st.platform) - {pkg}
        && (InSync(st) && o.liftFault.None? && pkg !in o.refuseLift ==> pkg !in after.platform.suspended)
        && (InSync(st) ==> st.platform.suspended * Wanted(before, st.platform) - {pkg} <= after.platform.suspended)
  {
    ApprovalIsAccepted(st, desired, pkg);
    var pushed := Ha.Validate(Merge(desired, Approve(pkg))).value;
    var now := Dpc.Decode(pushed).value;
    ApprovedRecordApplied(st, now, pkg, version, o) by {
      Dpc.DecodedIsProducible(pushed);
    }
  }

  lemma ApprovedRecordApplied(st: State, now: Record, pkg: string, version: int, o: Oracle)
    requires Dpc.Producible(now) && HeldAreWanted(st) && pkg in st.store.pending
    requires PolicyOf(now) == PolicyOf(StoredPolicy(st.store)).(allowed := Elements(StoredPolicy(st.store).allowed) + {pkg})
    ensures var before := StoredPolicy(st.store);
      var after := Apply(st, now, version, o);
      && StoredPolicy(after.store) == now
      && after.store.pending == st.store.pending - {pkg}
      && Wanted(now, after.platform) == Wanted(before, st.platform) - {pkg}
      && (InSync(st) && o.liftFault.None? && pkg !in o.refuseLift ==> pkg !in after.platform.suspended)
      && (InSync(st) ==> st.platform.suspended * Wanted(before, st.platform) - {pkg} <= after.platform.suspended)
  {
    hide Apply, Wanted, ReadBack, Dpc.Producible, NeverTouched;
    var before := StoredPolicy(st.store);
    assert now.mode == before.mode && Elements(now.allowed) == Elements(before.allowed) + {pkg};
    WantedWithout(before, now, st.platform, pkg);
    AppliedShape(st, now, version, o);
    SuspendedAfter(st, now, pkg, o);
    assert before.mode.Allowlist? by { OnlyAllowlistsWant(before, st.platform, pkg); }
  }

  lemma OnlyAllowlistsWant(p: Record, platform: Platform, pkg: string)
    requires pkg in Wanted(p, platform)
    ensures p.mode.Allowlist?
  {
  }

  lemma AppliedShape(st: State, now: Record, version: int, o: Oracle)
    requires Dpc.Producible(now)
    ensures var after, plan := Apply(st, now, version, o), PlanFor(st, now, o);
      && StoredPolicy(after.store) == now
      && after.store.pending == PendingAfter(st, now)
      && plan.wanted == Wanted(now, st.platform) == Wanted(now, after.platform)
      && after.platform.suspended == st.platform.suspended - plan.lifted + plan.held
  {
    StoredAfterApply(st, now, version, o);
    ApplyClosedForm(st, now, version, o);
  }

  /** The plan for an approval lifts the package unless refused and leaves the other wanted ones suspended. */
  lemma SuspendedAfter(st: State, now: Record, pkg: string, o: Oracle)
    ensures var plan := PlanFor(st, now, o);
      var after := st.platform.suspended - plan.lifted + plan.held;
      && (InSync(st) && pkg !in plan.wanted && o.liftFault.None? && pkg !in o.refuseLift ==> pkg !in after)
      && st.platform.suspended * plan.wanted <= after
  {
    hide Wanted;
  }

  lemma WantedWithout(before: Record, now: Record, platform: Platform, pkg: string)
    requires now.mode == before.mode && Elements(now.allowed) == Elements(before.allowed) + {pkg}
    ensures Wanted(now, platform) == Wanted(before, platform) - {pkg}
  {
  }
}

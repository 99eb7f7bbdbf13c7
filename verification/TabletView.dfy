/**
 * What the protocol sees of the tablet: the policy its process works with, and
 * the one on its disk. Every store write is queued and reaches the disk later,
 * in order; a process that dies comes back to what the disk holds.
 */
module TabletView {
  import opened Wrappers
  import opened PolicyDocument
  import E = Enforcement
  import T = EnforcementRuns
  import C = CrashRecovery
  import V = ValidatorAgreement
  import Ha = HaValidator
  import Dpc = DpcCodec

  /** The part of the store the protocol is about. */
  datatype Stored = Stored(policy: Option<Doc>, version: int)

  /** The disk, and the store as it was after each write since, oldest first. */
  datatype Tablet = Tablet(disk: Stored, unflushed: seq<Stored>)

  /** What the running process reads: its last write. */
  function Memory(t: Tablet): Stored {
    if t.unflushed == [] then t.disk else t.unflushed[|t.unflushed| - 1]
  }

  function PolicyOn(t: Tablet): Record { E.ReadBack(Memory(t).policy) }

  function PolicyOnDisk(t: Tablet): Record { E.ReadBack(t.disk.policy) }

  /** apply sets the policy, then the version. */
  function Persist(t: Tablet, policy: Option<Doc>, version: int): Tablet {
    t.(unflushed := t.unflushed + [Stored(policy, Memory(t).version), Stored(policy, version)])
  }

  function Receive(t: Tablet, doc: Doc, version: int): Tablet {
    match Dpc.Decode(doc)
    case Ok(r) => Persist(t, Some(ToJson(r)), version)
    case Err(_) => t
  }

  /** onCreate re-applies what it reads. */
  function Restart(t: Tablet): Tablet { Persist(t, Some(ToJson(PolicyOn(t))), Memory(t).version) }

  /** The first k queued writes reach the disk. */
  function Flush(t: Tablet, k: nat): Tablet
    requires k <= |t.unflushed|
  {
    if k == 0 then t else Tablet(t.unflushed[k - 1], t.unflushed[k..])
  }

  /** The process dies with its queued writes, and starts again. */
  function Die(t: Tablet): Tablet { Restart(Tablet(t.disk, [])) }

  /** Whatever a death could bring back is the policy in force. */
  predicate Durable(t: Tablet) {
    PolicyOnDisk(t) == PolicyOn(t) && forall s :: s in t.unflushed ==> E.ReadBack(s.policy) == PolicyOn(t)
  }

  // ----- the enforcement engine refines this view ------------------------------------------

  function View(st: E.State): Stored { Stored(st.store.policy, st.store.version) }

  /** A push is received, a boot restarts, installs and removals never touch the stored policy. */
  lemma EngineRefinesTablet(st: E.State, e: T.Event, t: Tablet)
    requires Memory(t) == View(st)
    ensures View(T.Step(st, e)) ==
      Memory(match e {
        case Pushed(doc, version, _) => Receive(t, doc, version)
        case Booted(_) => Restart(t)
        case Installed(_, _, _, _) => t
        case Removed(_) => t
      })
  {
    match e
    case Pushed(doc, version, o) =>
      if Dpc.Decode(doc).Ok? { E.ApplyClosedForm(st, Dpc.Decode(doc).value, version, o); }
    case Booted(o) => E.ApplyClosedForm(st, E.StoredPolicy(st.store), st.store.version, o);
    case Installed(pkg, launchable, home, o) =>
      if pkg !in st.platform.installed {
        AddedKeepsStore(st.(platform := T.WithPackage(st.platform, pkg, launchable, home)), pkg, o);
      }
    case Removed(pkg) =>
  }

  lemma AddedKeepsStore(st: E.State, pkg: string, o: E.Oracle)
    ensures View(E.PackageAdded(st, pkg, o)) == View(st)
  {
    var p := E.StoredPolicy(st.store);
    var noted := st.(store := st.store.(pending := st.store.pending + {pkg}));
    E.AppModeClosedForm(noted, p, o,
      st.store.enforcement[AppMode := E.PlanOutcome(E.PlanFor(noted, p, o))], noted);
  }

  /** How many of an apply's first m effects are writes of the policy or its version. */
  function StoreWrites(m: nat): nat { if m < 2 then m else 2 }

  /**
   * A death anywhere in an apply, of a PUT or at a start, with any prefix of
   * its store writes flushed, is its two writes, the flush of that prefix and a death.
   */
  lemma DeathRefinesTablet(st: E.State, t: Tablet, p: Record, version: int, o: E.Oracle, m: nat, n: nat)
    requires Memory(t) == View(st) && m <= n <= |E.ApplyProgram(st, p, version, o)|
    ensures var after := Persist(t, Some(ToJson(p)), version);
      && |t.unflushed| + StoreWrites(m) <= |after.unflushed|
      && View(E.Boot(C.DiedAfter(st, p, version, o, m, n), o)) == Memory(Die(Flush(after, |t.unflushed| + StoreWrites(m))))
  {
    hide E.Boot, E.ApplyProgram, C.DiedAfter, E.ReadBack;
    StoredAtDeath(st, p, version, o, m, n);
    var died := C.DiedAfter(st, p, version, o, m, n);
    BootRestarts(died, o);
    DiskAfter(t, Some(ToJson(p)), version, StoreWrites(m));
  }

  lemma StoredAtDeath(st: E.State, p: Record, version: int, o: E.Oracle, m: nat, n: nat)
    requires m <= n <= |E.ApplyProgram(st, p, version, o)|
    ensures View(C.DiedAfter(st, p, version, o, m, n)) ==
      if m == 0 then View(st) else Stored(Some(ToJson(p)), if m == 1 then st.store.version else version)
  {
    C.CutIsReached(st, p, version, o, m);
    hide E.ApplyProgram, E.PlanFor, E.Results, E.PendingAfter;
  }

  lemma BootRestarts(st: E.State, o: E.Oracle)
    ensures View(E.Boot(st, o)) == Memory(Restart(Tablet(View(st), [])))
  {
    EngineRefinesTablet(st, T.Booted(o), Tablet(View(st), []));
  }

  lemma DiskAfter(t: Tablet, policy: Option<Doc>, version: int, k: nat)
    requires k <= 2
    ensures var after := Persist(t, policy, version);
      && |after.unflushed| == |t.unflushed| + 2
      && Flush(after, |t.unflushed| + k).disk ==
           if k == 0 then Memory(t) else if k == 1 then Stored(policy, Memory(t).version) else Stored(policy, version)
  {
  }

  // ----- what each event keeps -----------------------------------------------------------------

  lemma RestartKeepsPolicy(t: Tablet)
    ensures PolicyOn(Restart(t)) == PolicyOn(t)
  {
    T.ReadBackIsProducible(Memory(t).policy);
    Dpc.StoreRoundTrip(PolicyOn(t));
  }

  lemma DeathReadsDisk(t: Tablet)
    ensures PolicyOn(Die(t)) == PolicyOnDisk(t)
  {
    RestartKeepsPolicy(Tablet(t.disk, []));
  }

  lemma FlushKeepsPolicy(t: Tablet, k: nat)
    requires k <= |t.unflushed|
    ensures Memory(Flush(t, k)) == Memory(t)
  {
  }

  /** A received normal document is stored, never refused. */
  lemma ReceivedIsStored(t: Tablet, d: Doc, version: int)
    requires Ha.IsNormal(d)
    ensures Dpc.Decode(d) == Ok(PolicyOn(Receive(t, d, version)))
  {
    V.TabletAcceptsNormal(d);
    Dpc.StoreRoundTrip(Dpc.Decode(d).value);
  }

  lemma PersistStaysDurable(t: Tablet, policy: Option<Doc>, version: int)
    requires Durable(t) && E.ReadBack(policy) == PolicyOn(t)
    ensures Durable(Persist(t, policy, version))
  {
    hide E.ReadBack;
    var after := Persist(t, policy, version);
    assert Memory(after) == Stored(policy, version);
    forall s | s in after.unflushed ensures E.ReadBack(s.policy) == PolicyOn(t) {
      assert s in t.unflushed || s.policy == policy;
    }
  }

  lemma RestartStaysDurable(t: Tablet)
    requires Durable(t)
    ensures Durable(Restart(t)) && Durable(Die(t))
  {
    RestartKeepsPolicy(t);
    PersistStaysDurable(t, Some(ToJson(PolicyOn(t))), Memory(t).version);
    var disk := Tablet(t.disk, []);
    RestartKeepsPolicy(disk);
    PersistStaysDurable(disk, Some(ToJson(PolicyOn(disk))), Memory(disk).version);
  }

  lemma FlushStaysDurable(t: Tablet, k: nat)
    requires k <= |t.unflushed|
    ensures Durable(t) || k == |t.unflushed| ==> Durable(Flush(t, k))
  {
    FlushKeepsPolicy(t, k);
    forall s | s in t.unflushed[k..] ensures s in t.unflushed {
    }
  }

  lemma ReceiveStaysDurable(t: Tablet, d: Doc, version: int)
    requires Durable(t) && Ha.IsNormal(d) && Dpc.Decode(d) == Ok(PolicyOn(t))
    ensures Durable(Receive(t, d, version))
  {
    Dpc.DecodedIsProducible(d);
    Dpc.StoreRoundTrip(PolicyOn(t));
    PersistStaysDurable(t, Some(ToJson(PolicyOn(t))), version);
  }
}

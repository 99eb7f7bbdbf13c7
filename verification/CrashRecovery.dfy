/**
 * The process can die between any two effects of apply, and the store's
 * preferences reach the disk behind the platform calls. At the next start
 * onCreate re-applies whatever policy is on disk.
 */
module CrashRecovery {
  import opened Wrappers
  import opened Ordering
  import opened PolicyDocument
  import opened Enforcement
  import opened EnforcementRuns
  import Dpc = DpcCodec

  /**
   * What the next start finds when the process died after n effects of an
   * apply and only the store writes among the first m had reached the disk:
   * platform calls take effect at once, preferences are written in order but later.
   */
  function DiedAfter(st: State, p: Record, version: int, o: Oracle, m: nat, n: nat): State
    requires m <= n <= |ApplyProgram(st, p, version, o)|
  {
    var program := ApplyProgram(st, p, version, o);
    State(Exec(program[..m], st).store, Exec(program[..n], st).platform)
  }

  /** Same settings, same suspensions, same bookkeeping, same stored policy. */
  predicate SameEnforcement(a: State, b: State) {
    && a.platform == b.platform
    && a.store.policy == b.store.policy
    && a.store.suspended == b.store.suspended
    && a.store.pending == b.store.pending
  }

  /**
   * The only way a start with the bookkeeping on disk can differ: the lift call
   * throws, so the store claims the whole wanted set; the start no longer needs
   * the lift and holds packages the uninterrupted apply never reached.
   */
  predicate Repeatable(st: State, p: Record, o: Oracle) {
    LiftThrows(st, p, o) ==>
      o.holdFault.Some? || Wanted(p, st.platform) <= st.platform.suspended - o.refuseHold
  }

  // ----- settings: writing a prefix and then everything is writing everything ----------

  ghost predicate AgreeExcept(a: map<SettingKey, Setting>, b: map<SettingKey, Setting>, ws: seq<Write>) {
    forall k :: (forall w :: w in ws ==> w.key != k) ==>
      (k in a <==> k in b) && (k in a ==> a[k] == b[k])
  }

  lemma {:induction false} OverwriteForgets(a: map<SettingKey, Setting>, b: map<SettingKey, Setting>, ws: seq<Write>)
    requires AgreeExcept(a, b, ws)
    ensures Overwrite(a, ws) == Overwrite(b, ws)
    decreases |ws|
  {
    if ws == [] {
      assert a.Keys == b.Keys by {
        forall k ensures k in a <==> k in b {
        }
      }
      assert a == b;
    } else {
      var w := ws[0];
      assert ws == [w] + ws[1..];
      OverwriteForgets(a[w.key := w.value], b[w.key := w.value], ws[1..]);
    }
  }

  lemma {:induction false} OverwriteOnlyKeys(m: map<SettingKey, Setting>, ws: seq<Write>, all: seq<Write>)
    requires forall w :: w in ws ==> w in all
    ensures AgreeExcept(Overwrite(m, ws), m, all)
    decreases |ws|
  {
    if ws != [] {
      assert ws[0] in all;
      OverwriteOnlyKeys(m[ws[0].key := ws[0].value], ws[1..], all);
    }
  }

  lemma PrefixThenWhole(m: map<SettingKey, Setting>, ws: seq<Write>, k: nat)
    requires k <= |ws|
    ensures Overwrite(Overwrite(m, ws[..k]), ws) == Overwrite(m, ws)
  {
    OverwriteOnlyKeys(m, ws[..k], ws);
    OverwriteForgets(Overwrite(m, ws[..k]), m, ws);
  }

  function Keys(ws: seq<Write>): set<SettingKey> { set w | w in ws :: w.key }

  lemma {:induction false} OverwriteAt(
    a: map<SettingKey, Setting>, b: map<SettingKey, Setting>, ws: seq<Write>, k: SettingKey)
    ensures k in Keys(ws) ==> k in Overwrite(a, ws) && k in Overwrite(b, ws) && Overwrite(a, ws)[k] == Overwrite(b, ws)[k]
    ensures k !in Keys(ws) ==> (k in Overwrite(a, ws) <==> k in a) && (k in a ==> Overwrite(a, ws)[k] == a[k])
    decreases |ws|
  {
    if ws != [] {
      var w := ws[0];
      assert ws == [w] + ws[1..];
      assert Keys(ws) == {w.key} + Keys(ws[1..]);
      OverwriteAt(a[w.key := w.value], b[w.key := w.value], ws[1..], k);
      OverwriteAt(b[w.key := w.value], b[w.key := w.value], ws[1..], k);
    }
  }

  /** What was already done and is not redone left the settings as they were. */
  predicate LeavesNothing(m: map<SettingKey, Setting>, done: seq<Write>, redo: seq<Write>) {
    forall k :: k in Keys(done) - Keys(redo) ==> k in m && k in Overwrite(m, done) && Overwrite(m, done)[k] == m[k]
  }

  lemma RewrittenIff(m: map<SettingKey, Setting>, done: seq<Write>, redo: seq<Write>)
    ensures Overwrite(Overwrite(m, done), redo) == Overwrite(m, redo) <==> LeavesNothing(m, done, redo)
  {
    var now := Overwrite(m, done);
    forall k
      ensures k in Keys(redo) || k !in Keys(done) ==>
        (k in Overwrite(now, redo) <==> k in Overwrite(m, redo))
        && (k in Overwrite(m, redo) ==> Overwrite(now, redo)[k] == Overwrite(m, redo)[k])
      ensures k in Keys(done) - Keys(redo) ==>
        (k in now && k in Overwrite(now, redo) && Overwrite(now, redo)[k] == now[k]
        && (k in Overwrite(m, redo) <==> k in m) && (k in m ==> Overwrite(m, redo)[k] == m[k]))
    {
      OverwriteAt(m, m, done, k);
      OverwriteAt(now, m, redo, k);
      OverwriteAt(m, m, redo, k);
    }
    if LeavesNothing(m, done, redo) {
      assert Overwrite(now, redo).Keys == Overwrite(m, redo).Keys;
    }
  }

  // ----- where a death can leave the state -------------------------------------------------

  function FlagPart(p: Record, o: Oracle): seq<Write> { FlagWrites(p, ENFORCE_ORDER, o.faults) }

  /** How many settings are written after n effects. */
  function SettingsDone(p: Record, o: Oracle, n: nat): (k: nat)
    ensures k <= |FlagPart(p, o)|
  {
    if n < 2 then 0 else if n - 2 < |FlagPart(p, o)| then n - 2 else |FlagPart(p, o)|
  }

  /** How far into the six effects of the application mode part n effects reach: 3 is the bookkeeping. */
  function Stage(p: Record, o: Oracle, n: nat): nat {
    if n < 2 + |FlagPart(p, o)| then 0 else n - 2 - |FlagPart(p, o)|
  }

  /** The state after n effects, in closed form. */
  function Cut(st: State, p: Record, version: int, o: Oracle, n: nat): State {
    var plan, j := PlanFor(st, p, o), Stage(p, o, n);
    State(
      Store(
        if n >= 1 then Some(ToJson(p)) else st.store.policy,
        if n >= 2 then version else st.store.version,
        if j >= 3 then plan.wanted - plan.stuck else st.store.suspended,
        if j >= 4 then plan.stuck else st.store.unsuspendable,
        if j >= 5 then PendingAfter(st, p) else st.store.pending,
        if j >= 6 then Results(st, p, o) else st.store.enforcement),
      st.platform.(
        settings := Overwrite(st.platform.settings, FlagPart(p, o)[..SettingsDone(p, o, n)]),
        suspended := if j == 0 then st.platform.suspended
          else if j == 1 then st.platform.suspended - plan.lifted
          else st.platform.suspended - plan.lifted + plan.held))
  }

  lemma EffectAt(st: State, p: Record, version: int, o: Oracle, n: nat)
    requires n < |ApplyProgram(st, p, version, o)|
    ensures |ApplyProgram(st, p, version, o)| == |FlagPart(p, o)| + 8
    ensures var e := ApplyProgram(st, p, version, o)[n]; var ws, plan := FlagPart(p, o), PlanFor(st, p, o);
      e == if n == 0 then PutPolicy(ToJson(p)) else if n == 1 then PutVersion(version)
        else if n < 2 + |ws| then Set(ws[n - 2])
        else match n - 2 - |ws|
          case 0 => Unsuspend(plan.lifted)
          case 1 => Suspend(plan.held)
          case 2 => PutSuspended(plan.wanted - plan.stuck)
          case 3 => PutUnsuspendable(plan.stuck)
          case 4 => PutPending(PendingAfter(st, p))
          case _ => PutEnforcement(Results(st, p, o))
  {
  }

  lemma ProgramLength(st: State, p: Record, version: int, o: Oracle)
    ensures |ApplyProgram(st, p, version, o)| == |FlagPart(p, o)| + 8
  {
  }

  lemma CutStep(st: State, p: Record, version: int, o: Oracle, n: nat)
    requires n < |ApplyProgram(st, p, version, o)|
    ensures Do(ApplyProgram(st, p, version, o)[n], Cut(st, p, version, o, n)) == Cut(st, p, version, o, n + 1)
  {
    hide ApplyProgram, PlanFor, Results, PendingAfter, FlagWrites, Wanted;
    EffectAt(st, p, version, o, n);
    var ws := FlagPart(p, o);
    if 2 <= n < 2 + |ws| {
      assert ws[..n - 1] == ws[..n - 2] + [ws[n - 2]];
      OverwriteLast(st.platform.settings, ws[..n - 2], ws[n - 2]);
    }
  }

  lemma {:induction false} CutIsReached(st: State, p: Record, version: int, o: Oracle, n: nat)
    requires n <= |ApplyProgram(st, p, version, o)|
    ensures Exec(ApplyProgram(st, p, version, o)[..n], st) == Cut(st, p, version, o, n)
  {
    hide ApplyProgram, Cut, Do;
    var program := ApplyProgram(st, p, version, o);
    if n == 0 {
      NothingDone(st, p, version, o);
      assert program[..0] == [];
    } else {
      CutIsReached(st, p, version, o, n - 1);
      CutStep(st, p, version, o, n - 1);
      assert program[..n] == program[..n - 1] + [program[n - 1]];
      ExecSplit(program[..n - 1], [program[n - 1]], st);
      var before := Exec(program[..n - 1], st);
      assert [program[n - 1]][1..] == [];
      assert Exec([program[n - 1]], before) == Exec([], Do(program[n - 1], before));
    }
  }

  lemma NothingDone(st: State, p: Record, version: int, o: Oracle)
    ensures Cut(st, p, version, o, 0) == st
  {
  }

  // ----- starting again with the new policy on disk ---------------------------------------------

  /** With the bookkeeping written, a second round lifts nothing and changes nothing, exactly when repeatable. */
  lemma SecondRound(st: State, p: Record, o: Oracle, died: State)
    requires Wanted(p, died.platform) == Wanted(p, st.platform)
    requires died.store.suspended == Wanted(p, st.platform) - PlanFor(st, p, o).stuck
    ensures var first, second := PlanFor(st, p, o), PlanFor(died, p, o);
      var once := st.platform.suspended - first.lifted + first.held;
      && second.lifted == {}
      && (second.wanted - second.stuck == first.wanted - first.stuck && once - second.lifted + second.held == once
          <==> Repeatable(st, p, o))
  {
    var first, second := PlanFor(st, p, o), PlanFor(died, p, o);
    var w := first.wanted;
    var once := st.platform.suspended - first.lifted + first.held;
    assert died.store.suspended - w == {};
    if LiftThrows(st, p, o) {
      if w != {} && o.holdFault.Some? {
        assert second.held == {} && second.stuck == {};
      } else if o.holdFault.None? {
        assert second.stuck == w * o.refuseHold;
        if w <= st.platform.suspended - o.refuseHold {
          assert w * o.refuseHold == {} && once + second.held == once;
        } else {
          var x :| x in w && x !in st.platform.suspended - o.refuseHold;
          if x in o.refuseHold {
            assert x in w - first.stuck && x !in w - second.stuck;
          } else {
            assert x in once + second.held && x !in once;
          }
        }
      }
    } else if HoldThrows(st, p, o) {
      assert second.held == {} && second.stuck == {} && w - first.stuck == w;
    } else {
      assert second.held == first.held && w - second.stuck == w - first.stuck;
    }
  }

  lemma BootOf(st: State, p: Record, version: int, o: Oracle, m: nat, n: nat)
    requires Dpc.Producible(p) && 1 <= m <= n <= |ApplyProgram(st, p, version, o)|
    ensures var died := DiedAfter(st, p, version, o, m, n);
      && died == State(Cut(st, p, version, o, m).store, Cut(st, p, version, o, n).platform)
      && Boot(died, o) == Apply(died, p, died.store.version, o)
      && Boot(died, o).platform.settings == Overwrite(st.platform.settings, FlagPart(p, o))
  {
    var died := DiedAfter(st, p, version, o, m, n);
    CutIsReached(st, p, version, o, m);
    CutIsReached(st, p, version, o, n);
    Dpc.StoreRoundTrip(p);
    ApplyClosedForm(died, p, died.store.version, o);
    PrefixThenWhole(st.platform.settings, FlagPart(p, o), SettingsDone(p, o, n));
  }

  /**
   * Once the new policy is on disk, the next start enforces what the
   * uninterrupted apply would have, wherever it died, on any platform that
   * answers the same way both times: exactly when the bookkeeping had not
   * reached the disk or the apply was repeatable.
   */
  lemma NewPolicyWinsIff(st: State, p: Record, version: int, o: Oracle, m: nat, n: nat)
    requires Dpc.Producible(p) && 1 <= m <= n <= |ApplyProgram(st, p, version, o)|
    ensures SameEnforcement(Boot(DiedAfter(st, p, version, o, m, n), o), Apply(st, p, version, o))
      <==> Stage(p, o, m) < 3 || Repeatable(st, p, o)
  {
    var died := DiedAfter(st, p, version, o, m, n);
    BootOf(st, p, version, o, m, n);
    ApplyClosedForm(st, p, version, o);
    ApplyClosedForm(died, p, died.store.version, o);
    assert PendingAfter(died, p) == PendingAfter(st, p);
    hide DiedAfter, Apply, Boot, FlagWrites, Results;
    assert Stage(p, o, m) <= Stage(p, o, n);
    if Stage(p, o, m) < 3 {
      assert PlanFor(died, p, o) == PlanFor(st, p, o);
      var plan := PlanFor(st, p, o);
      assert plan.lifted !! plan.held;
      assert died.platform.suspended - plan.lifted + plan.held == st.platform.suspended - plan.lifted + plan.held;
    } else {
      SecondRound(st, p, o, died);
    }
  }

  // ----- starting again with the old policy on disk ---------------------------------------------

  /**
   * The condition on the interrupted apply for a start under the old policy to
   * undo it: every setting it wrote that the old policy does not write was
   * that already, and every package it lifted or newly held is one the old
   * policy's own suspend calls touch.
   */
  predicate Undone(st: State, p: Record, o: Oracle, n: nat) {
    var old_ := StoredPolicy(st.store);
    var first, back := PlanFor(st, p, o), PlanFor(st, old_, o);
    && LeavesNothing(st.platform.settings, FlagPart(p, o)[..SettingsDone(p, o, n)], FlagPart(old_, o))
    && (Stage(p, o, n) >= 1 ==> first.lifted * st.platform.suspended <= back.lifted + back.held)
    && (Stage(p, o, n) >= 2 ==> first.held - st.platform.suspended <= back.lifted + back.held)
  }

  /**
   * While nothing of the apply is on disk, the next start is an uninterrupted
   * apply of the old policy exactly when that policy undoes what was done.
   */
  lemma OldPolicyReturnsIff(st: State, p: Record, version: int, o: Oracle, n: nat)
    requires n <= |ApplyProgram(st, p, version, o)|
    ensures SameEnforcement(
        Boot(DiedAfter(st, p, version, o, 0, n), o), Apply(st, StoredPolicy(st.store), st.store.version, o))
      <==> Undone(st, p, o, n)
  {
    var died := DiedAfter(st, p, version, o, 0, n);
    CutIsReached(st, p, version, o, 0);
    CutIsReached(st, p, version, o, n);
    var old_ := StoredPolicy(st.store);
    assert died.store == st.store;
    ApplyClosedForm(died, old_, st.store.version, o);
    ApplyClosedForm(st, old_, st.store.version, o);
    RewrittenIff(st.platform.settings, FlagPart(p, o)[..SettingsDone(p, o, n)], FlagPart(old_, o));
    assert PlanFor(died, old_, o) == PlanFor(st, old_, o);
    SuspensionsReturn(st, p, o, n, PlanFor(st, old_, o), died.platform.suspended);
  }

  lemma SuspensionsReturn(st: State, p: Record, o: Oracle, n: nat, back: Plan, left: set<string>)
    requires left == Cut(st, p, 0, o, n).platform.suspended
    ensures var first, s := PlanFor(st, p, o), st.platform.suspended;
      left - back.lifted + back.held == s - back.lifted + back.held
      <==>
      (Stage(p, o, n) >= 1 ==> first.lifted * s <= back.lifted + back.held)
      && (Stage(p, o, n) >= 2 ==> first.held - s <= back.lifted + back.held)
  {
    var first, s := PlanFor(st, p, o), st.platform.suspended;
    assert first.lifted !! first.held;
    var touched := back.lifted + back.held;
    assert left - back.lifted + back.held == s - back.lifted + back.held
      <==> (forall x :: x in left - s || x in s - left ==> x in touched) by {
      forall x | (x in left - s || x in s - left) && x !in touched
        ensures left - back.lifted + back.held != s - back.lifted + back.held
      {
        assert (x in left - back.lifted + back.held) != (x in s - back.lifted + back.held);
      }
    }
  }

  /** No call throws and nothing is refused. */
  const WILLING := Oracle(map[], None, None, {}, {})

  lemma {:induction false} KeysOfFlags(p: Record, flags: seq<Flag>, k: SettingKey)
    ensures k in Keys(FlagWrites(p, flags, map[])) <==> exists f :: f in flags && k in Keys(Block(p, f))
    decreases |flags|
  {
    if flags != [] {
      var init, last := flags[..|flags| - 1], flags[|flags| - 1];
      assert flags == init + [last];
      KeysOfFlags(p, init, k);
      BlockOwner(p, last);
      NothingThrows(Block(p, last));
    }
  }

  lemma NothingThrows(ws: seq<Write>)
    ensures Effective(ws, map[]) == ws && BlockFault(ws, map[]).None?
  {
  }

  /** Where nothing throws, the old policy fails to rewrite two settings at most: it never resets these two. */
  lemma SettingsThatLinger(p: Record, old_: Record, k: SettingKey)
    requires Dpc.Producible(p) && Dpc.Producible(old_)
    ensures k in Keys(FlagPart(p, WILLING)) - Keys(FlagPart(old_, WILLING)) <==>
      (k == LockTaskFeatures && KioskMode in p.on - old_.on) || (k == Toggle(WifiAlwaysOn) && WifiAlwaysOn in p.on - old_.on)
  {
    KeysOfFlags(p, ENFORCE_ORDER, k);
    KeysOfFlags(old_, ENFORCE_ORDER, k);
    EveryFlagIsEnforced(OwnerOf(k));
    forall f
      ensures k in Keys(Block(p, f)) || k in Keys(Block(old_, f)) ==> OwnerOf(k) == f
    {
      BlockOwner(p, f);
      BlockOwner(old_, f);
    }
    KioskKeys(p, k);
    KioskKeys(old_, k);
  }

  lemma KioskKeys(p: Record, k: SettingKey)
    requires Dpc.Producible(p)
    ensures k in Keys(KioskWrites(p)) <==> !k.Toggle? && (k.LockTaskFeatures? ==> KioskMode in p.on)
  {
    var ws := KioskWrites(p);
    assert ws[0].key == LockTaskPackages && ws[1].key == PreferredHome && ws[2].key == KioskHomeAlias;
    if KioskMode in p.on {
      assert p.kiosk != [] by { assert Elements(p.kiosk) != {}; }
      assert ws[4].key == LockTaskFeatures && ws[5].key == KioskScreen;
    } else {
      assert ws[3].key == KioskScreen;
    }
  }

  predicate SetOn(m: map<SettingKey, Setting>, k: SettingKey) { k in m && m[k] == Switch(true) }

  /**
   * In plain terms, on a willing platform with true bookkeeping: the old policy
   * undoes the whole apply exactly when the apply held nothing the old policy
   * leaves open, and switched on neither the kiosk features nor Wi-Fi for the first time.
   */
  lemma WillingUndoneIff(st: State, p: Record)
    requires InSync(st) && Dpc.Producible(p)
    ensures var old_ := StoredPolicy(st.store);
      Undone(st, p, WILLING, |FlagPart(p, WILLING)| + 8) <==>
        && Wanted(p, st.platform) <= st.platform.suspended + Wanted(old_, st.platform)
        && (KioskMode in p.on - old_.on ==> SetOn(st.platform.settings, LockTaskFeatures))
        && (WifiAlwaysOn in p.on - old_.on ==> SetOn(st.platform.settings, Toggle(WifiAlwaysOn)))
  {
    var m, old_, o := st.platform.settings, StoredPolicy(st.store), WILLING;
    var ws := FlagPart(p, o);
    ReadBackIsProducible(st.store.policy);
    assert ws[..SettingsDone(p, o, |ws| + 8)] == ws;
    WillingSettings(m, p, old_);
    var first, back := PlanFor(st, p, o), PlanFor(st, old_, o);
    assert first.held == Wanted(p, st.platform);
    assert back.lifted + back.held == st.platform.suspended + Wanted(old_, st.platform);
  }

  lemma WillingSettings(m: map<SettingKey, Setting>, p: Record, old_: Record)
    requires Dpc.Producible(p) && Dpc.Producible(old_)
    ensures LeavesNothing(m, FlagPart(p, WILLING), FlagPart(old_, WILLING)) <==>
      && (KioskMode in p.on - old_.on ==> SetOn(m, LockTaskFeatures))
      && (WifiAlwaysOn in p.on - old_.on ==> SetOn(m, Toggle(WifiAlwaysOn)))
  {
    var ws := FlagPart(p, WILLING);
    forall k { SettingsThatLinger(p, old_, k); }
    EnforceOrderIsDistinct();
    forall f | f in p.on ensures
      && (f == KioskMode ==> SetOn(Overwrite(m, ws), LockTaskFeatures))
      && (f == WifiAlwaysOn ==> SetOn(Overwrite(m, ws), Toggle(WifiAlwaysOn)))
    {
      NothingThrows(Block(p, f));
      EveryFlagIsEnforced(f);
      assert !MissingTarget(p) by { assert KioskMode in p.on ==> Elements(p.kiosk) != {}; }
      FlagsRealized(m, p, ENFORCE_ORDER, map[], f);
    }
  }

  /**
   * The failing family: an allowlist over an open policy, death after the hold
   * call with nothing flushed. The start applies the open policy, and the
   * packages stay suspended while no record of them is left.
   */
  lemma LostFlushStrands(st: State, p: Record, version: int, o: Oracle, n: nat, pkg: string)
    requires n <= |ApplyProgram(st, p, version, o)| && Stage(p, o, n) >= 2
    requires StoredPolicy(st.store).mode.Open? && pkg !in st.store.suspended
    requires pkg in PlanFor(st, p, o).held && pkg !in st.platform.suspended
    ensures var after := Boot(DiedAfter(st, p, version, o, 0, n), o);
      && Stranded(after, pkg)
      && !SameEnforcement(after, Apply(st, StoredPolicy(st.store), st.store.version, o))
      && (Dpc.Producible(p) ==> !SameEnforcement(after, Apply(st, p, version, o)))
  {
    var died := DiedAfter(st, p, version, o, 0, n);
    CutIsReached(st, p, version, o, 0);
    CutIsReached(st, p, version, o, n);
    OldPolicyReturnsIff(st, p, version, o, n);
    ApplyClosedForm(died, StoredPolicy(st.store), st.store.version, o);
    ApplyClosedForm(st, p, version, o);
  }

  /** One launchable app, fresh from the open default, and an allowlist that names another. */
  const ONE_APP := State(Store(None, 0, {}, {}, {}, map[]), Platform({"a.b"}, {"a.b"}, {}, {}, map[]))
  const OTHER_APP := Record({}, [], Allowlist, ["c.d"])

  lemma OneAppIsHeld()
    ensures "a.b" in PlanFor(ONE_APP, OTHER_APP, WILLING).held
  {
    assert "a.b"[0] != "c.d"[0] && "a.b" !in Elements(OTHER_APP.allowed);
    assert |"a.b"| == 3 && "a.b" !in NeverTouched(ONE_APP.platform);
  }

  /** There it happens. */
  lemma StrandingHappens()
    ensures var n := 4 + |FlagPart(OTHER_APP, WILLING)|;
      && n <= |ApplyProgram(ONE_APP, OTHER_APP, 1, WILLING)|
      && Stranded(Boot(DiedAfter(ONE_APP, OTHER_APP, 1, WILLING, 0, n), WILLING), "a.b")
  {
    OneAppIsHeld();
    ProgramLength(ONE_APP, OTHER_APP, 1, WILLING);
    hide FlagWrites, ApplyProgram, Boot, DiedAfter, SameEnforcement, Apply, Wanted, NeverTouched, PlanFor;
    LostFlushStrands(ONE_APP, OTHER_APP, 1, WILLING, 4 + |FlagPart(OTHER_APP, WILLING)|, "a.b");
  }

  // ----- policies never mix ---------------------------------------------------------------------

  /** The next start enforces the policy on disk as an uninterrupted apply of it would. */
  predicate Recovers(st: State, p: Record, version: int, o: Oracle, m: nat, n: nat)
    requires m <= n <= |ApplyProgram(st, p, version, o)|
  {
    SameEnforcement(Boot(DiedAfter(st, p, version, o, m, n), o),
      if m == 0 then Apply(st, StoredPolicy(st.store), st.store.version, o) else Apply(st, p, version, o))
  }

  /**
   * Wherever the process dies and however much of the store had reached the
   * disk, the next start enforces the old policy or the new one and nothing in
   * between, precisely when the apply was repeatable and the old policy undoes
   * every prefix of it.
   */
  lemma DeathNeverMixes(st: State, p: Record, version: int, o: Oracle)
    requires Dpc.Producible(p)
    ensures var size := |ApplyProgram(st, p, version, o)|;
      (forall m: nat, n: nat :: m <= n <= size ==> Recovers(st, p, version, o, m, n))
      <==> Repeatable(st, p, o) && forall n: nat :: n <= size ==> Undone(st, p, o, n)
  {
    var size := |ApplyProgram(st, p, version, o)|;
    assert size >= 1;
    forall m: nat, n: nat | m <= n <= size
      ensures Recovers(st, p, version, o, m, n) <==>
        if m == 0 then Undone(st, p, o, n) else Stage(p, o, m) < 3 || Repeatable(st, p, o)
    {
      if m == 0 {
        OldPolicyReturnsIff(st, p, version, o, n);
      } else {
        NewPolicyWinsIff(st, p, version, o, m, n);
      }
    }
    ProgramLength(st, p, version, o);
    assert Stage(p, o, size) == 6;
    hide Recovers, Undone, Repeatable;
    if forall m: nat, n: nat :: m <= n <= size ==> Recovers(st, p, version, o, m, n) {
      assert Recovers(st, p, version, o, size, size);
      forall n: nat | n <= size ensures Undone(st, p, o, n) {
        assert Recovers(st, p, version, o, 0, n);
      }
    }
  }

  /** Nothing a start does to its own policy is left over. */
  lemma StartUndoesItself(st: State, o: Oracle, n: nat)
    ensures Undone(st, StoredPolicy(st.store), o, n)
  {
    var p := StoredPolicy(st.store);
    var done := FlagPart(p, o)[..SettingsDone(p, o, n)];
    assert Keys(done) <= Keys(FlagPart(p, o));
  }

  /** The re-apply at a start can itself be interrupted anywhere exactly when it is repeatable. */
  lemma StartCanBeInterruptedIff(st: State, o: Oracle)
    ensures var p, version := StoredPolicy(st.store), st.store.version;
      (forall m: nat, n: nat :: m <= n <= |ApplyProgram(st, p, version, o)| ==> Recovers(st, p, version, o, m, n))
      <==> Repeatable(st, p, o)
  {
    var p, version := StoredPolicy(st.store), st.store.version;
    ReadBackIsProducible(st.store.policy);
    DeathNeverMixes(st, p, version, o);
    forall n: nat ensures Undone(st, p, o, n) {
      StartUndoesItself(st, o, n);
    }
  }

  /** An allowlist stored, one package to lift, another to hold, and the lift call throws. */
  const LIFT_THROWS := Oracle(map[], Some(RuntimeFault), None, {}, {})
  const HALF_APPLIED := State(
    Store(Some(ToJson(OTHER_APP)), 1, {"x.y"}, {}, {}, map[]), Platform({"a.b", "x.y"}, {"a.b"}, {}, {"x.y"}, map[]))

  lemma OtherAppIsStored()
    ensures StoredPolicy(HALF_APPLIED.store) == OTHER_APP
  {
    assert |"c.d"| == 3 && |DPC_PACKAGE| > 3;
    assert Elements(["c.d"]) == {"c.d"} && Elements([]) == {};
    assert Safe(PolicyOf(OTHER_APP));
    SortedListIsFixed(Utf16, ["c.d"]);
    SortedListIsFixed(Utf16, []);
    Dpc.StoreRoundTrip(OTHER_APP);
  }

  /** Such a start is not repeatable. */
  lemma UnrepeatableStart()
    ensures !Repeatable(HALF_APPLIED, StoredPolicy(HALF_APPLIED.store), LIFT_THROWS)
  {
    OtherAppIsStored();
    hide ReadBack;
    var st, p := HALF_APPLIED, OTHER_APP;
    assert "a.b"[0] != "c.d"[0] && "x.y"[0] != "a.b"[0] && |"a.b"| == 3;
    assert "a.b" in Wanted(p, st.platform) && "x.y" !in Wanted(p, st.platform);
    assert "x.y" in st.store.suspended - Wanted(p, st.platform);
  }
}

/**
 * Sessions that lose something: an acknowledged write, the version counter's
 * lead, the webhook address. Each starts from the first state of a session.
 */
module Losses {
  import opened Wrappers
  import opened Ordering
  import opened PolicyDocument
  import opened Coordinator
  import opened CoordinatorRuns
  import opened Writes
  import CoordinatorFields
  import Ha = HaValidator

  function TurnOn(f: Flag): Change { SetKey(Flag(f), Bool(true)) }

  /** The default policy with one flag on. */
  function With(f: Flag): Doc { Ha.DefaultPolicy()[Flag(f) := Bool(true)] }

  lemma DefaultMeans()
    ensures Ha.IsNormal(Ha.DefaultPolicy()) && Ha.Meaning(Ha.DefaultPolicy()) == Policy({}, {}, Open, {})
  {
    Ha.DefaultIsNormal();
    var d := Ha.DefaultPolicy();
    assert Ha.Names(d[KioskPackages]) == {} && Ha.Names(d[AllowedPackages]) == {};
    assert FlagsOn(d) == {};
  }

  /** Turning on any flag but the kiosk is accepted on the default policy. */
  lemma FlagIsAccepted(f: Flag)
    requires !f.KioskMode?
    ensures Ha.Validate(Merge(Ha.DefaultPolicy(), TurnOn(f))) == Ok(With(f))
    ensures Ha.IsNormal(With(f)) && With(f) != Ha.DefaultPolicy()
  {
    DefaultMeans();
    WriteOutcome(Ha.DefaultPolicy(), TurnOn(f));
    FlagWriteChangesOneKey(Ha.DefaultPolicy(), f, true);
    Ha.ValidateIsIdempotent(Merge(Ha.DefaultPolicy(), TurnOn(f)));
    assert With(f)[Flag(f)] != Ha.DefaultPolicy()[Flag(f)];
  }

  /** The tablet's first report of the default policy, by webhook: adopted and recorded. */
  lemma FirstReport(host: string, clock: real, r: Report)
    requires r.policy == Ha.DefaultPolicy()
    ensures var start := Initial(r.deviceId, host, clock);
      Next(start, Reported(r)) ==
        start.(belief := Belief(Ha.DefaultPolicy(), true, Max(0, r.version)), data := Some(Status(r, true)))
  {
    Ha.DefaultIsNormal();
  }

  // ----- single steps, as far as the sessions below need them -------------------------------

  lemma WriteStep(c: Core, id: nat, change: Change, d: Doc)
    requires c.belief.known && Ha.Validate(Merge(c.belief.desired, change)) == Ok(d)
    ensures Next(c, Write(id, change)) == c.(lock := c.lock.(waiting := c.lock.waiting + [d]))
  {
    hide Ha.Validate;
  }

  lemma GrantStep(c: Core, d: Doc, rest: seq<Doc>)
    requires c.lock.holder.None? && c.lock.waiting == [d] + rest
    ensures Next(c, TakeLock) ==
      c.(lock := Lock(Some(Push(c.lock.nextPush, d, c.belief.version + 1)), rest, c.lock.nextPush + 1))
  {
    assert c.lock.waiting[1..] == rest;
  }

  lemma AckStep(c: Core, r: Report)
    requires c.lock.holder.Some?
    ensures var push := c.lock.holder.value;
      Next(c, PushAcked(r)) == c.(
        belief := Belief(push.doc, c.belief.known, Max(push.version, r.version)),
        data := Some(Status(r, true)), lock := c.lock.(holder := None))
  {
  }

  /** A report on a known, free session changes only the version, the status and the bookkeeping of re-pushes. */
  lemma ReportStep(c: Core, r: Report)
    requires c.belief.known && c.data.Some? && r.deviceId == c.deviceId
    ensures var after := Next(c, Reported(r));
      && after.belief == c.belief.(version := Max(c.belief.version, r.version))
      && after.lock == c.lock && after.fetches == c.fetches
      && (c.lock.holder.None? && c.repair == Repair(0, None) && Drifted(c.belief, r) ==> after.repair.launched == 1)
  {
    hide Ha.Validate;
  }

  lemma RepairStep(c: Core)
    requires c.repair.launched == 1 && Ha.IsNormal(c.belief.desired)
    ensures var after := Next(c, RunReconcile);
      after.belief == c.belief && after.fetches == c.fetches
      && after.lock == c.lock.(waiting := c.lock.waiting + [c.belief.desired])
  {
  }

  // ----- the sessions -----------------------------------------------------------------------

  /**
   * A profile is pushed before anything was read; a report from before its
   * delivery carries the version of an earlier session, and the acknowledgement lowers the counter.
   */
  lemma VersionFalls(host: string, clock: real, late: Report, answer: Report)
    requires late.version == 50
    requires answer.deviceId == late.deviceId && answer.version == 1 && answer.policy == Ha.DefaultPolicy()
    ensures var c1 := Next(Initial(late.deviceId, host, clock), ApplyAction(Ha.DefaultPolicy()));
      var c2 := Next(c1, TakeLock);
      var c3 := Next(c2, Reported(late));
      && c2.lock.holder == Some(Push(0, Ha.DefaultPolicy(), 1))
      && c3.belief.version == 50 && Next(c3, PushAcked(answer)).belief.version == 1
  {
    Ha.DefaultIsNormal();
    hide Ha.Validate;
    var start := Initial(late.deviceId, host, clock);
    var c1 := Next(start, ApplyAction(Ha.DefaultPolicy()));
    assert c1.lock.waiting == [Ha.DefaultPolicy()] + [];
    GrantStep(c1, Ha.DefaultPolicy(), []);
    var c2 := Next(c1, TakeLock);
    assert c2 == start.(lock := c2.lock);
  }

  /** The tablet's answer to a push of this session. */
  predicate Answers(r: Report, f: Flag, version: int) { r.policy == With(f) && r.version == version }

  /**
   * Two writes: the second is merged and waits for the lock while the first is
   * pushed. When the first is acknowledged the lock is free until the waiter
   * resumes; a stale report in that window launches a re-push, which queues
   * behind the waiter and puts the first write's policy back.
   */
  lemma RepairUndoesWrite(
    host: string, clock: real, stale: Report, done1: Report, done2: Report, done3: Report, first: Flag, second: Flag)
    requires stale.policy == Ha.DefaultPolicy() && stale.version == 0
    requires !first.KioskMode? && !second.KioskMode? && first != second
    requires Answers(done1, first, 1) && Answers(done2, second, 2) && Answers(done3, first, 3)
    ensures var c1 := Next(Initial(stale.deviceId, host, clock), Reported(stale));
      var c3 := Next(Next(c1, Write(0, TurnOn(first))), TakeLock);
      var c5 := Next(Next(c3, Write(1, TurnOn(second))), PushAcked(done1));
      var c7 := Next(Next(c5, Reported(stale)), RunReconcile);
      var written := Next(Next(c7, TakeLock), PushAcked(done2));
      var repaired := Next(Next(written, TakeLock), PushAcked(done3));
      && written.belief == Belief(With(second), true, 2)
      && Idle(repaired) && repaired.belief == Belief(With(first), true, 3) && With(first) != With(second)
  {
    FirstReport(host, clock, stale);
    FlagIsAccepted(first);
    FlagIsAccepted(second);
    Ha.DefaultIsNormal();
    assert With(first)[Flag(second)] != With(second)[Flag(second)];
    var d, x, y := Ha.DefaultPolicy(), With(first), With(second);
    hide Ha.Validate, Next, Ha.DefaultPolicy, With;
    var c1 := Next(Initial(stale.deviceId, host, clock), Reported(stale));
    WriteStep(c1, 0, TurnOn(first), x);
    var c2 := Next(c1, Write(0, TurnOn(first)));
    GrantStep(c2, x, []);
    var c3 := Next(c2, TakeLock);
    WriteStep(c3, 1, TurnOn(second), y);
    var c4 := Next(c3, Write(1, TurnOn(second)));
    AckStep(c4, done1);
    var c5 := Next(c4, PushAcked(done1));
    assert Drifted(c5.belief, stale);
    ReportStep(c5, stale);
    var c6 := Next(c5, Reported(stale));
    RepairStep(c6);
    var c7 := Next(c6, RunReconcile);
    assert c7.lock.waiting == [y] + [x];
    GrantStep(c7, y, [x]);
    var c8 := Next(c7, TakeLock);
    AckStep(c8, done2);
    var written := Next(c8, PushAcked(done2));
    assert written.lock.waiting == [x] + [];
    GrantStep(written, x, []);
    AckStep(Next(written, TakeLock), done3);
  }

  /** The session of a write still waiting for its fetch when the first report arrives. */
  lemma LateReport(host: string, clock: real, r: Report, change: Change)
    requires r.policy == Ha.DefaultPolicy()
    ensures var start := Initial(r.deviceId, host, clock);
      var c := Next(Next(start, Write(0, change)), Reported(r));
      && c.belief == Belief(Ha.DefaultPolicy(), true, Max(0, r.version)) && c.lock == start.lock
      && c.fetches == map[0 := Fetch(EnsureKnown(change), None)]
  {
    Ha.DefaultIsNormal();
    hide Ha.Validate;
  }

  lemma FetchStep(c: Core, id: nat, change: Change, r: Report, d: Doc)
    requires c.fetches == map[id := Fetch(EnsureKnown(change), None)]
    requires Ha.IsNormal(r.policy) && Ha.Validate(Merge(r.policy, change)) == Ok(d)
    ensures var after := Next(c, FetchAnswered(id, r));
      && after.belief.known && after.belief.desired == r.policy && after.fetches == map[]
      && after.lock == c.lock.(waiting := c.lock.waiting + [d])
  {
    hide Ha.Validate;
  }

  /**
   * A write that began before the first report fetches; meanwhile the report
   * arrives and another write is acknowledged; then the fetch returns with the
   * status from before it, and the acknowledged write is gone.
   */
  lemma LateFetchUndoesWrite(host: string, clock: real, r: Report, slow: Flag, quick: Flag)
    requires r.policy == Ha.DefaultPolicy() && !slow.KioskMode? && !quick.KioskMode? && slow != quick
    ensures var c1 := Next(Initial(r.deviceId, host, clock), Write(0, TurnOn(slow)));
      var c2 := Next(c1, Reported(r));
      var written := Next(Next(Next(c2, Write(1, TurnOn(quick))), TakeLock), PushAcked(r));
      var returned := Next(written, FetchAnswered(0, r));
      var pushed := Next(Next(returned, TakeLock), PushAcked(r));
      && written.belief.desired == With(quick)
      && returned.belief.desired == Ha.DefaultPolicy()
      && Idle(pushed) && pushed.belief.desired == With(slow) && With(slow)[Flag(quick)] == Bool(false)
  {
    FlagIsAccepted(slow);
    FlagIsAccepted(quick);
    Ha.DefaultIsNormal();
    LateReport(host, clock, r, TurnOn(slow));
    assert With(slow)[Flag(quick)] == Bool(false);
    hide Ha.Validate, Next, Ha.DefaultPolicy;
    var c2 := Next(Next(Initial(r.deviceId, host, clock), Write(0, TurnOn(slow))), Reported(r));
    WriteStep(c2, 1, TurnOn(quick), With(quick));
    var c3 := Next(c2, Write(1, TurnOn(quick)));
    GrantStep(c3, With(quick), []);
    var c4 := Next(c3, TakeLock);
    AckStep(c4, r);
    var written := Next(c4, PushAcked(r));
    FetchStep(written, 0, TurnOn(slow), r, With(slow));
    var returned := Next(written, FetchAnswered(0, r));
    GrantStep(returned, With(slow), []);
    AckStep(Next(returned, TakeLock), r);
  }

  /** Setup cannot deliver the address; the first poll resends it, to something that answers without JSON. */
  lemma GarbledAnswerForgetsUrl(deviceId: string, host: string, clock: real, url: string, r: Report)
    ensures var t1 := Watch(Watch(Start(deviceId, host, clock), SendWebhook(url)), SendFinished(Undelivered));
      var t2 := Watch(Watch(t1, StartFetch(0, Poll)), FetchAnswered(0, r));
      t2.core.hook.sends == 1 && UrlForgotten(Watch(t2, SendFinished(Garbled)))
  {
    hide Ha.Validate, Adopt, Submit, Merge, ReconcileIfDrifted, CoordinatorFields.Heard, CoordinatorFields.Unheard;
  }
}

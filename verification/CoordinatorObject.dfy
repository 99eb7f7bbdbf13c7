/**
 * The coordinator as the object it is: one method per await-free section,
 * fields updated in place. Handle is its event loop; whatever it is handed, it
 * keeps the invariants of the runs.
 */
module CoordinatorObject {
  import opened Wrappers
  import opened PolicyDocument
  import opened Coordinator
  import opened CoordinatorRuns
  import Ha = HaValidator

  class LocalMdmCoordinator {
    const deviceId: string
    var clientHost: string
    var storedHost: string
    var desiredPolicy: Doc
    var policyKnown: bool
    var policyVersion: int
    var pushHolder: Option<Push>
    var pushWaiting: seq<Doc>
    var nextPush: nat
    var reconciles: nat
    var lastReconcile: Option<real>
    var lastRelocate: Option<real>
    var webhookUrl: Option<string>
    var webhookPending: bool
    var sends: nat
    var reauth: bool
    var data: Option<Status>
    var fetches: map<nat, Fetch>
    var clock: real
    ghost var log: Log            // what an observer has written down so far

    /** Documents normal and licensed, versions ahead, rates kept, address remembered, status faithful. */
    ghost predicate Valid()
      reads this
    {
      Sound(History())
    }

    ghost function History(): Trace
      reads this
    {
      Trace(Snapshot(), log)
    }

    constructor (deviceId: string, host: string, clock: real)
      ensures History() == Start(deviceId, host, clock) && Valid()
    {
      this.deviceId := deviceId;
      clientHost, storedHost := host, host;
      desiredPolicy := Ha.DefaultPolicy();
      policyKnown, policyVersion := false, 0;
      pushHolder, pushWaiting, nextPush := None, [], 0;
      reconciles, lastReconcile, lastRelocate := 0, None, None;
      webhookUrl, webhookPending, sends, reauth := None, false, 0, false;
      data, fetches := None, map[];
      this.clock := clock;
      log := Start(deviceId, host, clock).log;
      new;
      StartIsSound(deviceId, host, clock);
    }

    ghost function Snapshot(): Core
      reads this
    {
      Core(deviceId, Hosts(clientHost, storedHost), Belief(desiredPolicy, policyKnown, policyVersion),
        Lock(pushHolder, pushWaiting, nextPush), Repair(reconciles, lastReconcile),
        Hook(webhookUrl, webhookPending, sends, reauth), data, lastRelocate, fetches, clock)
    }

    /** _adopt_policy */
    method AdoptPolicy(report: Report)
      modifies this
      ensures Snapshot() == old(Snapshot()).(belief := Adopt(old(Snapshot()).belief, report))
    {
      hide Ha.Validate;
      var checked := Ha.ValidatePolicy(report.policy);
      if checked.Ok? {
        desiredPolicy := checked.value;
      } else {
        desiredPolicy := Ha.DefaultPolicy();
      }
      policyVersion := Max(policyVersion, report.version);
      policyKnown := true;
    }

    /** _schedule_webhook */
    method ScheduleResend()
      modifies this
      ensures Snapshot() == old(Snapshot()).(hook := ScheduleWebhook(old(Snapshot()).hook))
    {
      if webhookUrl.None? {
        return;
      }
      webhookPending := false;
      sends := sends + 1;
    }

    /** _reconcile_if_drifted */
    method ReconcileOnDrift(status: Status)
      modifies this
      ensures Snapshot() ==
        old(Snapshot()).(repair := ReconcileIfDrifted(old(Snapshot()), old(Snapshot()).belief, status))
    {
      hide Ha.Validate;
      if !status.reachable || !policyKnown || data.None? || pushHolder.Some? {
        return;
      }
      var reported := Ha.ValidatePolicy(status.report.policy);
      if reported.Err? || reported.value == desiredPolicy {
        return;
      }
      if lastReconcile.Some? && clock - lastReconcile.value < RECONCILE_MIN_INTERVAL {
        return;
      }
      lastReconcile := Some(clock);
      reconciles := reconciles + 1;
    }

    /** _on_status */
    method HandleStatus(status: Status, viaWebhook: bool)
      modifies this
      ensures Snapshot() == OnStatus(old(Snapshot()), status, viaWebhook)
    {
      hide Ha.Validate;
      if status.reachable {
        var cameBack := data.Some? && !data.value.reachable;
        if !policyKnown {
          AdoptPolicy(status.report);
        }
        if viaWebhook {
          webhookPending := false;
        } else if webhookPending || cameBack {
          ScheduleResend();
        }
      }
      ReconcileOnDrift(status);
    }

    /** async_handle_push */
    method HandleReport(report: Report) returns (accepted: bool)
      modifies this
      ensures Snapshot() == HandlePush(old(Snapshot()), report)
      ensures accepted == (report.deviceId == deviceId)
    {
      if report.deviceId != deviceId {
        return false;
      }
      policyVersion := Max(policyVersion, report.version);
      HandleStatus(Status(report, true), true);
      data := Some(Status(report, true));
      return true;
    }

    /** async_apply_policy up to the lock */
    method SubmitPolicy(doc: Doc) returns (refusal: Option<Refusal>)
      modifies this
      ensures Snapshot() == old(Snapshot()).(lock := Submit(old(Snapshot()).lock, doc))
      ensures refusal == match Ha.Validate(doc) { case Ok(_) => None case Err(e) => Some(e) }
    {
      var safe := Ha.ValidatePolicy(doc);
      if safe.Err? {
        return Some(safe.error);
      }
      pushWaiting := pushWaiting + [safe.value];
      return None;
    }

    /** async_set_policy_flag, async_set_kiosk_packages, async_set_policy_value, async_approve_package */
    method WriteChange(id: nat, change: Change)
      modifies this
      ensures Snapshot() == Next(old(Snapshot()), Write(id, change))
    {
      if policyKnown {
        var _ := SubmitPolicy(Merge(desiredPolicy, change));
      } else if id !in fetches {
        fetches := fetches[id := Fetch(EnsureKnown(change), None)];
      }
    }

    /** async_apply_policy once the lock is granted: number the push and send the PUT */
    method AcquireLock()
      modifies this
      ensures Snapshot() == Next(old(Snapshot()), TakeLock)
    {
      if pushHolder.None? && pushWaiting != [] {
        var version := policyVersion + 1;
        pushHolder := Some(Push(nextPush, pushWaiting[0], version));
        pushWaiting := pushWaiting[1..];
        nextPush := nextPush + 1;
      }
    }

    /** async_apply_policy when the PUT is answered */
    method PushAnswered(report: Report)
      modifies this
      ensures Snapshot() == Next(old(Snapshot()), PushAcked(report))
    {
      if pushHolder.Some? {
        var push := pushHolder.value;
        desiredPolicy := push.doc;
        policyVersion := Max(push.version, report.version);
        data := Some(Status(report, true));
        pushHolder := None;
      }
    }

    /** async_apply_policy when the PUT fails: the lock is released and nothing else changes */
    method PushLost()
      modifies this
      ensures Snapshot() == Next(old(Snapshot()), PushFailed)
    {
      pushHolder := None;
    }

    /** _reconcile */
    method Reconcile()
      modifies this
      ensures Snapshot() == Next(old(Snapshot()), RunReconcile)
    {
      if reconciles > 0 {
        reconciles := reconciles - 1;
        var _ := SubmitPolicy(desiredPolicy);
      }
    }

    /** What runs when a fetch returns: the rest of a poll, of setup, or of a write. */
    method ResumeFetch(purpose: Purpose, status: Status)
      modifies this
      ensures Snapshot() == Resume(old(Snapshot()), purpose, status)
    {
      match purpose
      case Poll =>
        HandleStatus(status, false);
        data := Some(status);
      case Setup =>
        if status.reachable {
          AdoptPolicy(status.report);
        }
      case EnsureKnown(change) =>
        if status.reachable {
          AdoptPolicy(status.report);
          data := Some(status);
          var _ := SubmitPolicy(Merge(desiredPolicy, change));
        }
    }

    /** A fetch that got no usable answer ends with the last known status, marked unreachable. */
    method ResumeUnreachable(id: nat)
      requires id in fetches
      modifies this
      ensures Snapshot() == Finish(old(Snapshot()), id, LastKnown(old(Snapshot())))
    {
      hide Resume;
      var purpose := fetches[id].purpose;
      var status := if data.None? then Offline(deviceId) else data.value.(reachable := false);
      ResumeKeepsFetches(Snapshot(), purpose, status, fetches - {id});
      fetches := fetches - {id};
      ResumeFetch(purpose, status);
    }

    /** _fetch when the host did not answer: _relocate, or fall back to the last known status. */
    method FetchUnanswered(id: nat, ip: Option<string>)
      requires id in fetches && fetches[id].probing.None?
      modifies this
      ensures Snapshot() == Next(old(Snapshot()), FetchFailed(id, ip))
    {
      hide Ha.Validate;
      var tooSoon := lastRelocate.Some? && clock - lastRelocate.value < RELOCATE_MIN_INTERVAL;
      if tooSoon || ip.None? || ip.value == clientHost {
        ResumeUnreachable(id);
      } else {
        lastRelocate := Some(clock);
        fetches := fetches[id := Fetch(fetches[id].purpose, ip)];
      }
    }

    /** _relocate after its await: follow only an address that answers as this tablet. */
    method ProbeReturned(id: nat, report: Report)
      requires id in fetches && fetches[id].probing.Some?
      modifies this
      ensures Snapshot() == Next(old(Snapshot()), ProbeAnswered(id, report))
    {
      hide Resume;
      if report.deviceId != deviceId {
        ResumeUnreachable(id);
        return;
      }
      var fetch := fetches[id];
      clientHost, storedHost := fetch.probing.value, fetch.probing.value;
      ResumeKeepsFetches(Snapshot(), fetch.purpose, Status(report, true), fetches - {id});
      fetches := fetches - {id};
      ResumeFetch(fetch.purpose, Status(report, true));
    }

    /** async_send_webhook after its await */
    method WebhookAnswered(outcome: SendOutcome)
      requires sends > 0
      modifies this
      ensures Snapshot() == Next(old(Snapshot()), SendFinished(outcome))
    {
      hide Ha.Validate;
      sends := sends - 1;
      match outcome
      case Delivered => webhookPending := false;
      case Undelivered => webhookPending := true;
      case BadToken => reauth := true;
      case Garbled =>
    }

    /** A fetch that ends in an exception; a rejected token starts reauthentication, except under a write. */
    method FetchRaised(id: nat, rejected: bool)
      requires id in fetches
      modifies this
      ensures Snapshot() == if rejected then Coordinator.Reject(old(Snapshot()), id)
                            else old(Snapshot()).(fetches := old(fetches) - {id})
    {
      if rejected && !fetches[id].purpose.EnsureKnown? {
        reauth := true;
      }
      fetches := fetches - {id};
    }

    /** _fetch when the known host answered. */
    method FetchReturned(id: nat, report: Report)
      requires id in fetches && fetches[id].probing.None?
      modifies this
      ensures Snapshot() == Next(old(Snapshot()), FetchAnswered(id, report))
    {
      hide Resume;
      var purpose := fetches[id].purpose;
      ResumeKeepsFetches(Snapshot(), purpose, Status(report, true), fetches - {id});
      fetches := fetches - {id};
      ResumeFetch(purpose, Status(report, true));
    }

    /** What the event loop runs for an event about a fetch; events for a fetch that is over do nothing. */
    method HandleFetch(e: Event)
      requires e.StartFetch? || e.FetchAnswered? || e.FetchRejected? || e.FetchAborted? || e.FetchFailed?
        || e.ProbeAnswered? || e.ProbeFailed?
      modifies this
      ensures Snapshot() == Next(old(Snapshot()), e)
    {
      hide Ha.Validate, Finish, Resume;
      if e.StartFetch? {
        if e.id !in fetches && !e.purpose.EnsureKnown? {
          fetches := fetches[e.id := Fetch(e.purpose, None)];
        }
      } else if e.id !in fetches {
        assert fetches - {e.id} == fetches;
      } else if e.FetchAborted? {
        FetchRaised(e.id, false);
      } else if fetches[e.id].probing.None? {
        match e
        case FetchAnswered(id, report) => FetchReturned(id, report);
        case FetchRejected(id) => FetchRaised(id, true);
        case FetchFailed(id, ip) => FetchUnanswered(id, ip);
        case _ =>
      } else {
        match e
        case ProbeAnswered(id, report) => ProbeReturned(id, report);
        case ProbeFailed(id) => ResumeUnreachable(id);
        case _ =>
      }
    }

    /** What the event loop runs for any other event. */
    method HandleOther(e: Event)
      requires !(e.StartFetch? || e.FetchAnswered? || e.FetchRejected? || e.FetchAborted? || e.FetchFailed?
        || e.ProbeAnswered? || e.ProbeFailed?)
      modifies this
      ensures Snapshot() == Next(old(Snapshot()), e)
    {
      hide Ha.Validate, Adopt, Merge, OnStatus;
      match e
      case Write(id, change) => WriteChange(id, change);
      case ApplyAction(doc) => var _ := SubmitPolicy(doc);
      case RunReconcile => Reconcile();
      case TakeLock => AcquireLock();
      case PushAcked(report) => PushAnswered(report);
      case PushFailed => PushLost();
      case Reported(report) => var _ := HandleReport(report);
      case SendWebhook(url) =>
        webhookUrl := Some(url);
        sends := sends + 1;
      case SendFinished(outcome) =>
        if sends > 0 {
          WebhookAnswered(outcome);
        }
      case Tick(elapsed) =>
        if elapsed >= 0.0 {
          clock := clock + elapsed;
        }
    }

    /** One event: the object does what the transition system does, and its invariants survive. */
    method Handle(e: Event)
      requires Valid()
      modifies this
      ensures History() == Watch(old(History()), e) && Valid()
    {
      hide Next, Sound;
      ghost var before := History();
      SoundStep(before, e);
      match e {
        case StartFetch(_, _) => HandleFetch(e);
        case FetchAnswered(_, _) => HandleFetch(e);
        case FetchRejected(_) => HandleFetch(e);
        case FetchAborted(_) => HandleFetch(e);
        case FetchFailed(_, _) => HandleFetch(e);
        case ProbeAnswered(_, _) => HandleFetch(e);
        case ProbeFailed(_) => HandleFetch(e);
        case _ => HandleOther(e);
      }
      log := Watch(before, e).log;
    }

    /** Any sequence of events at all. */
    method Serve(es: seq<Event>)
      requires Valid()
      modifies this
      ensures History() == Play(old(History()), es) && Valid()
    {
      hide Watch, Sound;
      ghost var start := History();
      assert es[..0] == [];
      for i := 0 to |es|
        invariant History() == Play(start, es[..i]) && Valid()
      {
        PlayMore(start, es, i);
        Handle(es[i]);
      }
      assert es[..|es|] == es;
    }
  }

  /**
   * A session of the object, whatever happens in it: it ends where the
   * transition system ends, everything it holds or pushes is safe, acknowledged
   * versions increase, and until the tablet has answered only full documents are pushed.
   */
  method Session(deviceId: string, host: string, clock: real, es: seq<Event>) returns (c: LocalMdmCoordinator)
    ensures fresh(c) && c.Valid() && c.History() == Play(Start(deviceId, host, clock), es)
    ensures Safe(Ha.Meaning(c.desiredPolicy))
    ensures c.pushHolder.Some? ==> Safe(Ha.Meaning(c.pushHolder.value.doc))
    ensures Increasing(c.log.acked)
    ensures !c.policyKnown && c.pushHolder.Some? ==>
      exists full :: full in c.log.fulls && Ha.Validate(full) == Ok(c.pushHolder.value.doc)
  {
    c := new LocalMdmCoordinator(deviceId, host, clock);
    c.Serve(es);
    PushedPolicyIsSafe(deviceId, host, clock, es);
    PlaceholderIsNeverPushed(deviceId, host, clock, es);
  }
}

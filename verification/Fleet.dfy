/** The fleet sensor: one state per tablet, and when it may say never reported. */
module Fleet {
  import opened Wrappers
  import opened PolicyDocument
  import opened Coordinator
  import opened CoordinatorRuns
  import Ha = HaValidator

  datatype FleetState = Online | OfflineState | NeverReported | Misconfigured | NeedsAttention

  datatype Reason = NotReachable | NotDeviceOwner | EnforcementFailures | AppsAwaitingApproval

  /** enforcement_failures: neither applied nor a limit of the tier. */
  function FailedKeys(r: Report): set<Key> {
    set k | k in r.enforcement && r.enforcement[k] !in {"applied", "limited", "unsupported"}
  }

  /** A key counts as a failure whatever else the tablet calls it. */
  predicate Fails(value: string) { value != "applied" && value != "limited" && value != "unsupported" }

  lemma FailedKeysIff(r: Report)
    ensures FailedKeys(r) != {} <==> exists k :: k in r.enforcement && Fails(r.enforcement[k])
  {
    if FailedKeys(r) != {} {
      var k :| k in FailedKeys(r);
    }
    if exists k :: k in r.enforcement && Fails(r.enforcement[k]) {
      var k :| k in r.enforcement && Fails(r.enforcement[k]);
      assert k in FailedKeys(r);
    }
  }

  /** reported_at is present and not empty. */
  predicate Stamped(r: Report) { r.reportedAt.Some? && r.reportedAt.value != "" }

  /** fleet_status: unreachable wins, then ownership, then anything else that needs a person. */
  method FleetStatus(status: Status) returns (state: FleetState, reasons: seq<Reason>)
    ensures status.reachable <==> state in {Online, Misconfigured, NeedsAttention}
    ensures !status.reachable ==> reasons == [NotReachable]
    ensures !status.reachable ==>
      (state == NeverReported <==> status.report.reportedAt == None || status.report.reportedAt == Some(""))
    ensures status.reachable ==>
      && (NotDeviceOwner in reasons <==> !status.report.isOwner)
      && (EnforcementFailures in reasons <==>
            exists k :: k in status.report.enforcement && Fails(status.report.enforcement[k]))
      && (AppsAwaitingApproval in reasons <==> status.report.pending != {})
      && NotReachable !in reasons && |reasons| <= 3
      && (state == Misconfigured <==> !status.report.isOwner)
      && (state == Online <==> reasons == [])
  {
    if !status.reachable {
      return if Stamped(status.report) then OfflineState else NeverReported, [NotReachable];
    }
    FailedKeysIff(status.report);
    reasons := [];
    if !status.report.isOwner {
      reasons := reasons + [NotDeviceOwner];
    }
    if FailedKeys(status.report) != {} {
      reasons := reasons + [EnforcementFailures];
    }
    if status.report.pending != {} {
      reasons := reasons + [AppsAwaitingApproval];
    }
    if NotDeviceOwner in reasons {
      return Misconfigured, reasons;
    }
    if reasons != [] {
      return NeedsAttention, reasons;
    }
    return Online, reasons;
  }

  /** The state the sensor shows before anything was reported. */
  predicate ShowsNeverReported(s: Status) { !s.reachable && !Stamped(s.report) }

  /** Every report an event carries is stamped, as this DPC always does. */
  predicate StampsAll(e: Event) {
    match e
    case FetchAnswered(_, r) => Stamped(r)
    case ProbeAnswered(_, r) => Stamped(r)
    case PushAcked(r) => Stamped(r)
    case Reported(r) => Stamped(r)
    case _ => true
  }

  lemma {:induction false} AcceptedIsStamped(t: Trace, es: seq<Event>)
    requires t.log.accepted.Some? ==> Stamped(t.log.accepted.value)
    requires forall e :: e in es ==> StampsAll(e)
    ensures Play(t, es).log.accepted.Some? ==> Stamped(Play(t, es).log.accepted.value)
    decreases |es|
  {
    if es != [] {
      assert es[0] in es;
      AcceptedIsStamped(Watch(t, es[0]), es[1..]);
    }
  }

  /** Over a whole session: never reported is shown exactly while no report was ever recorded as the status. */
  lemma NeverReportedMeansNothingRecorded(deviceId: string, host: string, clock: real, es: seq<Event>)
    requires forall e :: e in es ==> StampsAll(e)
    ensures var t := Play(Start(deviceId, host, clock), es);
      t.core.data.Some? ==> (ShowsNeverReported(t.core.data.value) <==> t.log.accepted.None?)
  {
    StatusIsFaithful(Start(deviceId, host, clock), es);
    AcceptedIsStamped(Start(deviceId, host, clock), es);
  }

  /**
   * The answer read during setup is adopted but not recorded: if the tablet
   * then goes away, the sensor still says it never reported.
   */
  lemma SetupAnswerIsNotRecorded(deviceId: string, host: string, r: Report)
    ensures var c1 := Next(Initial(deviceId, host, 0.0), StartFetch(0, Setup));
      var c2 := Next(c1, FetchAnswered(0, r));
      var c4 := Next(Next(c2, StartFetch(1, Poll)), FetchFailed(1, None));
      c2.belief.known && c4.data.Some? && ShowsNeverReported(c4.data.value)
  {
    hide Ha.Validate;
  }
}

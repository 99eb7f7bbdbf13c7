/**
 * What every run of the coordinator keeps, for any interleaving of its
 * sections and any reports whatsoever, genuine, stale or foreign.
 */
module CoordinatorRuns {
  import opened Wrappers
  import opened PolicyDocument
  import opened Coordinator
  import F = CoordinatorFields
  import Ha = HaValidator

  /** What an observer outside the coordinator writes down. */
  datatype Log = Log(
    launches: seq<real>,          // clock at each drift re-push
    probes: seq<real>,            // clock at each relocation probe
    acked: seq<int>,              // versions of acknowledged pushes
    bases: set<Doc>,              // desired policies held while the policy was known
    fulls: set<Doc>,              // documents handed to the apply_policy action
    accepted: Option<Report>,     // last report recorded as the tablet's status
    heard: bool,                  // the last event that set the status brought a report
    lastSend: Option<SendOutcome>,
    reportedSince: bool)          // a report arrived since that send finished

  datatype Trace = Trace(core: Core, log: Log)

  function Observe(before: Core, e: Event, after: Core, log: Log): Log {
    Log(
      if after.repair.launched > before.repair.launched then log.launches + [after.clock] else log.launches,
      if e.FetchFailed? && AwaitsProbe(after, e.id) && !AwaitsProbe(before, e.id)
        then log.probes + [after.clock] else log.probes,
      if e.PushAcked? && before.lock.holder.Some? then log.acked + [before.lock.holder.value.version] else log.acked,
      if after.belief.known then log.bases + {after.belief.desired} else log.bases,
      if e.ApplyAction? then log.fulls + {e.doc} else log.fulls,
      if F.Heard(before, e).Some? then F.Heard(before, e) else log.accepted,
      F.Heard(before, e).Some? || (!F.Unheard(before, e) && log.heard),
      if e.SendFinished? && before.hook.sends > 0 then Some(e.outcome) else log.lastSend,
      if e.SendFinished? && before.hook.sends > 0 then false
        else log.reportedSince || F.ReportsHere(before, e))
  }

  function Watch(t: Trace, e: Event): Trace {
    var after := Next(t.core, e);
    Trace(after, Observe(t.core, e, after, t.log))
  }

  function Play(t: Trace, es: seq<Event>): Trace
    decreases |es|
  {
    if es == [] then t else Play(Watch(t, es[0]), es[1..])
  }

  function Start(deviceId: string, host: string, clock: real): Trace {
    Trace(Initial(deviceId, host, clock), Log([], [], [], {}, {}, None, false, None, false))
  }

  // ----- safe normal form ---------------------------------------------------------------

  ghost predicate NormalLock(l: Lock) {
    && (forall d :: d in l.waiting ==> Ha.IsNormal(d))
    && (l.holder.Some? ==> Ha.IsNormal(l.holder.value.doc))
  }

  /** Every document held or on its way is its own normal form. */
  ghost predicate AllNormal(c: Core) { Ha.IsNormal(c.belief.desired) && NormalLock(c.lock) }

  lemma AdoptIsNormal(b: Belief, r: Report)
    ensures Ha.IsNormal(Adopt(b, r).desired)
  {
    Ha.DefaultIsNormal();
    if Ha.Validate(r.policy).Ok? {
      Ha.ValidateIsIdempotent(r.policy);
    }
  }

  lemma SubmitKeepsNormal(l: Lock, doc: Doc)
    requires NormalLock(l)
    ensures NormalLock(Submit(l, doc))
  {
    if Ha.Validate(doc).Ok? {
      Ha.ValidateIsIdempotent(doc);
    }
  }

  lemma ResumeKeepsNormal(c: Core, purpose: Purpose, s: Status)
    requires AllNormal(c)
    ensures AllNormal(Resume(c, purpose, s))
  {
    hide Ha.Validate;
    AdoptIsNormal(c.belief, s.report);
    match purpose
    case Poll =>
    case Setup =>
    case EnsureKnown(change) =>
      SubmitKeepsNormal(c.lock, Merge(Adopt(c.belief, s.report).desired, change));
  }

  lemma FinishKeepsNormal(c: Core, id: nat, s: Status)
    requires AllNormal(c) && id in c.fetches
    ensures AllNormal(Finish(c, id, s))
  {
    ResumeKeepsNormal(c, c.fetches[id].purpose, s);
  }

  lemma NextKeepsNormal(c: Core, e: Event)
    requires AllNormal(c)
    ensures AllNormal(Next(c, e))
  {
    hide Ha.Validate;
    match e
    case FetchAnswered(id, r) =>
      if AwaitsAnswer(c, id) { FinishKeepsNormal(c, id, Status(r, true)); }
    case FetchFailed(id, ip) =>
      if AwaitsAnswer(c, id) { FinishKeepsNormal(c, id, LastKnown(c)); }
    case ProbeFailed(id) =>
      if AwaitsProbe(c, id) { FinishKeepsNormal(c, id, LastKnown(c)); }
    case ProbeAnswered(id, r) =>
      if AwaitsProbe(c, id) {
        FinishKeepsNormal(c, id, LastKnown(c));
        var ip := c.fetches[id].probing.value;
        FinishKeepsNormal(c.(hosts := Hosts(ip, ip)), id, Status(r, true));
      }
    case Write(id, change) => SubmitKeepsNormal(c.lock, Merge(c.belief.desired, change));
    case ApplyAction(doc) => SubmitKeepsNormal(c.lock, doc);
    case RunReconcile => SubmitKeepsNormal(c.lock, c.belief.desired);
    case Reported(r) => AdoptIsNormal(c.belief.(version := Max(c.belief.version, r.version)), r);
    case _ =>
  }

  // ----- the placeholder never becomes a base ----------------------------------------------

  ghost predicate OneKeyUpdateOf(base: Doc, change: Change, d: Doc) { Ha.Validate(Merge(base, change)) == Ok(d) }

  /** Where a pushed document may come from. */
  ghost predicate Licensed(log: Log, d: Doc) {
    || d in log.bases
    || (exists full :: full in log.fulls && Ha.Validate(full) == Ok(d))
    || (exists base, change :: base in log.bases && OneKeyUpdateOf(base, change, d))
  }

  ghost predicate LicensedLock(log: Log, l: Lock) {
    && (forall d :: d in l.waiting ==> Licensed(log, d))
    && (l.holder.Some? ==> Licensed(log, l.holder.value.doc))
  }

  ghost predicate AllLicensed(t: Trace) {
    && (t.core.belief.known ==> t.core.belief.desired in t.log.bases)
    && (!t.core.belief.known ==> t.log.bases == {} && t.core.repair.launched == 0)
    && LicensedLock(t.log, t.core.lock)
  }

  lemma LicenceLasts(log: Log, later: Log, l: Lock)
    requires LicensedLock(log, l) && log.bases <= later.bases && log.fulls <= later.fulls
    ensures LicensedLock(later, l)
  {
  }

  lemma SubmitLicensed(log: Log, l: Lock, doc: Doc)
    requires LicensedLock(log, l)
    requires Ha.Validate(doc).Ok? ==> Licensed(log, Ha.Validate(doc).value)
    ensures LicensedLock(log, Submit(l, doc))
  {
  }

  lemma MergeLicensed(log: Log, l: Lock, base: Doc, change: Change)
    requires LicensedLock(log, l) && base in log.bases
    ensures LicensedLock(log, Submit(l, Merge(base, change)))
  {
    var merged := Merge(base, change);
    if Ha.Validate(merged).Ok? {
      assert OneKeyUpdateOf(base, change, Ha.Validate(merged).value);
    }
    SubmitLicensed(log, l, merged);
  }

  /** Every section that can queue a document queues a licensed one. */
  lemma QueueIsLicensed(t: Trace, e: Event)
    requires Ha.IsNormal(t.core.belief.desired) && AllLicensed(t)
    ensures LicensedLock(Watch(t, e).log, Next(t.core, e).lock)
  {
    hide Ha.Validate;
    var c, after, log := t.core, Next(t.core, e), Watch(t, e).log;
    LicenceLasts(t.log, log, c.lock);
    match e
    case Write(id, change) =>
      if c.belief.known { MergeLicensed(log, c.lock, c.belief.desired, change); }
    case ApplyAction(doc) => SubmitLicensed(log, c.lock, doc);
    case RunReconcile =>
      if c.repair.launched > 0 { SubmitLicensed(log, c.lock, c.belief.desired); }
    case FetchAnswered(id, r) =>
      if AwaitsAnswer(c, id) { FinishLicensed(c, id, Status(r, true), log); }
    case FetchFailed(id, ip) =>
      if AwaitsAnswer(c, id) { FinishLicensed(c, id, LastKnown(c), log); }
    case ProbeFailed(id) =>
      if AwaitsProbe(c, id) { FinishLicensed(c, id, LastKnown(c), log); }
    case ProbeAnswered(id, r) =>
      if AwaitsProbe(c, id) {
        if r.deviceId != c.deviceId {
          FinishLicensed(c, id, LastKnown(c), log);
        } else {
          var ip := c.fetches[id].probing.value;
          FinishLicensed(c.(hosts := Hosts(ip, ip)), id, Status(r, true), log);
        }
      }
    case _ =>
  }

  lemma FinishLicensed(c: Core, id: nat, s: Status, log: Log)
    requires id in c.fetches && LicensedLock(log, c.lock)
    requires Finish(c, id, s).belief.known ==> Finish(c, id, s).belief.desired in log.bases
    ensures LicensedLock(log, Finish(c, id, s).lock)
  {
    var purpose := c.fetches[id].purpose;
    if purpose.EnsureKnown? && s.reachable {
      MergeLicensed(log, c.lock, Adopt(c.belief, s.report).desired, purpose.change);
    }
  }

  lemma KnownIsForever(c: Core, e: Event)
    ensures c.belief.known ==> Next(c, e).belief.known
    ensures c.repair.launched == 0 && !Next(c, e).belief.known ==> Next(c, e).repair.launched == 0
  {
  }

  lemma WatchKeepsLicences(t: Trace, e: Event)
    requires Ha.IsNormal(t.core.belief.desired) && AllLicensed(t)
    ensures AllLicensed(Watch(t, e))
  {
    QueueIsLicensed(t, e);
    KnownIsForever(t.core, e);
  }

  /** The two document invariants along every run. */
  lemma {:induction false} RunsPushOnlyLicensedNormalDocuments(t: Trace, es: seq<Event>)
    requires AllNormal(t.core) && AllLicensed(t)
    ensures AllNormal(Play(t, es).core) && AllLicensed(Play(t, es))
    decreases |es|
  {
    if es != [] {
      NextKeepsNormal(t.core, es[0]);
      WatchKeepsLicences(t, es[0]);
      RunsPushOnlyLicensedNormalDocuments(Watch(t, es[0]), es[1..]);
    }
  }

  /**
   * Until the tablet has answered once, the only documents that can be pushed
   * are ones the operator supplied in full: never the placeholder, never a
   * change merged into it.
   */
  lemma PlaceholderIsNeverPushed(deviceId: string, host: string, clock: real, es: seq<Event>)
    ensures var t := Play(Start(deviceId, host, clock), es);
      && AllNormal(t.core) && AllLicensed(t)
      && (!t.core.belief.known ==>
            forall d :: d in t.core.lock.waiting || (t.core.lock.holder.Some? && d == t.core.lock.holder.value.doc) ==>
            exists full :: full in t.log.fulls && Ha.Validate(full) == Ok(d))
  {
    Ha.DefaultIsNormal();
    RunsPushOnlyLicensedNormalDocuments(Start(deviceId, host, clock), es);
  }

  /** Whatever is pushed is safe: a kiosk has a target, an allowlist something to open, the DPC is in no list. */
  lemma PushedPolicyIsSafe(deviceId: string, host: string, clock: real, es: seq<Event>)
    ensures var c := Play(Start(deviceId, host, clock), es).core;
      && Safe(Ha.Meaning(c.belief.desired))
      && (c.lock.holder.Some? ==> Safe(Ha.Meaning(c.lock.holder.value.doc)))
  {
    PlaceholderIsNeverPushed(deviceId, host, clock, es);
    var c := Play(Start(deviceId, host, clock), es).core;
    Ha.NormalIsSafe(c.belief.desired);
    if c.lock.holder.Some? {
      Ha.NormalIsSafe(c.lock.holder.value.doc);
    }
  }

  // ----- versions -----------------------------------------------------------------------------

  predicate Increasing(vs: seq<int>) { forall i, j :: 0 <= i < j < |vs| ==> vs[i] < vs[j] }

  /** Acknowledged versions increase, and both the counter and the push in flight are beyond them. */
  predicate VersionsAhead(t: Trace) {
    && Increasing(t.log.acked)
    && (t.log.acked != [] ==>
          var last := t.log.acked[|t.log.acked| - 1];
          && last <= t.core.belief.version
          && (t.core.lock.holder.Some? ==> last < t.core.lock.holder.value.version))
  }

  lemma VersionSteps(c: Core, e: Event)
    ensures var d := Next(c, e);
      && (!e.PushAcked? ==> c.belief.version <= d.belief.version)
      && (e.PushAcked? && c.lock.holder.Some? ==> c.lock.holder.value.version <= d.belief.version && d.lock.holder.None?)
      && (d.lock.holder.Some? ==> d.lock.holder == c.lock.holder || d.lock.holder.value.version == c.belief.version + 1)
      && (e.PushAcked? && c.lock.holder.None? ==> d == c)
  {
    hide Ha.Validate;
  }

  lemma {:induction false} AckedVersionsIncrease(t: Trace, es: seq<Event>)
    requires VersionsAhead(t)
    ensures VersionsAhead(Play(t, es))
    decreases |es|
  {
    if es != [] {
      VersionSteps(t.core, es[0]);
      AckedVersionsIncrease(Watch(t, es[0]), es[1..]);
    }
  }

  /**
   * The counter itself goes down in exactly one way: an acknowledgement
   * overwrites a higher version that a report brought in while the push was
   * waiting, and its own answer is older too.
   */
  lemma VersionFallsIff(c: Core, e: Event)
    ensures Next(c, e).belief.version < c.belief.version <==>
      && e.PushAcked? && c.lock.holder.Some?
      && c.lock.holder.value.version < c.belief.version && e.report.version < c.belief.version
  {
    hide Ha.Validate;
    VersionSteps(c, e);
  }

  /** The acknowledgement that lowers the counter. */
  predicate Falls(c: Core, e: Event) {
    && e.PushAcked? && c.lock.holder.Some?
    && c.lock.holder.value.version < c.belief.version && e.report.version < c.belief.version
  }

  predicate NeverFalls(c: Core, es: seq<Event>)
    decreases |es|
  {
    es != [] ==> !Falls(c, es[0]) && NeverFalls(Next(c, es[0]), es[1..])
  }

  /** Every report adopted or received by webhook along the run has at most this version. */
  predicate ReportsUpTo(c: Core, es: seq<Event>, version: int)
    decreases |es|
  {
    es != [] ==>
      && (F.Adopted(c, es[0]).Some? ==> F.Adopted(c, es[0]).value.version <= version)
      && (F.ReportsHere(c, es[0]) ==> es[0].report.version <= version)
      && ReportsUpTo(Next(c, es[0]), es[1..], version)
  }

  /** The counter takes in every report adopted or received, and otherwise falls only as said. */
  lemma {:induction false} CounterCoversReports(c: Core, es: seq<Event>)
    requires NeverFalls(c, es)
    ensures c.belief.version <= Run(c, es).belief.version && ReportsUpTo(c, es, Run(c, es).belief.version)
    decreases |es|
  {
    if es != [] {
      CounterStep(c, es[0]);
      hide Next, F.Adopted, F.ReportsHere;
      CounterCoversReports(Next(c, es[0]), es[1..]);
    }
  }

  lemma CounterStep(c: Core, e: Event)
    requires !Falls(c, e)
    ensures c.belief.version <= Next(c, e).belief.version
    ensures F.Adopted(c, e).Some? ==> F.Adopted(c, e).value.version <= Next(c, e).belief.version
    ensures F.ReportsHere(c, e) ==> e.report.version <= Next(c, e).belief.version
  {
    F.NextIsByField(c, e);
    hide Next, F.LockAfter, F.RepairAfter, F.HookAfter, F.DataAfter, F.HostsAfter, F.FetchesAfter, Ha.Validate;
  }

  /**
   * So a push is numbered above every report adopted or received by webhook in
   * the session so far, unless an acknowledgement lowered the counter in between.
   */
  lemma PushIsNumberedAbove(c: Core, es: seq<Event>)
    requires NeverFalls(c, es) && Run(c, es).lock.holder.None? && Run(c, es).lock.waiting != []
    ensures var after := Next(Run(c, es), TakeLock);
      after.lock.holder.Some? && ReportsUpTo(c, es, after.lock.holder.value.version - 1)
  {
    CounterCoversReports(c, es);
  }

  // ----- rates ------------------------------------------------------------------------------------

  predicate Spaced(ts: seq<real>, gap: real) {
    forall i :: 0 <= i < |ts| - 1 ==> ts[i + 1] - ts[i] >= gap
  }

  predicate LastIs(ts: seq<real>, last: Option<real>) {
    last == if ts == [] then None else Some(ts[|ts| - 1])
  }

  predicate RatesKept(t: Trace) {
    && Spaced(t.log.launches, RECONCILE_MIN_INTERVAL) && LastIs(t.log.launches, t.core.repair.last)
    && Spaced(t.log.probes, RELOCATE_MIN_INTERVAL) && LastIs(t.log.probes, t.core.lastRelocate)
  }

  /** The limiter of each kind moves exactly when one is launched, and only after its interval. */
  lemma LimiterSteps(c: Core, e: Event)
    ensures var d := Next(c, e);
      && d.repair.launched <= c.repair.launched + 1
      && (if d.repair.launched > c.repair.launched
          then Elapsed(c.repair.last, d.clock, RECONCILE_MIN_INTERVAL) && d.repair.last == Some(d.clock)
          else d.repair.last == c.repair.last)
      && (if e.FetchFailed? && AwaitsProbe(d, e.id) && !AwaitsProbe(c, e.id)
          then Elapsed(c.lastRelocate, d.clock, RELOCATE_MIN_INTERVAL) && d.lastRelocate == Some(d.clock)
          else d.lastRelocate == c.lastRelocate)
  {
    hide Ha.Validate;
  }

  lemma {:induction false} RatesAreKept(t: Trace, es: seq<Event>)
    requires RatesKept(t)
    ensures RatesKept(Play(t, es))
    decreases |es|
  {
    if es != [] {
      LimiterSteps(t.core, es[0]);
      RatesAreKept(Watch(t, es[0]), es[1..]);
    }
  }

  /** How many of the instants fall into a closed interval. */
  function CountIn(ts: seq<real>, from: real, to: real): nat {
    if ts == [] then 0 else (if from <= ts[0] <= to then 1 else 0) + CountIn(ts[1..], from, to)
  }

  /** n instants a gap apart need n - 1 gaps of room. */
  lemma {:induction false} SpacedNeedsRoom(ts: seq<real>, gap: real, from: real, to: real)
    requires Spaced(ts, gap) && gap > 0.0
    ensures CountIn(ts, from, to) > 0 ==>
      (CountIn(ts, from, to) - 1) as real * gap <= to - if ts[0] > from then ts[0] else from
  {
    if ts != [] {
      var rest := ts[1..];
      assert Spaced(rest, gap) by {
        forall i | 0 <= i < |rest| - 1 ensures rest[i + 1] - rest[i] >= gap {
          assert rest[i + 1] == ts[i + 2] && rest[i] == ts[i + 1];
        }
      }
      SpacedNeedsRoom(rest, gap, from, to);
      var n := CountIn(rest, from, to);
      if n > 0 {
        assert ts[1] - ts[0] >= gap;
        assert n as real * gap == (n - 1) as real * gap + gap;
      }
    }
  }

  lemma SpacedBound(ts: seq<real>, gap: real, from: real, length: real)
    requires Spaced(ts, gap) && gap > 0.0 && length >= 0.0
    ensures CountIn(ts, from, from + length) <= (length / gap).Floor + 1
  {
    SpacedNeedsRoom(ts, gap, from, from + length);
    var n := CountIn(ts, from, from + length);
    if n > 0 {
      var room := (n - 1) as real;
      assert room * gap <= length;
      assert room <= length / gap;
    }
  }

  lemma BoundsFromSpacing(log: Log, from: real, length: real)
    requires length >= 0.0
    requires Spaced(log.launches, RECONCILE_MIN_INTERVAL) && Spaced(log.probes, RELOCATE_MIN_INTERVAL)
    ensures CountIn(log.launches, from, from + length) <= (length / 30.0).Floor + 1
    ensures CountIn(log.probes, from, from + length) <= (length / 60.0).Floor + 1
  {
    SpacedBound(log.launches, RECONCILE_MIN_INTERVAL, from, length);
    SpacedBound(log.probes, RELOCATE_MIN_INTERVAL, from, length);
  }

  /** In any window of a run: at most one drift re-push per 30 s and one probe per 60 s, plus one each. */
  lemma RateBounds(deviceId: string, host: string, clock: real, es: seq<Event>, from: real, length: real)
    requires length >= 0.0
    ensures var log := Play(Start(deviceId, host, clock), es).log;
      && CountIn(log.launches, from, from + length) <= (length / 30.0).Floor + 1
      && CountIn(log.probes, from, from + length) <= (length / 60.0).Floor + 1
  {
    RatesAreKept(Start(deviceId, host, clock), es);
    BoundsFromSpacing(Play(Start(deviceId, host, clock), es).log, from, length);
  }

  // ----- the webhook address ------------------------------------------------------------------------

  predicate UrlRemembered(t: Trace) {
    && (t.log.lastSend == Some(Undelivered) && !t.log.reportedSince ==> t.core.hook.pending || t.core.hook.sends > 0)
    && (t.log.lastSend == Some(BadToken) ==> t.core.hook.reauth)
    && (t.core.hook.pending || t.core.hook.sends > 0 || t.log.lastSend.Some? ==> t.core.hook.url.Some?)
  }

  lemma WebhookSteps(t: Trace, e: Event)
    requires UrlRemembered(t)
    ensures UrlRemembered(Watch(t, e))
  {
    hide Ha.Validate;
  }

  /** An undelivered address is pending or being sent, until a report proves the tablet has one. */
  lemma {:induction false} UndeliveredUrlIsKept(t: Trace, es: seq<Event>)
    requires UrlRemembered(t)
    ensures UrlRemembered(Play(t, es))
    decreases |es|
  {
    if es != [] {
      WebhookSteps(t, es[0]);
      UndeliveredUrlIsKept(Watch(t, es[0]), es[1..]);
    }
  }

  /** The last send failed, nothing has been heard since, and nothing will send the address again. */
  predicate UrlForgotten(t: Trace) {
    && (t.log.lastSend == Some(Undelivered) || t.log.lastSend == Some(Garbled)) && !t.log.reportedSince
    && !t.core.hook.pending && t.core.hook.sends == 0 && !t.core.hook.reauth
  }

  /** The only send under way is answered with something that is not JSON, and nothing else is due. */
  predicate LosesUrl(c: Core, e: Event) {
    e == SendFinished(Garbled) && c.hook.sends == 1 && !c.hook.pending && !c.hook.reauth
  }

  lemma ForgettingStep(t: Trace, e: Event)
    requires UrlRemembered(t) && !UrlForgotten(t)
    ensures UrlForgotten(Watch(t, e)) <==> LosesUrl(t.core, e)
  {
    hide Ha.Validate;
  }

  predicate NeverForgotten(t: Trace, es: seq<Event>)
    decreases |es|
  {
    !UrlForgotten(t) && (es != [] ==> NeverForgotten(Watch(t, es[0]), es[1..]))
  }

  predicate NeverLoses(t: Trace, es: seq<Event>)
    decreases |es|
  {
    es != [] ==> !LosesUrl(t.core, es[0]) && NeverLoses(Watch(t, es[0]), es[1..])
  }

  /** Over every run: the address is forgotten at no moment exactly when no garbled answer ends the only send. */
  lemma {:induction false} UrlIsNeverForgottenIff(t: Trace, es: seq<Event>)
    requires UrlRemembered(t) && !UrlForgotten(t)
    ensures NeverForgotten(t, es) <==> NeverLoses(t, es)
    decreases |es|
  {
    hide UrlRemembered, UrlForgotten, LosesUrl, Watch;
    if es != [] {
      WebhookSteps(t, es[0]);
      ForgettingStep(t, es[0]);
      if !UrlForgotten(Watch(t, es[0])) {
        UrlIsNeverForgottenIff(Watch(t, es[0]), es[1..]);
      }
    }
  }

  /** The event ends a poll with a report from the tablet, at its known address or at a new one. */
  predicate AnswersPoll(c: Core, e: Event) {
    || (e.FetchAnswered? && AwaitsAnswer(c, e.id) && c.fetches[e.id].purpose.Poll?)
    || (e.ProbeAnswered? && AwaitsProbe(c, e.id) && c.fetches[e.id].purpose.Poll? && e.report.deviceId == c.deviceId)
  }

  /**
   * When an address leaves again: an answered poll launches a send exactly
   * when one is pending or the tablet is back, and no event but setup's own
   * send launches one otherwise.
   */
  lemma ResendsIff(c: Core, e: Event)
    ensures Next(c, e).hook.sends > c.hook.sends <==>
      e.SendWebhook? || (AnswersPoll(c, e) && c.hook.url.Some? && (c.hook.pending || CameBack(c)))
    ensures AnswersPoll(c, e) && c.hook.url.Some? ==> !Next(c, e).hook.pending
  {
    hide Ha.Validate, Adopt, Submit, Merge, ReconcileIfDrifted;
  }

  /** So a forgotten address comes back exactly with a returning tablet, a report, another setup or a new token. */
  lemma ForgottenUntil(t: Trace, e: Event)
    requires UrlRemembered(t) && UrlForgotten(t)
    ensures !UrlForgotten(Watch(t, e)) <==>
      || e.SendWebhook?
      || (e.Reported? && e.report.deviceId == t.core.deviceId)
      || (AnswersPoll(t.core, e) && CameBack(t.core))
      || (e.FetchRejected? && AwaitsAnswer(t.core, e.id) && !t.core.fetches[e.id].purpose.EnsureKnown?)
  {
    hide Ha.Validate;
  }

  // ----- status and host -----------------------------------------------------------------------------

  /**
   * The current status is the last recorded report, or the never-reported
   * placeholder, and is reachable exactly when the last event that set it brought a report.
   */
  predicate Faithful(t: Trace) {
    && t.core.hosts.client == t.core.hosts.stored
    && (t.core.data.None? ==> t.log.accepted.None?)
    && (t.core.data.Some? ==>
          match t.log.accepted {
            case Some(r) => t.core.data.value.report == r
            case None => t.core.data.value == Offline(t.core.deviceId)
          })
    && (t.core.data.Some? ==> t.core.data.value.reachable == t.log.heard)
  }

  lemma FaithfulSteps(t: Trace, e: Event)
    requires Faithful(t)
    ensures Faithful(Watch(t, e))
  {
    F.NextIsByField(t.core, e);
    hide Next, F.LockAfter, F.RepairAfter, F.HookAfter, F.DesiredAfter, F.VersionAfter, F.FetchesAfter, Ha.Validate;
  }

  lemma {:induction false} StatusIsFaithful(t: Trace, es: seq<Event>)
    requires Faithful(t)
    ensures Faithful(Play(t, es))
    decreases |es|
  {
    if es != [] {
      FaithfulSteps(t, es[0]);
      StatusIsFaithful(Watch(t, es[0]), es[1..]);
    }
  }

  /** The host changes only to an address that accepted the token and answered as this tablet. */
  lemma HostFollowsOnlyThisTablet(c: Core, e: Event)
    requires Next(c, e).hosts.client != c.hosts.client
    ensures e.ProbeAnswered? && AwaitsProbe(c, e.id) && e.report.deviceId == c.deviceId
    ensures c.fetches[e.id].probing == Some(Next(c, e).hosts.client)
  {
  }

  // ----- all of the above ------------------------------------------------------------------------------

  ghost predicate Sound(t: Trace) {
    AllNormal(t.core) && AllLicensed(t) && VersionsAhead(t) && RatesKept(t) && UrlRemembered(t) && Faithful(t)
  }

  /** All of the above together, along every run. */
  lemma SoundAlong(t: Trace, es: seq<Event>)
    requires Sound(t)
    ensures Sound(Play(t, es))
  {
    hide AllNormal, AllLicensed, VersionsAhead, RatesKept, UrlRemembered, Faithful, Play;
    RunsPushOnlyLicensedNormalDocuments(t, es);
    AckedVersionsIncrease(t, es);
    RatesAreKept(t, es);
    UndeliveredUrlIsKept(t, es);
    StatusIsFaithful(t, es);
  }

  lemma StartIsSound(deviceId: string, host: string, clock: real)
    ensures Sound(Start(deviceId, host, clock))
  {
    Ha.DefaultIsNormal();
  }

  /** For every session, from its first moment. */
  lemma EverySession(deviceId: string, host: string, clock: real, es: seq<Event>)
    ensures Sound(Play(Start(deviceId, host, clock), es))
  {
    StartIsSound(deviceId, host, clock);
    SoundAlong(Start(deviceId, host, clock), es);
  }

  lemma SoundStep(t: Trace, e: Event)
    requires Sound(t)
    ensures Sound(Watch(t, e))
  {
    assert [e][1..] == [] && Play(Watch(t, e), []) == Watch(t, e);
    SoundAlong(t, [e]);
  }

  lemma {:induction false} PlayMore(t: Trace, es: seq<Event>, i: nat)
    requires i < |es|
    ensures Play(t, es[..i + 1]) == Watch(Play(t, es[..i]), es[i])
    decreases i
  {
    hide Watch;
    if i == 0 {
      assert es[..1][1..] == [] && es[..0] == [];
    } else {
      PlayMore(Watch(t, es[0]), es[1..], i - 1);
      assert es[..i + 1][1..] == es[1..][..i] && es[..i][1..] == es[1..][..i - 1];
    }
  }
}

/**
 * The coordinator field by field: for every event, what each field holds
 * afterwards and under which condition it changes, each written out on its
 * own. The transition system is proved to be exactly this.
 */
module CoordinatorFields {
  import opened Wrappers
  import opened PolicyDocument
  import opened Coordinator
  import Ha = HaValidator

  /** A session begins with the placeholder policy, nothing known, heard, queued, sent or scheduled. */
  lemma SessionBeginsEmpty(deviceId: string, host: string, clock: real)
    ensures var c := Initial(deviceId, host, clock);
      && !c.belief.known && c.belief.version == 0 && c.belief.desired == Ha.DefaultPolicy() && c.data == None
      && c.lock.holder == None && c.lock.waiting == [] && c.repair.launched == 0 && c.repair.last == None
      && c.hook.url == None && !c.hook.pending && c.hook.sends == 0 && !c.hook.reauth
      && c.lastRelocate == None && c.fetches == map[] && c.hosts.client == c.hosts.stored == host
      && c.deviceId == deviceId && c.clock == clock
  {
  }

  // ----- what happened ------------------------------------------------------------------------

  /** The report that ends fetch e.id, if one does: from the known host, or from a new address that is this tablet. */
  function Answer(c: Core, e: Event): Option<Report> {
    match e
    case FetchAnswered(id, r) => if id in c.fetches && c.fetches[id].probing == None then Some(r) else None
    case ProbeAnswered(id, r) =>
      if id in c.fetches && c.fetches[id].probing != None && r.deviceId == c.deviceId then Some(r) else None
    case _ => None
  }

  /** The host failed and another address is known and may be probed now. */
  predicate StartsProbe(c: Core, e: Event) {
    && e.FetchFailed? && e.id in c.fetches && c.fetches[e.id].probing == None
    && e.ip.Some? && e.ip.value != c.hosts.client
    && (c.lastRelocate == None || c.clock - c.lastRelocate.value >= 60.0)
  }

  /** A fetch ends with no usable answer: no probe to start, a probe that failed, or another device at the address. */
  predicate EndsUnanswered(c: Core, e: Event) {
    match e
    case FetchFailed(id, _) => id in c.fetches && c.fetches[id].probing == None && !StartsProbe(c, e)
    case ProbeFailed(id) => id in c.fetches && c.fetches[id].probing != None
    case ProbeAnswered(id, r) => id in c.fetches && c.fetches[id].probing != None && r.deviceId != c.deviceId
    case _ => false
  }

  predicate EndsRejected(c: Core, e: Event) {
    e.FetchRejected? && e.id in c.fetches && c.fetches[e.id].probing == None
  }

  function PurposeOf(c: Core, e: Event): Purpose
    requires Answer(c, e).Some? || EndsUnanswered(c, e) || EndsRejected(c, e)
  {
    c.fetches[e.id].purpose
  }

  /** A webhook report for this tablet. */
  predicate ReportsHere(c: Core, e: Event) { e.Reported? && e.report.deviceId == c.deviceId }

  predicate PollAnswered(c: Core, e: Event) { Answer(c, e).Some? && PurposeOf(c, e).Poll? }

  predicate Acks(c: Core, e: Event) { e.PushAcked? && c.lock.holder.Some? }

  /** The report a poll or the webhook brings. */
  function News(c: Core, e: Event): Option<Report> {
    if ReportsHere(c, e) then Some(e.report) else if PollAnswered(c, e) then Answer(c, e) else None
  }

  /** A report is adopted: any while the policy is unknown, and whatever setup or a waiting write fetched. */
  function Adopted(c: Core, e: Event): Option<Report> {
    if Answer(c, e).Some? && !PurposeOf(c, e).Poll? then Answer(c, e)
    else if !c.belief.known then News(c, e) else None
  }

  // ----- each field afterwards ------------------------------------------------------------------

  function DesiredBy(r: Report): Doc {
    if Ha.Validate(r.policy).Ok? then Ha.Validate(r.policy).value else Ha.DefaultPolicy()
  }

  function DesiredAfter(c: Core, e: Event): Doc {
    if Adopted(c, e).Some? then DesiredBy(Adopted(c, e).value)
    else if Acks(c, e) then c.lock.holder.value.doc
    else c.belief.desired
  }

  function Larger(a: int, b: int): int { if a >= b then a else b }

  function VersionAfter(c: Core, e: Event): int {
    if Acks(c, e) then Larger(c.lock.holder.value.version, e.report.version)
    else if ReportsHere(c, e) then Larger(c.belief.version, e.report.version)
    else if Adopted(c, e).Some? then Larger(c.belief.version, Adopted(c, e).value.version)
    else c.belief.version
  }

  /** The document a section asks to push, before validation. */
  function Requested(c: Core, e: Event): Option<Doc> {
    match e
    case Write(_, change) => if c.belief.known then Some(Merge(c.belief.desired, change)) else None
    case ApplyAction(doc) => Some(doc)
    case RunReconcile => if c.repair.launched > 0 then Some(c.belief.desired) else None
    case _ =>
      if Answer(c, e).Some? && PurposeOf(c, e).EnsureKnown?
      then Some(Merge(DesiredBy(Answer(c, e).value), PurposeOf(c, e).change)) else None
  }

  function LockAfter(c: Core, e: Event): Lock {
    if Requested(c, e).Some? && Ha.Validate(Requested(c, e).value).Ok?
    then c.lock.(waiting := c.lock.waiting + [Ha.Validate(Requested(c, e).value).value])
    else if e.PushAcked? || e.PushFailed? then c.lock.(holder := None)
    else if e.TakeLock? && c.lock.holder == None && c.lock.waiting != []
    then Lock(Some(Push(c.lock.nextPush, c.lock.waiting[0], c.belief.version + 1)), c.lock.waiting[1..], c.lock.nextPush + 1)
    else c.lock
  }

  /** News that disagrees, on a session that knows its policy and has a status, with the lock free, 30 s after the last. */
  predicate Relaunches(c: Core, e: Event) {
    && News(c, e).Some? && c.belief.known && c.data.Some? && c.lock.holder == None
    && Ha.Validate(News(c, e).value.policy).Ok? && Ha.Validate(News(c, e).value.policy).value != c.belief.desired
    && (c.repair.last == None || c.clock - c.repair.last.value >= 30.0)
  }

  function RepairAfter(c: Core, e: Event): Repair {
    if Relaunches(c, e) then Repair(c.repair.launched + 1, Some(c.clock))
    else if e.RunReconcile? && c.repair.launched > 0 then Repair(c.repair.launched - 1, c.repair.last)
    else c.repair
  }

  /** An answered poll finds the address undelivered, or the tablet back. */
  predicate Resends(c: Core, e: Event) {
    PollAnswered(c, e) && c.hook.url.Some? && (c.hook.pending || (c.data.Some? && !c.data.value.reachable))
  }

  predicate SendEnds(c: Core, e: Event, outcome: SendOutcome) { e == SendFinished(outcome) && c.hook.sends > 0 }

  function HookAfter(c: Core, e: Event): Hook {
    Hook(
      if e.SendWebhook? then Some(e.url) else c.hook.url,
      if Resends(c, e) || ReportsHere(c, e) || SendEnds(c, e, Delivered) then false
        else if SendEnds(c, e, Undelivered) then true else c.hook.pending,
      if Resends(c, e) || e.SendWebhook? then c.hook.sends + 1
        else if e.SendFinished? && c.hook.sends > 0 then c.hook.sends - 1 else c.hook.sends,
      c.hook.reauth || SendEnds(c, e, BadToken) || (EndsRejected(c, e) && !PurposeOf(c, e).EnsureKnown?))
  }

  /** The report that becomes the status. */
  function Heard(c: Core, e: Event): Option<Report> {
    if Acks(c, e) || ReportsHere(c, e) then Some(e.report)
    else if Answer(c, e).Some? && !PurposeOf(c, e).Setup? then Answer(c, e) else None
  }

  /** A poll ends with no usable answer. */
  predicate Unheard(c: Core, e: Event) { EndsUnanswered(c, e) && PurposeOf(c, e).Poll? }

  function DataAfter(c: Core, e: Event): Option<Status> {
    if Heard(c, e).Some? then Some(Status(Heard(c, e).value, true))
    else if !Unheard(c, e) then c.data
    else if c.data.Some? then Some(Status(c.data.value.report, false))
    else Some(Status(Report(c.deviceId, 0, map[], None, false, map[], {}), false))
  }

  function HostsAfter(c: Core, e: Event): Hosts {
    if e.ProbeAnswered? && Answer(c, e).Some?
    then Hosts(c.fetches[e.id].probing.value, c.fetches[e.id].probing.value) else c.hosts
  }

  function FetchesAfter(c: Core, e: Event): map<nat, Fetch> {
    if Answer(c, e).Some? || EndsUnanswered(c, e) || EndsRejected(c, e) || e.FetchAborted? then c.fetches - {e.id}
    else if StartsProbe(c, e) then c.fetches[e.id := Fetch(c.fetches[e.id].purpose, e.ip)]
    else if e.StartFetch? && e.id !in c.fetches && !e.purpose.EnsureKnown? then c.fetches[e.id := Fetch(e.purpose, None)]
    else if e.Write? && e.id !in c.fetches && !c.belief.known then c.fetches[e.id := Fetch(EnsureKnown(e.change), None)]
    else c.fetches
  }

  function ByField(c: Core, e: Event): Core {
    Core(c.deviceId, HostsAfter(c, e),
      Belief(DesiredAfter(c, e), c.belief.known || Adopted(c, e).Some?, VersionAfter(c, e)),
      LockAfter(c, e), RepairAfter(c, e), HookAfter(c, e), DataAfter(c, e),
      if StartsProbe(c, e) then Some(c.clock) else c.lastRelocate,
      FetchesAfter(c, e),
      if e.Tick? && e.elapsed > 0.0 then c.clock + e.elapsed else c.clock)
  }

  // ----- the transition system is exactly this ----------------------------------------------------

  /** Every ending of a fetch resumes its coroutine with a status. */
  lemma EndingsFinish(c: Core, e: Event)
    ensures Answer(c, e).Some? ==>
      e.id in c.fetches && Next(c, e) == Finish(c.(hosts := HostsAfter(c, e)), e.id, Status(Answer(c, e).value, true))
    ensures EndsUnanswered(c, e) ==> e.id in c.fetches && Next(c, e) == Finish(c, e.id, LastKnown(c))
    ensures StartsProbe(c, e) ==>
      Next(c, e) == c.(lastRelocate := Some(c.clock), fetches := c.fetches[e.id := Fetch(c.fetches[e.id].purpose, e.ip)])
    ensures EndsRejected(c, e) ==> Next(c, e) == Reject(c, e.id)
  {
    hide Finish, LastKnown, Reject;
  }

  /** Fetch events that find no fetch to end change nothing. */
  predicate IsFetchEvent(e: Event) {
    e.FetchAnswered? || e.FetchRejected? || e.FetchFailed? || e.ProbeAnswered? || e.ProbeFailed?
  }

  lemma MissesChangeNothing(c: Core, e: Event)
    requires IsFetchEvent(e)
    requires Answer(c, e).None? && !EndsUnanswered(c, e) && !StartsProbe(c, e) && !EndsRejected(c, e)
    ensures Next(c, e) == c == ByField(c, e)
  {
    hide Finish, LastKnown, Reject;
  }

  lemma PollAnsweredByField(c: Core, e: Event)
    requires PollAnswered(c, e)
    ensures Next(c, e) == ByField(c, e)
  {
    EndingsFinish(c, e);
    hide Next, Ha.Validate;
  }

  lemma OtherAnsweredByField(c: Core, e: Event)
    requires Answer(c, e).Some? && !PurposeOf(c, e).Poll?
    ensures Next(c, e) == ByField(c, e)
  {
    EndingsFinish(c, e);
    hide Next, Ha.Validate, Merge;
  }

  lemma UnansweredByField(c: Core, e: Event)
    requires EndsUnanswered(c, e)
    ensures Next(c, e) == ByField(c, e)
  {
    EndingsFinish(c, e);
    hide Next, Ha.Validate, Merge;
  }

  lemma StillOpenByField(c: Core, e: Event)
    requires StartsProbe(c, e) || EndsRejected(c, e)
    ensures Next(c, e) == ByField(c, e)
  {
    EndingsFinish(c, e);
    hide Next, Ha.Validate, Merge;
  }

  lemma ReportedByField(c: Core, r: Report)
    ensures Next(c, Reported(r)) == ByField(c, Reported(r))
  {
    hide Ha.Validate;
  }

  lemma RequestsByField(c: Core, e: Event)
    requires e.Write? || e.ApplyAction? || e.RunReconcile?
    ensures Next(c, e) == ByField(c, e)
  {
    hide Ha.Validate, Merge;
  }

  lemma OthersByField(c: Core, e: Event)
    requires !IsFetchEvent(e) && !e.Reported? && !e.Write? && !e.ApplyAction? && !e.RunReconcile?
    ensures Next(c, e) == ByField(c, e)
  {
    hide Ha.Validate;
  }

  /** For every state and every event. */
  lemma NextIsByField(c: Core, e: Event)
    ensures Next(c, e) == ByField(c, e)
  {
    hide Next, ByField;
    if IsFetchEvent(e) {
      if PollAnswered(c, e) {
        PollAnsweredByField(c, e);
      } else if Answer(c, e).Some? {
        OtherAnsweredByField(c, e);
      } else if EndsUnanswered(c, e) {
        UnansweredByField(c, e);
      } else if StartsProbe(c, e) || EndsRejected(c, e) {
        StillOpenByField(c, e);
      } else {
        MissesChangeNothing(c, e);
      }
    } else if e.Reported? {
      ReportedByField(c, e.report);
    } else if e.Write? || e.ApplyAction? || e.RunReconcile? {
      RequestsByField(c, e);
    } else {
      OthersByField(c, e);
    }
  }

  lemma BeliefAfter(c: Core, e: Event)
    ensures Next(c, e).belief == Belief(DesiredAfter(c, e), c.belief.known || Adopted(c, e).Some?, VersionAfter(c, e))
  {
    hide Next, HostsAfter, DesiredAfter, VersionAfter, LockAfter, RepairAfter, HookAfter, DataAfter, FetchesAfter;
    NextIsByField(c, e);
  }
}

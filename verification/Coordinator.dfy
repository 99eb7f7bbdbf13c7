/**
 * LocalMdmCoordinator as a transition system. An event is a stretch of code
 * without an await: everything in it happens at once, and any other event may
 * happen before the next. Suspended coroutines are part of the state. The model
 * allows more interleavings than the code: a launched re-push and its run, and
 * a submission and the taking of a free lock nobody waits for, are two events
 * here and one stretch there.
 */
module Coordinator {
  import opened Wrappers
  import opened PolicyDocument
  import Ha = HaValidator

  const RECONCILE_MIN_INTERVAL := 30.0
  const RELOCATE_MIN_INTERVAL := 60.0

  /** What a tablet sends: the fields of its status document the coordinator uses. */
  datatype Report = Report(
    deviceId: string, version: int, policy: Doc, reportedAt: Option<string>,
    isOwner: bool, enforcement: map<Key, string>, pending: set<string>)

  /** DeviceStatus: a report, or the last one standing in for a tablet that did not answer. */
  datatype Status = Status(report: Report, reachable: bool)

  function Offline(deviceId: string): Status {
    Status(Report(deviceId, 0, map[], None, false, map[], {}), false)
  }

  /** A user write merges one key into the desired policy; Approve appends to the allowed list. */
  datatype Change = SetKey(key: Key, value: Json) | Approve(pkg: string)

  datatype Purpose = Poll | Setup | EnsureKnown(change: Change)

  /** A suspended _fetch: waiting for the known host, or for a probe of another address. */
  datatype Fetch = Fetch(purpose: Purpose, probing: Option<string>)

  /** A push holding the lock, waiting for its PUT to be answered. */
  datatype Push = Push(id: nat, doc: Doc, version: int)

  /** desired_policy, _policy_known, _policy_version */
  datatype Belief = Belief(desired: Doc, known: bool, version: int)

  /** The push lock: who holds it and which validated documents queue for it. */
  datatype Lock = Lock(holder: Option<Push>, waiting: seq<Doc>, nextPush: nat)

  /** Background re-pushes launched but not yet run, and when the last was launched. */
  datatype Repair = Repair(launched: nat, last: Option<real>)

  datatype Hook = Hook(url: Option<string>, pending: bool, sends: nat, reauth: bool)

  datatype Hosts = Hosts(client: string, stored: string)

  datatype Core = Core(
    deviceId: string, hosts: Hosts, belief: Belief, lock: Lock, repair: Repair, hook: Hook,
    data: Option<Status>, lastRelocate: Option<real>, fetches: map<nat, Fetch>, clock: real)

  /** Garbled: answered 200 with a body that is not JSON, an exception no handler of a send names. */
  datatype SendOutcome = Delivered | Undelivered | BadToken | Garbled

  /** FetchAborted: a fetch or its probe ends in an exception _fetch does not handle, as a garbled answer does. */
  datatype Event =
    | StartFetch(id: nat, purpose: Purpose)
    | FetchAnswered(id: nat, report: Report)
    | FetchRejected(id: nat)
    | FetchAborted(id: nat)
    | FetchFailed(id: nat, ip: Option<string>)
    | ProbeAnswered(id: nat, report: Report)
    | ProbeFailed(id: nat)
    | Write(id: nat, change: Change)
    | ApplyAction(doc: Doc)
    | RunReconcile
    | TakeLock
    | PushAcked(report: Report)
    | PushFailed
    | Reported(report: Report)
    | SendWebhook(url: string)
    | SendFinished(outcome: SendOutcome)
    | Tick(elapsed: real)

  function Initial(deviceId: string, host: string, clock: real): Core {
    Core(deviceId, Hosts(host, host), Belief(Ha.DefaultPolicy(), false, 0), Lock(None, [], 0),
      Repair(0, None), Hook(None, false, 0, false), None, None, map[], clock)
  }

  function Max(a: int, b: int): int { if a < b then b else a }

  /** _adopt_policy */
  function Adopt(b: Belief, r: Report): Belief {
    var desired := match Ha.Validate(r.policy) { case Ok(d) => d case Err(_) => Ha.DefaultPolicy() };
    Belief(desired, true, Max(b.version, r.version))
  }

  /** _schedule_webhook: the resend starts at once and clears the flag; it sets it again if it fails. */
  function ScheduleWebhook(h: Hook): Hook {
    if h.url.None? then h else h.(pending := false, sends := h.sends + 1)
  }

  function Elapsed(last: Option<real>, now: real, interval: real): bool {
    last.None? || now - last.value >= interval
  }

  function Drifted(b: Belief, r: Report): bool {
    match Ha.Validate(r.policy)
    case Err(_) => false
    case Ok(reported) => reported != b.desired
  }

  /** _reconcile_if_drifted: at most one background re-push per interval. */
  function ReconcileIfDrifted(c: Core, b: Belief, s: Status): Repair {
    if !s.reachable || !b.known || c.data.None? || c.lock.holder.Some? then c.repair
    else if !Drifted(b, s.report) then c.repair
    else if !Elapsed(c.repair.last, c.clock, RECONCILE_MIN_INTERVAL) then c.repair
    else Repair(c.repair.launched + 1, Some(c.clock))
  }

  function CameBack(c: Core): bool { c.data.Some? && !c.data.value.reachable }

  function BeliefOnStatus(b: Belief, s: Status): Belief {
    if s.reachable && !b.known then Adopt(b, s.report) else b
  }

  function HookOnStatus(h: Hook, reachable: bool, viaWebhook: bool, cameBack: bool): Hook {
    if !reachable then h
    else if viaWebhook then h.(pending := false)
    else if h.pending || cameBack then ScheduleWebhook(h)
    else h
  }

  /** _on_status, shared by polls and webhook reports; runs before data is replaced. */
  function OnStatus(c: Core, s: Status, viaWebhook: bool): Core {
    var belief := BeliefOnStatus(c.belief, s);
    c.(belief := belief,
       hook := HookOnStatus(c.hook, s.reachable, viaWebhook, CameBack(c)),
       repair := ReconcileIfDrifted(c, belief, s))
  }

  /** The first half of async_apply_policy: refuse, or queue for the lock. */
  function Submit(l: Lock, doc: Doc): Lock {
    match Ha.Validate(doc)
    case Err(_) => l
    case Ok(safe) => l.(waiting := l.waiting + [safe])
  }

  function Listed(doc: Doc): seq<Json> {
    if AllowedPackages in doc && doc[AllowedPackages].Arr? then doc[AllowedPackages].items else []
  }

  /** The full document a write pushes. */
  function Merge(desired: Doc, change: Change): Doc {
    match change
    case SetKey(key, value) => desired[key := value]
    case Approve(pkg) =>
      var current := Listed(desired);
      desired[AllowedPackages := Arr(if Str(pkg) in current then current else current + [Str(pkg)])]
  }

  /** What resumes when a fetch ends with a status. */
  function Resume(c: Core, purpose: Purpose, s: Status): Core {
    match purpose
    case Poll => OnStatus(c, s, false).(data := Some(s))
    case Setup => if s.reachable then c.(belief := Adopt(c.belief, s.report)) else c
    case EnsureKnown(change) =>
      if !s.reachable then c
      else
        var belief := Adopt(c.belief, s.report);
        c.(belief := belief, data := Some(s), lock := Submit(c.lock, Merge(belief.desired, change)))
  }

  /** Resuming neither reads nor changes the other suspended fetches. */
  lemma ResumeKeepsFetches(c: Core, purpose: Purpose, s: Status, fetches: map<nat, Fetch>)
    ensures Resume(c.(fetches := fetches), purpose, s) == Resume(c, purpose, s).(fetches := fetches)
  {
    hide Ha.Validate;
  }

  /** The unreachable stand-in: the last known status, marked unreachable. */
  function LastKnown(c: Core): Status {
    match c.data
    case None => Offline(c.deviceId)
    case Some(s) => s.(reachable := false)
  }

  function Finish(c: Core, id: nat, s: Status): Core
    requires id in c.fetches
  {
    Resume(c, c.fetches[id].purpose, s).(fetches := c.fetches - {id})
  }

  /** async_handle_push: reports for another device are ignored. */
  function HandlePush(c: Core, r: Report): Core {
    if r.deviceId != c.deviceId then c
    else
      var s := Status(r, true);
      var informed := c.(belief := c.belief.(version := Max(c.belief.version, r.version)));
      OnStatus(informed, s, true).(data := Some(s))
  }

  /** _relocate up to its await: the new address is probed at most once per interval. */
  function StartProbe(c: Core, id: nat, ip: Option<string>): Core
    requires id in c.fetches
  {
    if !Elapsed(c.lastRelocate, c.clock, RELOCATE_MIN_INTERVAL) || ip.None? || ip.value == c.hosts.client
    then Finish(c, id, LastKnown(c))
    else c.(lastRelocate := Some(c.clock), fetches := c.fetches[id := Fetch(c.fetches[id].purpose, ip)])
  }

  /** _relocate after its await: only an address that answers as this tablet is followed. */
  function EndProbe(c: Core, id: nat, r: Report): Core
    requires id in c.fetches && c.fetches[id].probing.Some?
  {
    if r.deviceId != c.deviceId then Finish(c, id, LastKnown(c))
    else
      var ip := c.fetches[id].probing.value;
      Finish(c.(hosts := Hosts(ip, ip)), id, Status(r, true))
  }

  function AwaitsAnswer(c: Core, id: nat): bool { id in c.fetches && c.fetches[id].probing.None? }

  function AwaitsProbe(c: Core, id: nat): bool { id in c.fetches && c.fetches[id].probing.Some? }

  function Reject(c: Core, id: nat): Core
    requires id in c.fetches
  {
    var reauth := c.hook.reauth || !c.fetches[id].purpose.EnsureKnown?;
    c.(fetches := c.fetches - {id}, hook := c.hook.(reauth := reauth))
  }

  /** A write merges at once when the policy is known, and fetches it first when it is not. */
  function StartWrite(c: Core, id: nat, change: Change): Core {
    if c.belief.known then c.(lock := Submit(c.lock, Merge(c.belief.desired, change)))
    else if id in c.fetches then c
    else c.(fetches := c.fetches[id := Fetch(EnsureKnown(change), None)])
  }

  function Grant(c: Core): Core {
    if c.lock.holder.Some? || c.lock.waiting == [] then c
    else
      var push := Push(c.lock.nextPush, c.lock.waiting[0], c.belief.version + 1);
      c.(lock := Lock(Some(push), c.lock.waiting[1..], c.lock.nextPush + 1))
  }

  function Acknowledge(c: Core, r: Report): Core {
    if c.lock.holder.None? then c
    else
      var push := c.lock.holder.value;
      c.(belief := Belief(push.doc, c.belief.known, Max(push.version, r.version)),
         data := Some(Status(r, true)), lock := c.lock.(holder := None))
  }

  function FinishSend(h: Hook, outcome: SendOutcome): Hook {
    if h.sends == 0 then h
    else
      match outcome
      case Delivered => h.(sends := h.sends - 1, pending := false)
      case Undelivered => h.(sends := h.sends - 1, pending := true)
      case BadToken => h.(sends := h.sends - 1, reauth := true)
      case Garbled => h.(sends := h.sends - 1)
  }

  function Next(c: Core, e: Event): Core {
    match e
    case StartFetch(id, purpose) =>
      if id in c.fetches || purpose.EnsureKnown? then c else c.(fetches := c.fetches[id := Fetch(purpose, None)])
    case FetchAnswered(id, r) => if AwaitsAnswer(c, id) then Finish(c, id, Status(r, true)) else c
    case FetchRejected(id) => if AwaitsAnswer(c, id) then Reject(c, id) else c
    case FetchAborted(id) => c.(fetches := c.fetches - {id})
    case FetchFailed(id, ip) => if AwaitsAnswer(c, id) then StartProbe(c, id, ip) else c
    case ProbeAnswered(id, r) => if AwaitsProbe(c, id) then EndProbe(c, id, r) else c
    case ProbeFailed(id) => if AwaitsProbe(c, id) then Finish(c, id, LastKnown(c)) else c
    case Write(id, change) => StartWrite(c, id, change)
    case ApplyAction(doc) => c.(lock := Submit(c.lock, doc))
    case RunReconcile =>
      if c.repair.launched == 0 then c
      else c.(repair := c.repair.(launched := c.repair.launched - 1), lock := Submit(c.lock, c.belief.desired))
    case TakeLock => Grant(c)
    case PushAcked(r) => Acknowledge(c, r)
    case PushFailed => c.(lock := c.lock.(holder := None))
    case Reported(r) => HandlePush(c, r)
    case SendWebhook(url) => c.(hook := c.hook.(url := Some(url), sends := c.hook.sends + 1))
    case SendFinished(outcome) => c.(hook := FinishSend(c.hook, outcome))
    case Tick(elapsed) => if elapsed < 0.0 then c else c.(clock := c.clock + elapsed)
  }

  function Run(c: Core, es: seq<Event>): Core
    decreases |es|
  {
    if es == [] then c else Run(Next(c, es[0]), es[1..])
  }
}

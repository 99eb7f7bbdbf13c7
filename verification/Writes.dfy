/** What a user write does to the desired policy, alone, in sequence, and overlapped with another. */
module Writes {
  import opened Wrappers
  import opened Ordering
  import opened PolicyDocument
  import opened Coordinator
  import F = CoordinatorFields
  import Ha = HaValidator

  // ----- the effect of one change --------------------------------------------------------

  predicate WellTyped(change: Change) {
    match change
    case SetKey(Flag(_), value) => value.Bool?
    case SetKey(KioskPackages, value) => Ha.IsNameList(value)
    case SetKey(AllowedPackages, value) => Ha.IsNameList(value)
    case SetKey(AppMode, value) => value == Str(OPEN) || value == Str(ALLOWLIST)
    case SetKey(Other(_), _) => false
    case Approve(pkg) => pkg != ""
  }

  /** The policy a change asks for, on meanings. Kiosk packages flow into the allowed set, nothing else moves. */
  function Changed(p: Policy, change: Change): Policy {
    match change
    case SetKey(Flag(f), value) => p.(on := if value == Bool(true) then p.on + {f} else p.on - {f})
    case SetKey(KioskPackages, value) =>
      var kiosk := Ha.Names(value) - {DPC_PACKAGE};
      p.(kiosk := kiosk, allowed := Fold(p.mode, kiosk, p.allowed))
    case SetKey(AllowedPackages, value) =>
      p.(allowed := Fold(p.mode, p.kiosk, Ha.Names(value) - {DPC_PACKAGE}))
    case SetKey(AppMode, value) =>
      var mode := if value == Str(ALLOWLIST) then Allowlist else Open;
      p.(mode := mode, allowed := Fold(mode, p.kiosk, p.allowed))
    case SetKey(Other(_), _) => p
    case Approve(pkg) => p.(allowed := p.allowed + ({pkg} - {DPC_PACKAGE}))
  }

  lemma ApprovedNames(d: Doc, pkg: string)
    requires Ha.IsNormal(d)
    ensures Ha.IsNameList(Merge(d, Approve(pkg))[AllowedPackages]) <==> pkg != ""
    ensures Ha.Names(Merge(d, Approve(pkg))[AllowedPackages]) == Ha.Names(d[AllowedPackages]) + {pkg}
    ensures AllowedPackages in d && Ha.IsNameList(d[AllowedPackages])
  {
  }

  /** A normal document has every key, with values of the right kind. */
  lemma NormalIsComplete(d: Doc)
    requires Ha.IsNormal(d)
    ensures d.Keys == KnownKeys() && !HasForbidden(d) && !Ha.Malformed(d)
    ensures d[AllowedPackages].Arr? && d[KioskPackages].Arr?
  {
  }

  /** The merged document is well formed exactly when the change is well typed. */
  lemma MergeIsWellFormed(d: Doc, change: Change)
    requires Ha.IsNormal(d)
    ensures HasForbidden(Merge(d, change)) || Ha.Malformed(Merge(d, change)) <==> !WellTyped(change)
  {
    NormalIsComplete(d);
    var m := Merge(d, change);
    match change
    case SetKey(key, value) =>
      assert key in m && m[key] == value;
      assert forall k :: k in d && k != key ==> m[k] == d[k];
      if key.Other? { assert HasUnknown(m); }
    case Approve(pkg) =>
      ApprovedNames(d, pkg);
      assert forall k :: k in d && k != AllowedPackages ==> m[k] == d[k];
  }

  /** Merging changes the meaning the way the change says. */
  lemma MergeMeans(d: Doc, change: Change)
    requires Ha.IsNormal(d) && WellTyped(change)
    ensures Ha.Meaning(Merge(d, change)) == Changed(Ha.Meaning(d), change)
  {
    NormalIsComplete(d);
    Ha.NormalIsSafe(d);
    NormalListIsFolded(d);
    match change
    case SetKey(key, value) => SetKeyMeans(d, key, value);
    case Approve(pkg) =>
      ApprovedNames(d, pkg);
      var allowed := Ha.Packages(d, AllowedPackages);
      hide Ha.Validate, FlagsOn, Merge;
      assert Ha.Packages(Merge(d, change), AllowedPackages) == allowed + ({pkg} - {DPC_PACKAGE});
      AllowedMeans(d, Merge(d, change)[AllowedPackages]);
  }

  /** Replacing the allowed list changes nothing else. */
  lemma AllowedMeans(d: Doc, value: Json)
    ensures var m := d[AllowedPackages := value];
      && FlagsOn(m) == FlagsOn(d) && Ha.ModeOf(m) == Ha.ModeOf(d)
      && Ha.Packages(m, KioskPackages) == Ha.Packages(d, KioskPackages)
  {
  }

  lemma SetKeyMeans(d: Doc, key: Key, value: Json)
    requires Ha.Packages(d, AllowedPackages) == Ha.Meaning(d).allowed
    requires Ha.Meaning(d).mode.Allowlist? ==> Ha.Meaning(d).kiosk <= Ha.Meaning(d).allowed
    requires KioskPackages in d && AllowedPackages in d && AppMode in d && WellTyped(SetKey(key, value))
    ensures Ha.Meaning(d[key := value]) == Changed(Ha.Meaning(d), SetKey(key, value))
  {
    var m, p := d[key := value], Ha.Meaning(d);
    if key.Flag? {
      assert FlagsOn(m) == Changed(p, SetKey(key, value)).on;
    } else {
      assert FlagsOn(m) == FlagsOn(d);
    }
  }

  /** In a normal document the allowed list already is the folded one. */
  lemma NormalListIsFolded(d: Doc)
    requires Ha.IsNormal(d)
    ensures Ha.Packages(d, AllowedPackages) == Ha.Meaning(d).allowed
  {
    Ha.NormalIsSafe(d);
    Ha.RecordMeans(CodePoint, Ha.Meaning(d));
    Ha.WrittenList(RecordOf(CodePoint, Ha.Meaning(d)), AllowedPackages);
  }

  /**
   * One write, exactly: it is accepted iff it is well typed and the policy it
   * asks for is not dangerous, and then the new document renders that policy.
   */
  lemma WriteOutcome(d: Doc, change: Change)
    requires Ha.IsNormal(d)
    ensures Ha.Validate(Merge(d, change)).Ok? <==> WellTyped(change) && !Dangerous(Changed(Ha.Meaning(d), change))
    ensures Ha.Validate(Merge(d, change)).Ok? ==>
      Ha.Validate(Merge(d, change)) == Ok(Render(CodePoint, Changed(Ha.Meaning(d), change)))
  {
    MergeIsWellFormed(d, change);
    if WellTyped(change) {
      MergeMeans(d, change);
    }
  }

  /** A flag write changes no other key. */
  lemma FlagWriteChangesOneKey(d: Doc, f: Flag, b: bool)
    requires Ha.IsNormal(d) && Ha.Validate(Merge(d, SetKey(Flag(f), Bool(b)))).Ok?
    ensures Ha.Validate(Merge(d, SetKey(Flag(f), Bool(b)))) == Ok(d[Flag(f) := Bool(b)])
  {
    WriteOutcome(d, SetKey(Flag(f), Bool(b)));
    Ha.NormalIsSafe(d);
    var p := Ha.Meaning(d);
    var q := Changed(p, SetKey(Flag(f), Bool(b)));
    assert Render(CodePoint, q) == Render(CodePoint, p)[Flag(f) := Bool(b)];
  }

  /** A list, mode or approve write changes only its own key, and the allowed list by folding. */
  lemma OtherWritesChangeOnlyTheAllowedList(d: Doc, change: Change)
    requires Ha.IsNormal(d) && Ha.Validate(Merge(d, change)).Ok?
    requires change.SetKey? ==> !change.key.Flag?
    ensures var after := Ha.Validate(Merge(d, change)).value;
      forall k :: k in KnownKeys() && k != AllowedPackages && (change.SetKey? ==> k != change.key) ==>
        k in after && k in d && after[k] == d[k]
  {
    WriteOutcome(d, change);
    Ha.NormalIsSafe(d);
  }

  // ----- what changes the desired policy ----------------------------------------------------

  /** An event replaces a policy: it adopts another one, or acknowledges a push of another one. */
  predicate Replaces(c: Core, e: Event, d: Doc) {
    || (F.Adopted(c, e).Some? && F.DesiredBy(F.Adopted(c, e).value) != d)
    || (e.PushAcked? && c.lock.holder.Some? && c.lock.holder.value.doc != d)
  }

  predicate Stands(c: Core, es: seq<Event>, d: Doc)
    decreases |es|
  {
    c.belief.desired == d && (es != [] ==> Stands(Next(c, es[0]), es[1..], d))
  }

  predicate NeverReplaced(c: Core, es: seq<Event>, d: Doc)
    decreases |es|
  {
    es != [] ==> !Replaces(c, es[0], d) && NeverReplaced(Next(c, es[0]), es[1..], d)
  }

  /**
   * Over every run: an acknowledged policy stands at every moment exactly while
   * no write-time or setup fetch returns with another one and every push
   * acknowledged after it, whoever queued it, carries the same document.
   */
  lemma {:induction false} DesiredPolicyStandsIff(c: Core, es: seq<Event>)
    ensures Stands(c, es, c.belief.desired) <==> NeverReplaced(c, es, c.belief.desired)
    decreases |es|
  {
    hide Next, Replaces;
    if es != [] {
      StepReplaces(c, es[0]);
      if Next(c, es[0]).belief.desired == c.belief.desired {
        DesiredPolicyStandsIff(Next(c, es[0]), es[1..]);
      }
    }
  }

  lemma StepReplaces(c: Core, e: Event)
    ensures Next(c, e).belief.desired != c.belief.desired <==> Replaces(c, e, c.belief.desired)
  {
    F.BeliefAfter(c, e);
    hide Next, F.DesiredBy, F.VersionAfter;
  }

  // ----- writes one after the other -----------------------------------------------------------

  /** Sections that neither merge, queue nor answer a push. */
  predicate Quiet(e: Event) {
    match e
    case StartFetch(_, purpose) => purpose.Poll?
    case Write(_, _) => false
    case ApplyAction(_) => false
    case RunReconcile => false
    case TakeLock => false
    case PushAcked(_) => false
    case PushFailed => false
    case _ => true
  }

  predicate OnlyPolls(c: Core) { forall id :: id in c.fetches ==> c.fetches[id].purpose.Poll? }

  predicate Idle(c: Core) { c.belief.known && OnlyPolls(c) && c.lock.holder.None? && c.lock.waiting == [] }

  /** Polls, reports, sends, relocations and time leave the desired policy and the lock alone. */
  lemma QuietStep(c: Core, e: Event)
    requires c.belief.known && OnlyPolls(c) && Quiet(e)
    ensures var after := Next(c, e);
      && after.belief.known && after.belief.desired == c.belief.desired
      && after.lock == c.lock && OnlyPolls(after)
  {
    hide Ha.Validate;
  }

  lemma {:induction false} QuietRun(c: Core, es: seq<Event>)
    requires c.belief.known && OnlyPolls(c) && forall e :: e in es ==> Quiet(e)
    ensures var after := Run(c, es);
      && after.belief.known && after.belief.desired == c.belief.desired
      && after.lock == c.lock && OnlyPolls(after)
    decreases |es|
  {
    if es != [] {
      QuietStep(c, es[0]);
      QuietRun(Next(c, es[0]), es[1..]);
    }
  }

  lemma {:induction false} RunSplit(c: Core, a: seq<Event>, b: seq<Event>)
    ensures Run(c, a + b) == Run(Run(c, a), b)
    decreases |a|
  {
    if a == [] {
      assert a + b == b;
    } else {
      assert (a + b)[0] == a[0] && (a + b)[1..] == a[1..] + b;
      RunSplit(Next(c, a[0]), a[1..], b);
    }
  }

  lemma RunOne(c: Core, e: Event)
    ensures Run(c, [e]) == Next(c, e)
  {
  }

  /** Who asks for a push: an operator changing one key, a whole profile, or the repair of drift. */
  datatype Request = User(id: nat, change: Change) | Profile(doc: Doc) | Repush

  /** A request from its merge to its answer, with anything quiet in between; None is a lost push. */
  datatype Round = Round(request: Request, first: seq<Event>, second: seq<Event>, third: seq<Event>,
                         answer: Option<Report>)

  predicate QuietRound(r: Round) {
    && (forall e :: e in r.first ==> Quiet(e)) && (forall e :: e in r.second ==> Quiet(e))
    && (forall e :: e in r.third ==> Quiet(e))
  }

  function RequestEvent(q: Request): Event {
    match q
    case User(id, change) => Write(id, change)
    case Profile(doc) => ApplyAction(doc)
    case Repush => RunReconcile
  }

  function Answer(r: Round): Event {
    if r.answer.Some? then PushAcked(r.answer.value) else PushFailed
  }

  /** From the queue to the answer. */
  function PushEvents(r: Round): seq<Event> {
    r.first + [TakeLock] + r.second + [Answer(r)] + r.third
  }

  function RoundEvents(r: Round): seq<Event> { [RequestEvent(r.request)] + PushEvents(r) }

  /** The document a request asks to push. */
  function Asked(desired: Doc, q: Request): Doc {
    match q
    case User(_, change) => Merge(desired, change)
    case Profile(doc) => doc
    case Repush => desired
  }

  /** What one round should do to the desired policy: nothing unless it was accepted and acknowledged. */
  function Folded(desired: Doc, r: Round): Doc {
    match Ha.Validate(Asked(desired, r.request))
    case Ok(d) => if r.answer.Some? then d else desired
    case Err(_) => desired
  }

  lemma FoldedIsNormal(desired: Doc, r: Round)
    requires Ha.IsNormal(desired)
    ensures Ha.IsNormal(Folded(desired, r))
  {
    if Ha.Validate(Asked(desired, r.request)).Ok? {
      Ha.ValidateIsIdempotent(Asked(desired, r.request));
    }
  }

  lemma PushChain(c: Core, r: Round)
    ensures Run(c, PushEvents(r)) == Run(Next(Run(Next(Run(c, r.first), TakeLock), r.second), Answer(r)), r.third)
  {
    var p2 := r.first + [TakeLock];
    var p3 := p2 + r.second;
    RunSplit(c, r.first, [TakeLock]);
    RunOne(Run(c, r.first), TakeLock);
    RunSplit(c, p2, r.second);
    RunSplit(c, p3, [Answer(r)]);
    RunOne(Run(c, p3), Answer(r));
    RunSplit(c, p3 + [Answer(r)], r.third);
  }

  /** With at most one document queued, that document wins if acknowledged, and the lock is free again. */
  lemma PushFolds(c: Core, r: Round)
    requires c.belief.known && OnlyPolls(c) && c.lock.holder.None? && |c.lock.waiting| <= 1 && QuietRound(r)
    ensures Idle(Run(c, PushEvents(r)))
    ensures Run(c, PushEvents(r)).belief.desired ==
      if c.lock.waiting != [] && r.answer.Some? then c.lock.waiting[0] else c.belief.desired
  {
    hide Ha.Validate, Next;
    PushChain(c, r);
    QuietRun(c, r.first);
    var c2 := Run(c, r.first);
    GrantKeeps(c2);
    QuietRun(Grant(c2), r.second);
    var c4 := Run(Grant(c2), r.second);
    AnswerKeeps(c4, Answer(r));
    QuietRun(Next(c4, Answer(r)), r.third);
  }

  lemma RequestQueues(c: Core, q: Request)
    requires Idle(c) && Ha.IsNormal(c.belief.desired)
    ensures var after := Next(c, RequestEvent(q));
      && after.belief == c.belief && after.fetches == c.fetches && after.lock.holder.None?
      && (match Ha.Validate(Asked(c.belief.desired, q))
          case Ok(d) => after.lock.waiting == [d] || (q.Repush? && d == c.belief.desired && after.lock.waiting == [])
          case Err(_) => after.lock.waiting == [])
  {
    hide Ha.Meaning, Judge, Render;
  }

  lemma RoundFolds(c: Core, r: Round)
    requires Idle(c) && Ha.IsNormal(c.belief.desired) && QuietRound(r)
    ensures Idle(Run(c, RoundEvents(r)))
    ensures Run(c, RoundEvents(r)).belief.desired == Folded(c.belief.desired, r)
  {
    var c1 := Next(c, RequestEvent(r.request));
    RequestQueues(c, r.request);
    hide Next, Ha.Validate;
    RunSplit(c, [RequestEvent(r.request)], PushEvents(r));
    RunOne(c, RequestEvent(r.request));
    PushFolds(c1, r);
  }

  lemma GrantKeeps(c: Core)
    ensures Next(c, TakeLock) == Grant(c)
    ensures Grant(c).belief == c.belief && Grant(c).fetches == c.fetches
    ensures c.lock.holder.None? && c.lock.waiting == [] ==> Grant(c).lock == c.lock
    ensures c.lock.holder.None? && |c.lock.waiting| == 1 ==>
      Grant(c).lock.waiting == [] && Grant(c).lock.holder.Some? && Grant(c).lock.holder.value.doc == c.lock.waiting[0]
  {
  }

  lemma AnswerKeeps(c: Core, e: Event)
    requires e.PushAcked? || e.PushFailed?
    ensures var after := Next(c, e);
      && after.lock.holder.None? && after.lock.waiting == c.lock.waiting
      && after.fetches == c.fetches && after.belief.known == c.belief.known
      && after.belief.desired ==
           if e.PushAcked? && c.lock.holder.Some? then c.lock.holder.value.doc else c.belief.desired
  {
  }

  function RoundsEvents(rs: seq<Round>): seq<Event> {
    if rs == [] then [] else RoundEvents(rs[0]) + RoundsEvents(rs[1..])
  }

  function FoldAll(desired: Doc, rs: seq<Round>): Doc
    decreases |rs|
  {
    if rs == [] then desired else FoldAll(Folded(desired, rs[0]), rs[1..])
  }

  /**
   * Non-overlapping requests fold exactly: refused and failed ones leave no
   * trace, acknowledged ones apply in order, drift repairs change nothing.
   */
  lemma {:induction false} RoundsFold(c: Core, rs: seq<Round>)
    requires Idle(c) && Ha.IsNormal(c.belief.desired) && forall r :: r in rs ==> QuietRound(r)
    ensures Idle(Run(c, RoundsEvents(rs)))
    ensures Run(c, RoundsEvents(rs)).belief.desired == FoldAll(c.belief.desired, rs)
    decreases |rs|
  {
    hide Ha.Validate, Next, Folded;
    if rs != [] {
      assert rs[0] in rs;
      RoundFolds(c, rs[0]);
      FoldedIsNormal(c.belief.desired, rs[0]);
      RunSplit(c, RoundEvents(rs[0]), RoundsEvents(rs[1..]));
      RoundsFold(Run(c, RoundEvents(rs[0])), rs[1..]);
    }
  }

  // ----- the first write of a session, before the tablet has answered ---------------------------

  /** Nothing read and nothing under way but polls. */
  predicate Unread(c: Core) { !c.belief.known && OnlyPolls(c) && c.lock.holder.None? && c.lock.waiting == [] }

  /** A first write waits for its own fetch: quiet events, the arrival of its answer, then the push. */
  datatype FirstRound = FirstRound(before: seq<Event>, arrival: Event, report: Report, push: Round)

  /** Events that do not start or end fetch id, except by failing to reach the known host. */
  predicate Apart(e: Event, id: nat) {
    match e
    case StartFetch(i, _) => i != id
    case FetchAnswered(i, _) => i != id
    case FetchRejected(i) => i != id
    case FetchAborted(i) => i != id
    case ProbeAnswered(i, _) => i != id
    case ProbeFailed(i) => i != id
    case _ => true
  }

  /** The event ends fetch id with this report, from the known host or from a new address. */
  predicate Returns(c: Core, e: Event, id: nat, r: Report) {
    || (e == FetchAnswered(id, r) && AwaitsAnswer(c, id))
    || (e == ProbeAnswered(id, r) && AwaitsProbe(c, id) && r.deviceId == c.deviceId)
  }

  /** One write waits for its fetch, everything else under way is a poll, the lock is free. */
  predicate Waits(c: Core, id: nat, change: Change) {
    && c.lock.holder.None? && c.lock.waiting == []
    && forall i :: i in c.fetches ==> c.fetches[i].purpose == if i == id then EnsureKnown(change) else Poll
  }

  lemma WaitStep(c: Core, e: Event, id: nat, change: Change)
    requires Waits(c, id, change) && Quiet(e) && Apart(e, id)
    ensures Waits(Next(c, e), id, change)
  {
    hide Ha.Validate;
  }

  lemma {:induction false} WaitRun(c: Core, es: seq<Event>, id: nat, change: Change)
    requires Waits(c, id, change) && forall e :: e in es ==> Quiet(e) && Apart(e, id)
    ensures Waits(Run(c, es), id, change)
    decreases |es|
  {
    hide Next, Waits, Quiet, Apart;
    if es != [] {
      assert es[0] in es;
      WaitStep(c, es[0], id, change);
      WaitRun(Next(c, es[0]), es[1..], id, change);
    }
  }

  /** The write resumes on the policy its own fetch brought, whatever was known by then. */
  lemma ArrivalQueues(c: Core, e: Event, id: nat, change: Change, r: Report)
    requires Waits(c, id, change) && Returns(c, e, id, r)
    ensures var after := Next(c, e); var base := F.DesiredBy(r);
      && after.belief.known && after.belief.desired == base && OnlyPolls(after) && after.lock.holder.None?
      && (match Ha.Validate(Merge(base, change))
          case Ok(d) => after.lock.waiting == [d]
          case Err(_) => after.lock.waiting == [])
  {
    hide Ha.Validate;
  }

  function FirstEvents(f: FirstRound): seq<Event>
    requires f.push.request.User?
  {
    [RequestEvent(f.push.request)] + f.before + [f.arrival] + PushEvents(f.push)
  }

  /** The session up to the arrival of the answer. */
  function Asking(c: Core, f: FirstRound): Core
    requires f.push.request.User?
  {
    Run(Next(c, RequestEvent(f.push.request)), f.before)
  }

  /**
   * A first round runs on an unread session. The arrival must end the fetch the
   * write is waiting for; a fetch that ends otherwise ends the write.
   */
  predicate IsFirst(c: Core, f: FirstRound) {
    && Unread(c) && f.push.request.User? && f.push.request.id !in c.fetches && QuietRound(f.push)
    && (forall e :: e in f.before ==> Quiet(e) && Apart(e, f.push.request.id))
    && Returns(Asking(c, f), f.arrival, f.push.request.id, f.report)
  }

  lemma FirstRoundFolds(c: Core, f: FirstRound)
    requires IsFirst(c, f)
    ensures var after := Run(c, FirstEvents(f)); var adopted := F.DesiredBy(f.report);
      Idle(after) && after.belief.desired == Folded(adopted, f.push)
  {
    var id, change := f.push.request.id, f.push.request.change;
    var write := RequestEvent(f.push.request);
    var c1 := Next(c, write);
    assert Waits(c1, id, change);
    hide Ha.Validate, Next, Waits, Returns;
    WaitRun(c1, f.before, id, change);
    var c2 := Asking(c, f);
    ArrivalQueues(c2, f.arrival, id, change, f.report);
    PushFolds(Next(c2, f.arrival), f.push);
    RunOne(c, write);
    RunSplit(c, [write], f.before);
    RunSplit(c, [write] + f.before, [f.arrival]);
    RunOne(c2, f.arrival);
    RunSplit(c, [write] + f.before + [f.arrival], PushEvents(f.push));
  }

  /** A whole session: the desired policy is the fold of the acknowledged requests over the adopted policy. */
  lemma SessionFolds(c: Core, f: FirstRound, rs: seq<Round>)
    requires IsFirst(c, f) && forall r :: r in rs ==> QuietRound(r)
    ensures var after := Run(c, FirstEvents(f) + RoundsEvents(rs)); var adopted := F.DesiredBy(f.report);
      Idle(after) && after.belief.desired == FoldAll(Folded(adopted, f.push), rs)
  {
    var adopted := F.DesiredBy(f.report);
    FirstRoundFolds(c, f);
    AdoptedIsNormal(f.report);
    FoldedIsNormal(adopted, f.push);
    hide F.DesiredBy, Folded, Next, IsFirst;
    RunSplit(c, FirstEvents(f), RoundsEvents(rs));
    RoundsFold(Run(c, FirstEvents(f)), rs);
  }

  lemma AdoptedIsNormal(r: Report)
    ensures Ha.IsNormal(F.DesiredBy(r))
  {
    Ha.DefaultIsNormal();
    if Ha.Validate(r.policy).Ok? {
      Ha.ValidateIsIdempotent(r.policy);
    }
  }

  // ----- writes that overlap --------------------------------------------------------------------

  /** The documents on their way, oldest first: the one being pushed and the ones queued behind it. */
  function Pipeline(l: Lock): seq<Doc> {
    (if l.holder.Some? then [l.holder.value.doc] else []) + l.waiting
  }

  /** Events that queue nothing and lose nothing. */
  predicate Drains(e: Event) { Quiet(e) || e.TakeLock? || e.PushAcked? }

  lemma DrainStep(c: Core, e: Event)
    requires c.belief.known && OnlyPolls(c) && Drains(e)
    ensures var after := Next(c, e); var docs := Pipeline(c.lock);
      && after.belief.known && OnlyPolls(after)
      && if e.PushAcked? && c.lock.holder.Some?
         then docs != [] && Pipeline(after.lock) == docs[1..] && after.belief.desired == docs[0]
         else Pipeline(after.lock) == docs && after.belief.desired == c.belief.desired
  {
    hide Next, Grant;
    if Quiet(e) {
      QuietStep(c, e);
    } else if e.TakeLock? {
      GrantKeeps(c);
      GrantDrains(c);
    } else {
      AnswerKeeps(c, e);
      assert c.lock.holder.Some? ==> Pipeline(c.lock) == [c.lock.holder.value.doc] + c.lock.waiting;
      assert Pipeline(Next(c, e).lock) == c.lock.waiting;
    }
  }

  lemma GrantDrains(c: Core)
    ensures Pipeline(Grant(c).lock) == Pipeline(c.lock)
  {
    if c.lock.waiting != [] {
      assert c.lock.waiting == [c.lock.waiting[0]] + c.lock.waiting[1..];
    }
  }

  /** The pipeline drains in order, and the last document drained is the desired policy. */
  lemma {:induction false} DrainRun(c: Core, es: seq<Event>)
    requires c.belief.known && OnlyPolls(c) && forall e :: e in es ==> Drains(e)
    ensures var after := Run(c, es); var docs, left := Pipeline(c.lock), Pipeline(after.lock);
      && after.belief.known && OnlyPolls(after)
      && |left| <= |docs| && left == docs[|docs| - |left|..]
      && after.belief.desired == if |left| == |docs| then c.belief.desired else docs[|docs| - |left| - 1]
    ensures (forall e :: e in es ==> !e.PushAcked?) ==> Pipeline(Run(c, es).lock) == Pipeline(c.lock)
    decreases |es|
  {
    hide Next, Quiet, OnlyPolls, Pipeline;
    if es != [] {
      assert es[0] in es;
      DrainStep(c, es[0]);
      DrainRun(Next(c, es[0]), es[1..]);
    }
  }

  /** Two writes, the second merged before the first is acknowledged, both acknowledged in the end. */
  datatype Overlap = Overlap(id1: nat, first: Change, between: seq<Event>, id2: nat, second: Change, rest: seq<Event>)

  function OverlapEvents(w: Overlap): seq<Event> {
    [Write(w.id1, w.first)] + w.between + [Write(w.id2, w.second)] + w.rest
  }

  /** In between anything quiet, the lock taken at any time; nothing fails and nothing is left under way. */
  predicate Overlaps(c: Core, w: Overlap) {
    && Idle(c)
    && (forall e :: e in w.between ==> Quiet(e) || e.TakeLock?) && (forall e :: e in w.rest ==> Drains(e))
    && Ha.Validate(Merge(c.belief.desired, w.first)).Ok? && Ha.Validate(Merge(c.belief.desired, w.second)).Ok?
    && Pipeline(Run(c, OverlapEvents(w)).lock) == []
  }

  lemma WriteQueues(c: Core, id: nat, change: Change)
    requires c.belief.known && Ha.Validate(Merge(c.belief.desired, change)).Ok?
    ensures var after := Next(c, Write(id, change));
      && after.belief == c.belief && after.fetches == c.fetches
      && Pipeline(after.lock) == Pipeline(c.lock) + [Ha.Validate(Merge(c.belief.desired, change)).value]
  {
    hide Ha.Validate;
  }

  /** Whatever the two writes are, the first leaves no trace. */
  lemma OverlapKeepsOnlyTheSecond(c: Core, w: Overlap)
    requires Overlaps(c, w)
    ensures Ok(Run(c, OverlapEvents(w)).belief.desired) == Ha.Validate(Merge(c.belief.desired, w.second))
  {
    assert forall e :: e in w.between ==> Drains(e) && !e.PushAcked?;
    hide Next, Ha.Validate, Quiet;
    var c1 := Next(c, Write(w.id1, w.first));
    WriteQueues(c, w.id1, w.first);
    DrainRun(c1, w.between);
    var c2 := Run(c1, w.between);
    WriteQueues(c2, w.id2, w.second);
    var c3 := Next(c2, Write(w.id2, w.second));
    DrainRun(c3, w.rest);
    RunOne(c, Write(w.id1, w.first));
    RunSplit(c, [Write(w.id1, w.first)], w.between);
    RunOne(c2, Write(w.id2, w.second));
    RunSplit(c, [Write(w.id1, w.first)] + w.between, [Write(w.id2, w.second)]);
    RunSplit(c, [Write(w.id1, w.first)] + w.between + [Write(w.id2, w.second)], w.rest);
  }

  /** What the two writes ask for, one after the other. */
  function BothApplied(d: Doc, first: Change, second: Change): Result<Doc> {
    match Ha.Validate(Merge(d, first))
    case Ok(d1) => Ha.Validate(Merge(d1, second))
    case Err(e) => Err(e)
  }

  /** The second write covers everything the first one changes. */
  predicate Covers(p: Policy, first: Change, second: Change) {
    var q := Changed(p, first);
    match second
    case SetKey(Flag(g), _) => q.on - {g} == p.on - {g} && q.kiosk == p.kiosk && q.mode == p.mode && q.allowed == p.allowed
    case SetKey(KioskPackages, value) =>
      var kiosk := Ha.Names(value) - {DPC_PACKAGE};
      && q.on == p.on && q.mode == p.mode
      && Fold(p.mode, kiosk, q.allowed) == Fold(p.mode, kiosk, p.allowed)
    case SetKey(AllowedPackages, _) => q.on == p.on && q.kiosk == p.kiosk && q.mode == p.mode
    case SetKey(AppMode, value) =>
      var mode := if value == Str(ALLOWLIST) then Allowlist else Open;
      && q.on == p.on && q.kiosk == p.kiosk
      && Fold(mode, p.kiosk, q.allowed) == Fold(mode, p.kiosk, p.allowed)
    case SetKey(Other(_), _) => q == p
    case Approve(pkg) =>
      && q.on == p.on && q.kiosk == p.kiosk && q.mode == p.mode
      && q.allowed - {pkg} == p.allowed - {pkg}
  }

  /** An accepted write leaves a normal document that means what was asked for. */
  lemma AcceptedWrite(d: Doc, change: Change)
    requires Ha.IsNormal(d) && Ha.Validate(Merge(d, change)).Ok?
    ensures var after, q := Ha.Validate(Merge(d, change)).value, Changed(Ha.Meaning(d), change);
      WellTyped(change) && Safe(q) && after == Render(CodePoint, q) && Ha.IsNormal(after) && Ha.Meaning(after) == q
  {
    WriteOutcome(d, change);
    MergeMeans(d, change);
    Ha.AcceptedIsSafe(Merge(d, change));
    Ha.ReadsBack(CodePoint, Changed(Ha.Meaning(d), change));
  }

  lemma CoveredIff(p: Policy, first: Change, second: Change)
    requires Safe(p) && Safe(Changed(p, first)) && WellTyped(second)
    ensures Changed(Changed(p, first), second) == Changed(p, second) <==> Covers(p, first, second)
  {
    var q := Changed(p, first);
    var s, r := Changed(q, second), Changed(p, second);
    match second
    case SetKey(Flag(g), value) =>
      assert (if value == Bool(true) then q.on + {g} else q.on - {g}) - {g} == q.on - {g};
      assert (if value == Bool(true) then p.on + {g} else p.on - {g}) - {g} == p.on - {g};
      if q.on - {g} == p.on - {g} {
        assert q.on + {g} == (q.on - {g}) + {g} && p.on + {g} == (p.on - {g}) + {g};
      }
    case SetKey(KioskPackages, _) =>
    case SetKey(AllowedPackages, _) =>
    case SetKey(AppMode, _) =>
    case Approve(pkg) =>
      if pkg == DPC_PACKAGE {
        assert q.allowed - {pkg} == q.allowed && p.allowed - {pkg} == p.allowed;
        assert q.allowed + ({pkg} - {DPC_PACKAGE}) == q.allowed && p.allowed + ({pkg} - {DPC_PACKAGE}) == p.allowed;
      } else {
        assert {pkg} - {DPC_PACKAGE} == {pkg};
        assert (q.allowed + {pkg}) - {pkg} == q.allowed - {pkg} && (p.allowed + {pkg}) - {pkg} == p.allowed - {pkg};
        assert q.allowed + {pkg} == (q.allowed - {pkg}) + {pkg} && p.allowed + {pkg} == (p.allowed - {pkg}) + {pkg};
      }
  }

  /** Written over a first accepted write, the second gives the same document exactly when it asks for the same policy. */
  lemma SecondShowsIff(d: Doc, first: Change, second: Change)
    requires Ha.IsNormal(d) && Ha.Validate(Merge(d, first)).Ok? && Ha.Validate(Merge(d, second)).Ok?
    ensures var p := Ha.Meaning(d);
      Ha.Validate(Merge(d, second)) == BothApplied(d, first, second)
      <==> Changed(Changed(p, first), second) == Changed(p, second)
  {
    AcceptedWrite(d, first);
    AcceptedWrite(d, second);
    var d1 := Ha.Validate(Merge(d, first)).value;
    WriteOutcome(d, second);
    WriteOutcome(d1, second);
    if BothApplied(d, first, second).Ok? {
      AcceptedWrite(d1, second);
    }
  }

  /** The lost update, exactly: both writes survive an overlap if and only if the second covers the first. */
  lemma OverlappingWritesSurviveIff(c: Core, w: Overlap)
    requires Overlaps(c, w) && Ha.IsNormal(c.belief.desired)
    ensures Ok(Run(c, OverlapEvents(w)).belief.desired) == BothApplied(c.belief.desired, w.first, w.second)
      <==> Covers(Ha.Meaning(c.belief.desired), w.first, w.second)
  {
    var d := c.belief.desired;
    OverlapKeepsOnlyTheSecond(c, w);
    SecondShowsIff(d, w.first, w.second);
    AcceptedWrite(d, w.first);
    AcceptedWrite(d, w.second);
    Ha.NormalIsSafe(d);
    CoveredIff(Ha.Meaning(d), w.first, w.second);
  }

  /** For two flags: both survive exactly when they are the same flag or the first asked for nothing new. */
  lemma OverlappingFlagWritesSurviveIff(c: Core, w: Overlap, f: Flag, a: bool, g: Flag, b: bool)
    requires Overlaps(c, w) && Ha.IsNormal(c.belief.desired)
    requires w.first == SetKey(Flag(f), Bool(a)) && w.second == SetKey(Flag(g), Bool(b))
    ensures var d := c.belief.desired;
      Flag(f) in d &&
      (Run(c, OverlapEvents(w)).belief.desired == d[Flag(f) := Bool(a)][Flag(g) := Bool(b)]
       <==> f == g || d[Flag(f)] == Bool(a))
  {
    var d := c.belief.desired;
    OverlapKeepsOnlyTheSecond(c, w);
    FlagWriteChangesOneKey(d, g, b);
    NormalIsComplete(d);
    FirstUpdateShowsIff(d, Flag(f), Bool(a), Flag(g), Bool(b));
  }

  lemma FirstUpdateShowsIff(d: Doc, k: Key, x: Json, l: Key, y: Json)
    requires k in d
    ensures d[l := y] == d[k := x][l := y] <==> k == l || d[k] == x
  {
    var kept, both := d[l := y], d[k := x][l := y];
    if k == l || d[k] == x {
      assert kept == both;
    } else {
      assert kept[k] != both[k];
    }
  }
}

/**
 * Home Assistant, the tablet and the network between them. Requests can be
 * lost, delayed or answered too late; any status document the tablet ever
 * produced may still arrive, any number of times; the tablet's process can die
 * with store writes that had not reached its disk.
 */
module Replication {
  import opened Wrappers
  import opened Ordering
  import opened PolicyDocument
  import opened Coordinator
  import opened CoordinatorRuns
  import opened TabletView
  import opened ValidatorAgreement
  import W = Writes
  import T = EnforcementRuns
  import Ha = HaValidator
  import Dpc = DpcCodec

  datatype World = World(
    core: Core,
    tablet: Tablet,
    puts: map<nat, Push>,         // PUT requests still on their way
    answers: map<nat, Report>,    // answers to delivered PUTs
    reports: set<Report>)         // every status document the tablet has produced

  datatype Move =
    | Coordinate(event: Event)
    | Deliver(id: nat, answer: Report)
    | LosePut(id: nat)
    | Restarted                   // the service starts again in a process that lived on
    | Flushed(writes: nat)        // the oldest queued store writes reach the disk
    | Died                        // the process dies and starts again from the disk
    | Produce(report: Report)

  /** A status document this tablet would produce in this state. */
  predicate Genuine(deviceId: string, tablet: Tablet, r: Report) {
    r.deviceId == deviceId && r.version == Memory(tablet).version && r.policy == ToJson(PolicyOn(tablet))
  }

  function TabletAfter(w: World, id: nat): Tablet
    requires id in w.puts
  {
    Receive(w.tablet, w.puts[id].doc, w.puts[id].version)
  }

  /** Messages reach the coordinator only if the tablet sent them. */
  predicate Legal(w: World, m: Move) {
    match m
    case Coordinate(FetchAnswered(_, r)) => r in w.reports
    case Coordinate(ProbeAnswered(_, r)) => r in w.reports
    case Coordinate(Reported(r)) => r in w.reports
    case Coordinate(PushAcked(r)) =>
      w.core.lock.holder.Some? && w.core.lock.holder.value.id in w.answers
      && w.answers[w.core.lock.holder.value.id] == r
    case Coordinate(_) => true
    case Deliver(id, answer) => id in w.puts && Genuine(w.core.deviceId, TabletAfter(w, id), answer)
    case LosePut(_) => true
    case Restarted => true
    case Flushed(k) => k <= |w.tablet.unflushed|
    case Died => true
    case Produce(r) => Genuine(w.core.deviceId, w.tablet, r)
  }

  function Sent(before: Core, after: Core, puts: map<nat, Push>): map<nat, Push> {
    if before.lock.holder.None? && after.lock.holder.Some?
    then puts[after.lock.holder.value.id := after.lock.holder.value] else puts
  }

  function Advance(w: World, m: Move): World
    requires Legal(w, m)
  {
    match m
    case Coordinate(e) =>
      var core := Next(w.core, e);
      w.(core := core, puts := Sent(w.core, core, w.puts))
    case Deliver(id, answer) =>
      w.(tablet := TabletAfter(w, id), puts := w.puts - {id},
         answers := w.answers[id := answer], reports := w.reports + {answer})
    case LosePut(id) => w.(puts := w.puts - {id})
    case Restarted => w.(tablet := Restart(w.tablet))
    case Flushed(k) => w.(tablet := Flush(w.tablet, k))
    case Died => w.(tablet := Die(w.tablet))
    case Produce(r) => w.(reports := w.reports + {r})
  }

  predicate Moves(before: World, m: Move, after: World) { Legal(before, m) && after == Advance(before, m) }

  /** Any interleaving: the worlds passed through, one legal move at a time. */
  ghost predicate Behaviour(ws: seq<World>, ms: seq<Move>) {
    |ws| == |ms| + 1 && forall i :: 0 <= i < |ms| ==> Moves(ws[i], ms[i], ws[i + 1])
  }

  // ----- every document everywhere is safe and understood ----------------------------------

  /** Normal documents at home and on the wire, and reports Home Assistant can own. */
  ghost predicate Understood(w: World) {
    && AllNormal(w.core)
    && (forall id :: id in w.puts ==> Ha.IsNormal(w.puts[id].doc))
    && (forall r :: r in w.reports ==> Ha.Validate(r.policy).Ok?)
  }

  lemma GenuineIsUnderstood(deviceId: string, tablet: Tablet, r: Report)
    requires Genuine(deviceId, tablet, r)
    ensures Ha.Validate(r.policy).Ok?
  {
    T.ReadBackIsProducible(Memory(tablet).policy);
    HaAcceptsStored(PolicyOn(tablet));
  }

  lemma CoordinatorUnderstood(w: World, e: Event)
    requires Understood(w) && Legal(w, Coordinate(e))
    ensures Understood(Advance(w, Coordinate(e)))
  {
    hide Next, Ha.Validate, PolicyOn, Receive;
    NextKeepsNormal(w.core, e);
    var core := Next(w.core, e);
    var puts := Sent(w.core, core, w.puts);
    forall id | id in puts ensures Ha.IsNormal(puts[id].doc) {
      assert id in w.puts || puts[id] == core.lock.holder.value;
    }
  }

  lemma DeliverUnderstood(w: World, id: nat, answer: Report)
    requires Understood(w) && Legal(w, Deliver(id, answer))
    ensures Understood(Advance(w, Deliver(id, answer)))
  {
    hide Receive, PolicyOn, Ha.Validate, ToJson;
    GenuineIsUnderstood(w.core.deviceId, TabletAfter(w, id), answer);
    var after := Advance(w, Deliver(id, answer));
    assert after.core == w.core && after.reports == w.reports + {answer} && after.puts == w.puts - {id};
  }

  lemma AdvanceUnderstood(w: World, m: Move)
    requires Understood(w) && Legal(w, m)
    ensures Understood(Advance(w, m))
  {
    match m
    case Coordinate(e) => CoordinatorUnderstood(w, e);
    case Deliver(id, answer) => DeliverUnderstood(w, id, answer);
    case Produce(r) => GenuineIsUnderstood(w.core.deviceId, w.tablet, r);
    case _ =>
  }

  lemma {:induction false} StaysUnderstood(ws: seq<World>, ms: seq<Move>, n: nat)
    requires Behaviour(ws, ms) && n < |ws| && Understood(ws[0])
    ensures Understood(ws[n])
  {
    hide Understood, Advance, Legal;
    if n > 0 {
      StaysUnderstood(ws, ms, n - 1);
      assert Moves(ws[n - 1], ms[n - 1], ws[n]);
      AdvanceUnderstood(ws[n - 1], ms[n - 1]);
    }
  }

  function FreshWorld(deviceId: string, host: string, clock: real, tablet: Tablet): World {
    World(Initial(deviceId, host, clock), tablet, map[], map[], {})
  }

  /**
   * From a fresh session, whatever the tablet held, writes and profiles
   * included: at every moment what Home Assistant desires, what is on the wire
   * and what the tablet holds, in force or on disk, are safe; the tablet will refuse no PUT; and
   * adoption never has to replace the tablet's policy by defaults.
   */
  lemma SafeEverywhereAlways(
    ws: seq<World>, ms: seq<Move>, n: nat, deviceId: string, host: string, clock: real, tablet: Tablet)
    requires Behaviour(ws, ms) && n < |ws| && ws[0] == FreshWorld(deviceId, host, clock, tablet)
    ensures Safe(Ha.Meaning(ws[n].core.belief.desired))
    ensures Safe(PolicyOf(PolicyOn(ws[n].tablet))) && Safe(PolicyOf(PolicyOnDisk(ws[n].tablet)))
    ensures forall id :: id in ws[n].puts ==> Safe(Ha.Meaning(ws[n].puts[id].doc)) && Dpc.Decode(ws[n].puts[id].doc).Ok?
    ensures forall r :: r in ws[n].reports ==> Ha.Validate(r.policy).Ok?
  {
    Ha.DefaultIsNormal();
    StaysUnderstood(ws, ms, n);
    Ha.NormalIsSafe(ws[n].core.belief.desired);
    T.ReadBackIsProducible(Memory(ws[n].tablet).policy);
    T.ReadBackIsProducible(ws[n].tablet.disk.policy);
    forall id | id in ws[n].puts
      ensures Safe(Ha.Meaning(ws[n].puts[id].doc)) && Dpc.Decode(ws[n].puts[id].doc).Ok?
    {
      Ha.NormalIsSafe(ws[n].puts[id].doc);
      TabletAcceptsNormal(ws[n].puts[id].doc);
    }
  }

  // ----- convergence ------------------------------------------------------------------------------

  /** Everything that happens without an operator: no write, no profile, no second setup. */
  predicate Unattended(m: Move) {
    match m
    case Coordinate(StartFetch(_, purpose)) => purpose.Poll?
    case Coordinate(Write(_, _)) => false
    case Coordinate(ApplyAction(_)) => false
    case _ => true
  }

  /** The coordinator's half of convergence. */
  ghost predicate Agrees(c: Core, d: Doc) {
    && c.belief.known && W.OnlyPolls(c) && c.belief.desired == d
    && (forall q :: q in c.lock.waiting ==> q == d)
    && (c.lock.holder.Some? ==> c.lock.holder.value.doc == d)
  }

  lemma GrantAgrees(c: Core, d: Doc)
    requires Agrees(c, d)
    ensures Agrees(Grant(c), d)
  {
    var queue := c.lock.waiting;
    if queue != [] {
      assert queue[0] in queue;
      forall q | q in queue[1..] ensures q == d {
        assert q in queue;
      }
    }
  }

  lemma ReconcileAgrees(c: Core)
    requires Agrees(c, c.belief.desired) && Ha.IsNormal(c.belief.desired)
    ensures Agrees(Next(c, RunReconcile), c.belief.desired)
  {
    hide Ha.Validate;
  }

  lemma CoordinatorStaysConverged(c: Core, e: Event)
    requires Agrees(c, c.belief.desired) && Ha.IsNormal(c.belief.desired) && Unattended(Coordinate(e))
    ensures Agrees(Next(c, e), c.belief.desired)
  {
    if W.Quiet(e) {
      W.QuietStep(c, e);
    } else {
      match e
      case RunReconcile => ReconcileAgrees(c);
      case TakeLock => GrantAgrees(c, c.belief.desired);
      case PushAcked(r) => W.AnswerKeeps(c, e);
      case PushFailed => W.AnswerKeeps(c, e);
    }
  }

  /** Whatever the tablet holds, everything queued, held or on the wire is the desired policy. */
  ghost predicate OnItsWay(w: World, d: Doc) {
    Agrees(w.core, d) && Ha.IsNormal(d) && forall id :: id in w.puts ==> w.puts[id].doc == d
  }

  /** Moreover the tablet enforces it. */
  ghost predicate Converged(w: World, d: Doc) { OnItsWay(w, d) && Dpc.Decode(d) == Ok(PolicyOn(w.tablet)) }

  /** Moreover no death can bring another policy back. */
  ghost predicate Settled(w: World, d: Doc) { Converged(w, d) && Durable(w.tablet) }

  /** The process dies while its disk still holds another policy. */
  predicate Loses(w: World, m: Move) { m.Died? && PolicyOnDisk(w.tablet) != PolicyOn(w.tablet) }

  /** Left alone, pushes keep carrying the desired policy, whatever happens to the tablet. */
  lemma AdvanceStaysOnItsWay(w: World, m: Move, d: Doc)
    requires OnItsWay(w, d) && Unattended(m) && Legal(w, m)
    ensures OnItsWay(Advance(w, m), d)
  {
    if m.Coordinate? {
      CoordinatorStaysConverged(w.core, m.event);
    }
    hide Next, Ha.Validate, Receive, Restart, PolicyOn, Die;
  }

  /** A converged pair stays converged through every move but a death that loses the policy. */
  lemma AdvanceStaysConvergedIff(w: World, m: Move, d: Doc)
    requires Converged(w, d) && Unattended(m) && Legal(w, m)
    ensures Converged(Advance(w, m), d) <==> !Loses(w, m)
  {
    AdvanceStaysOnItsWay(w, m, d);
    hide OnItsWay, Next, PolicyOn, Receive, Restart, Die, Flush, Ha.Validate;
    match m
    case Deliver(id, _) => DeliveredIsStored(w, id, d);
    case Restarted => RestartKeepsPolicy(w.tablet);
    case Flushed(k) => SamePolicyAfterFlush(w.tablet, k);
    case Died => DeathReadsDisk(w.tablet);
    case _ =>
  }

  lemma SamePolicyAfterFlush(t: Tablet, k: nat)
    requires k <= |t.unflushed|
    ensures PolicyOn(Flush(t, k)) == PolicyOn(t)
  {
    FlushKeepsPolicy(t, k);
  }

  lemma DeliveredIsStored(w: World, id: nat, d: Doc)
    requires OnItsWay(w, d) && id in w.puts
    ensures Dpc.Decode(d) == Ok(PolicyOn(TabletAfter(w, id)))
  {
    ReceivedIsStored(w.tablet, d, w.puts[id].version);
  }

  lemma AdvanceStaysSettled(w: World, m: Move, d: Doc)
    requires Settled(w, d) && Unattended(m) && Legal(w, m)
    ensures Settled(Advance(w, m), d) && !Loses(w, m)
  {
    AdvanceStaysConvergedIff(w, m, d);
    assert !Loses(w, m);
    match m
    case Deliver(id, _) => ReceiveStaysDurable(w.tablet, d, w.puts[id].version);
    case Restarted => RestartStaysDurable(w.tablet);
    case Flushed(k) => FlushStaysDurable(w.tablet, k);
    case Died => RestartStaysDurable(w.tablet);
    case _ =>
  }

  /** A converged pair is settled as soon as the queued writes are on disk. */
  lemma FlushSettles(w: World, d: Doc)
    requires Converged(w, d)
    ensures Legal(w, Flushed(|w.tablet.unflushed|)) && Settled(Advance(w, Flushed(|w.tablet.unflushed|)), d)
  {
    AdvanceStaysConvergedIff(w, Flushed(|w.tablet.unflushed|), d);
    FlushStaysDurable(w.tablet, |w.tablet.unflushed|);
  }

  /**
   * Once settled, always settled: no sequence of polls, stale or delayed
   * reports, drift re-pushes, lost or late requests, deaths, restarts or
   * relocations changes either side's policy, at any moment.
   */
  lemma {:induction false} ConvergenceIsClosed(ws: seq<World>, ms: seq<Move>, i: nat, n: nat, d: Doc)
    requires Behaviour(ws, ms) && i <= n < |ws| && Settled(ws[i], d)
    requires forall m :: m in ms ==> Unattended(m)
    ensures Settled(ws[n], d) && NothingLost(ws, ms, i, n)
    decreases n - i
  {
    hide Settled, Advance, Legal, Unattended, Loses;
    if n > i {
      ConvergenceIsClosed(ws, ms, i, n - 1, d);
      assert Moves(ws[n - 1], ms[n - 1], ws[n]);
      AdvanceStaysSettled(ws[n - 1], ms[n - 1], d);
    }
  }

  ghost predicate Lasts(ws: seq<World>, i: nat, n: nat, d: Doc)
    requires n < |ws|
  {
    forall k :: i <= k <= n ==> Converged(ws[k], d)
  }

  predicate NothingLost(ws: seq<World>, ms: seq<Move>, i: nat, n: nat)
    requires n < |ws| == |ms| + 1
  {
    forall k :: i <= k < n ==> !Loses(ws[k], ms[k])
  }

  /**
   * Converged but not yet on disk: left alone, the pair stays converged at
   * every moment exactly while no death finds another policy on the disk.
   */
  lemma {:induction false} ConvergenceLastsIff(ws: seq<World>, ms: seq<Move>, i: nat, n: nat, d: Doc)
    requires Behaviour(ws, ms) && i <= n < |ws| && Converged(ws[i], d)
    requires forall m :: m in ms ==> Unattended(m)
    ensures Lasts(ws, i, n, d) <==> NothingLost(ws, ms, i, n)
    decreases n - i
  {
    hide Converged, Advance, Legal, Unattended, Loses;
    if n > i {
      ConvergenceLastsIff(ws, ms, i, n - 1, d);
      assert Moves(ws[n - 1], ms[n - 1], ws[n]);
      if Converged(ws[n - 1], d) {
        AdvanceStaysConvergedIff(ws[n - 1], ms[n - 1], d);
      }
    }
  }

  lemma {:induction false} StaysOnItsWay(ws: seq<World>, ms: seq<Move>, i: nat, n: nat, d: Doc)
    requires Behaviour(ws, ms) && i <= n < |ws| && OnItsWay(ws[i], d)
    requires forall m :: m in ms ==> Unattended(m)
    ensures OnItsWay(ws[n], d)
    decreases n - i
  {
    hide OnItsWay, Advance, Legal, Unattended;
    if n > i {
      StaysOnItsWay(ws, ms, i, n - 1, d);
      assert Moves(ws[n - 1], ms[n - 1], ws[n]);
      AdvanceStaysOnItsWay(ws[n - 1], ms[n - 1], d);
    }
  }

  // ----- what counts as drift ----------------------------------------------------------------------

  /**
   * What the tablet reports is drift exactly when it enforces another policy
   * than the desired one, although the two sides sort names their own way.
   */
  lemma StatusIsDriftIff(b: Belief, deviceId: string, tablet: Tablet, r: Report)
    requires Ha.IsNormal(b.desired) && Genuine(deviceId, tablet, r)
    ensures Drifted(b, r) <==> Dpc.Decode(b.desired) != Ok(PolicyOn(tablet))
    ensures !Drifted(b, r) ==> Ha.Validate(r.policy) == Ok(b.desired)
  {
    var on := PolicyOn(tablet);
    T.ReadBackIsProducible(Memory(tablet).policy);
    AdoptThenPush(on);
    PushThenReport(b.desired);
  }

  /** A restarted tablet whose disk held another policy reports drift, and no other restarted tablet does. */
  lemma LostPushIsDriftIff(w: World, d: Doc, r: Report)
    requires Converged(w, d) && Genuine(w.core.deviceId, Die(w.tablet), r)
    ensures Drifted(w.core.belief, r) <==> Loses(w, Died)
  {
    hide Restart, Die, PolicyOn;
    DeathReadsDisk(w.tablet);
    StatusIsDriftIff(w.core.belief, w.core.deviceId, Die(w.tablet), r);
  }

  /**
   * A PUT given up on may still arrive, after later ones were acknowledged.
   * Every status from then on is drift exactly when it carried another policy
   * than the desired one.
   */
  lemma LatePutIsDriftIff(b: Belief, deviceId: string, tablet: Tablet, doc: Doc, version: int, r: Report)
    requires Ha.IsNormal(doc) && Genuine(deviceId, Receive(tablet, doc, version), r)
    ensures Drifted(b, r) <==> doc != b.desired
  {
    ReceivedIsStored(tablet, doc, version);
    PushThenReport(doc);
  }

  // ----- no push loop ------------------------------------------------------------------------------

  /** Status documents already produced that do not agree with Home Assistant; they may arrive at any time. */
  function Disagreeing(w: World, d: Doc): set<Report> {
    set r | r in w.reports && Ha.Validate(r.policy) != Ok(d)
  }

  /** The move brings one of these to the coordinator as a status. */
  predicate BringsOneOf(m: Move, rs: set<Report>) {
    match m
    case Coordinate(FetchAnswered(_, r)) => r in rs
    case Coordinate(ProbeAnswered(_, r)) => r in rs
    case Coordinate(Reported(r)) => r in rs
    case _ => false
  }

  function Arrivals(ms: seq<Move>, rs: set<Report>): nat {
    if ms == [] then 0 else Arrivals(ms[..|ms| - 1], rs) + if BringsOneOf(ms[|ms| - 1], rs) then 1 else 0
  }

  lemma {:induction false} ArrivalsGrow(ms: seq<Move>, rs: set<Report>, more: set<Report>)
    requires rs <= more
    ensures Arrivals(ms, rs) <= Arrivals(ms, more)
    decreases |ms|
  {
    if ms != [] {
      ArrivalsGrow(ms[..|ms| - 1], rs, more);
    }
  }

  /** Pushes sent, queued for the lock or launched since the session began. */
  function PushesDue(c: Core): nat { c.lock.nextPush + |c.lock.waiting| + c.repair.launched }

  /** One event makes at most one more push due, and only on a report that disagrees. */
  lemma EventMakesPushesDue(c: Core, e: Event)
    requires Agrees(c, c.belief.desired) && Unattended(Coordinate(e))
    ensures PushesDue(Next(c, e)) <= PushesDue(c) +
      match e {
        case FetchAnswered(_, r) => if Drifted(c.belief, r) then 1 else 0
        case ProbeAnswered(_, r) => if Drifted(c.belief, r) then 1 else 0
        case Reported(r) => if Drifted(c.belief, r) then 1 else 0
        case _ => 0
      }
  {
    hide Ha.Validate;
  }

  lemma AdvanceMakesPushesDue(w: World, m: Move, d: Doc)
    requires OnItsWay(w, d) && Unattended(m) && Legal(w, m)
    ensures Disagreeing(w, d) <= Disagreeing(Advance(w, m), d)
    ensures PushesDue(Advance(w, m).core) <= PushesDue(w.core) + if BringsOneOf(m, Disagreeing(w, d)) then 1 else 0
  {
    if m.Coordinate? {
      EventMakesPushesDue(w.core, m.event);
    }
    hide Next, Receive, Restart, Die, PolicyOn;
  }

  /** While the pair is converged, the tablet produces nothing that disagrees. */
  lemma AdvanceAgrees(w: World, m: Move, d: Doc)
    requires Converged(w, d) && Unattended(m) && Legal(w, m)
    ensures Disagreeing(Advance(w, m), d) == Disagreeing(w, d)
  {
    match m
    case Deliver(id, answer) =>
      DeliveredIsStored(w, id, d);
      hide Receive, PolicyOn;
      StatusIsDriftIff(w.core.belief, w.core.deviceId, TabletAfter(w, id), answer);
    case Produce(r) => StatusIsDriftIff(w.core.belief, w.core.deviceId, w.tablet, r);
    case _ =>
  }

  /**
   * No push loop. In any behaviour without an operator, from any world whose
   * pushes carry the desired policy, each push made due is the arrival of a
   * report that disagrees; and while a converged pair loses nothing, the
   * reports that disagree are the ones that were stale when it converged:
   * nothing the tablet produces since causes a push.
   */
  lemma {:induction false} PushesNeedStaleReports(ws: seq<World>, ms: seq<Move>, i: nat, n: nat, d: Doc)
    requires Behaviour(ws, ms) && i <= n < |ws| && OnItsWay(ws[i], d)
    requires forall m :: m in ms ==> Unattended(m)
    ensures PushesDue(ws[n].core) <= PushesDue(ws[i].core) + Arrivals(ms[i..n], Disagreeing(ws[n], d))
    ensures Converged(ws[i], d) && NothingLost(ws, ms, i, n) ==> Disagreeing(ws[n], d) == Disagreeing(ws[i], d)
    decreases n - i
  {
    hide Converged, OnItsWay, Advance, Legal, Unattended, PushesDue, Ha.Validate, Disagreeing, Loses, BringsOneOf;
    if n > i {
      PushesNeedStaleReports(ws, ms, i, n - 1, d);
      assert Moves(ws[n - 1], ms[n - 1], ws[n]);
      StaysOnItsWay(ws, ms, i, n - 1, d);
      AdvanceMakesPushesDue(ws[n - 1], ms[n - 1], d);
      var before, after := Disagreeing(ws[n - 1], d), Disagreeing(ws[n], d);
      assert ms[i..n][..n - i - 1] == ms[i..n - 1] && ms[i..n][n - i - 1] == ms[n - 1];
      ArrivalsGrow(ms[i..n - 1], before, after);
      BringsMore(ms[n - 1], before, after);
      if Converged(ws[i], d) && NothingLost(ws, ms, i, n) {
        ConvergenceLastsIff(ws, ms, i, n - 1, d);
        assert Converged(ws[n - 1], d);
        AdvanceAgrees(ws[n - 1], ms[n - 1], d);
      }
    }
  }

  lemma BringsMore(m: Move, rs: set<Report>, more: set<Report>)
    requires rs <= more
    ensures BringsOneOf(m, rs) ==> BringsOneOf(m, more)
  {
  }

  /** Nothing queued, launched or on the wire, and nobody holds the lock. */
  predicate AtRest(w: World) {
    w.core.lock.holder.None? && w.core.lock.waiting == [] && w.core.repair.launched == 0 && w.puts == map[]
  }

  /** At rest, an event without a disagreeing report launches, queues and sends nothing. */
  lemma AdvanceStaysAtRest(w: World, m: Move, d: Doc)
    requires OnItsWay(w, d) && AtRest(w)
    requires Unattended(m) && Legal(w, m) && !BringsOneOf(m, Disagreeing(w, d))
    ensures AtRest(Advance(w, m)) && Advance(w, m).core.lock == w.core.lock
  {
    if m.Coordinate? {
      RestLasts(w, m.event, d);
    }
    hide Next, Ha.Validate, Receive, PolicyOn, Restart, Die;
  }

  lemma RestLasts(w: World, e: Event, d: Doc)
    requires OnItsWay(w, d) && AtRest(w)
    requires Unattended(Coordinate(e)) && Legal(w, Coordinate(e)) && !BringsOneOf(Coordinate(e), Disagreeing(w, d))
    ensures Next(w.core, e).repair == w.core.repair
    ensures Next(w.core, e).lock == w.core.lock
  {
    hide Ha.Validate;
  }

  /**
   * In particular, converged at rest, with nothing lost and none of the stale
   * reports arriving: no lock taken, no PUT sent, at any later moment.
   */
  lemma {:induction false} SettledSendsNothing(ws: seq<World>, ms: seq<Move>, i: nat, n: nat, d: Doc)
    requires Behaviour(ws, ms) && i <= n < |ws| && Converged(ws[i], d) && AtRest(ws[i])
    requires forall m :: m in ms ==> Unattended(m)
    requires NothingLost(ws, ms, i, n) && forall m :: m in ms[i..n] ==> !BringsOneOf(m, Disagreeing(ws[i], d))
    ensures Converged(ws[n], d) && AtRest(ws[n]) && ws[n].core.lock == ws[i].core.lock
    decreases n - i
  {
    hide AtRest, Advance, Legal, Unattended, Disagreeing, PushesDue, Arrivals, Loses, BringsOneOf, OnItsWay;
    assert OnItsWay(ws[i], d);
    hide Converged;
    ConvergenceLastsIff(ws, ms, i, n, d);
    if n > i {
      assert forall m :: m in ms[i..n - 1] ==> m in ms[i..n];
      SettledSendsNothing(ws, ms, i, n - 1, d);
      PushesNeedStaleReports(ws, ms, i, n - 1, d);
      StaysOnItsWay(ws, ms, i, n - 1, d);
      assert Moves(ws[n - 1], ms[n - 1], ws[n]);
      assert ms[n - 1] == ms[i..n][n - i - 1];
      AdvanceStaysAtRest(ws[n - 1], ms[n - 1], d);
    }
  }
}

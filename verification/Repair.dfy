/** How a drifted tablet is brought back, and a push the tablet acknowledged and lost. */
module Repair {
  import opened Wrappers
  import opened Ordering
  import opened PolicyDocument
  import opened Coordinator
  import opened TabletView
  import opened Replication
  import W = Writes
  import Ha = HaValidator
  import Dpc = DpcCodec

  // ----- one delivery converges the pair ----------------------------------------------------

  lemma DeliveryConvergesNow(w: World, id: nat, answer: Report, d: Doc)
    requires OnItsWay(w, d) && Legal(w, Deliver(id, answer))
    ensures Converged(Advance(w, Deliver(id, answer)), d) && Ha.Validate(answer.policy) == Ok(d)
  {
    AdvanceStaysOnItsWay(w, Deliver(id, answer), d);
    DeliveredIsStored(w, id, d);
    hide Receive, PolicyOn;
    StatusIsDriftIff(w.core.belief, w.core.deviceId, TabletAfter(w, id), answer);
  }

  /**
   * In any behaviour without an operator, from any world whose pushes all
   * carry the desired policy, one delivery of any of them converges the pair;
   * it stays so at every later moment exactly while no death finds another
   * policy on the disk.
   */
  lemma DeliveryConverges(ws: seq<World>, ms: seq<Move>, i: nat, n: nat, d: Doc)
    requires Behaviour(ws, ms) && i < n < |ws| && OnItsWay(ws[0], d)
    requires forall m :: m in ms ==> Unattended(m)
    requires ms[i].Deliver?
    ensures Converged(ws[i + 1], d) && Ha.Validate(ms[i].answer.policy) == Ok(d)
    ensures Lasts(ws, i + 1, n, d) <==> NothingLost(ws, ms, i + 1, n)
  {
    hide OnItsWay, Converged, Unattended, Loses, Lasts, NothingLost, Ha.Validate;
    StaysOnItsWay(ws, ms, 0, i, d);
    assert Moves(ws[i], ms[i], ws[i + 1]);
    DeliveryConvergesNow(ws[i], ms[i].id, ms[i].answer, d);
    hide Advance, Legal;
    ConvergenceLastsIff(ws, ms, i + 1, n, d);
  }

  /** An answer on file was put there by a delivery. */
  lemma {:induction false} AnswerWasDelivered(ws: seq<World>, ms: seq<Move>, n: nat, id: nat) returns (i: nat)
    requires Behaviour(ws, ms) && n < |ws| && id in ws[n].answers && id !in ws[0].answers
    ensures i < n && ms[i] == Deliver(id, ws[n].answers[id])
  {
    assert Moves(ws[n - 1], ms[n - 1], ws[n]);
    if ms[n - 1].Deliver? && ms[n - 1].id == id {
      i := n - 1;
    } else {
      hide Next, Receive, Restart, Die, PolicyOn;
      assert id in ws[n - 1].answers && ws[n - 1].answers[id] == ws[n].answers[id];
      i := AnswerWasDelivered(ws, ms, n - 1, id);
    }
  }

  /**
   * Repair in one round: from any world whose pushes all carry the desired
   * policy, with anything at all in between, one acknowledged PUT that was not
   * answered before means that the pair converged at its delivery i, and it
   * stays converged exactly while no death loses the policy. Whatever else
   * happens, every push still carries it, so another round repairs a loss.
   */
  lemma DriftIsRepairedInOneRound(ws: seq<World>, ms: seq<Move>, j: nat, n: nat, d: Doc, answer: Report)
    returns (i: nat)
    requires Behaviour(ws, ms) && j < n < |ws| && OnItsWay(ws[0], d)
    requires forall m :: m in ms ==> Unattended(m)
    requires ms[j] == Coordinate(PushAcked(answer)) && ws[j].core.lock.holder.Some?
    requires ws[j].core.lock.holder.value.id !in ws[0].answers
    ensures i < j && ms[i] == Deliver(ws[j].core.lock.holder.value.id, answer)
    ensures Converged(ws[i + 1], d) && Ha.Validate(answer.policy) == Ok(d)
    ensures Lasts(ws, i + 1, n, d) <==> NothingLost(ws, ms, i + 1, n)
    ensures OnItsWay(ws[n], d)
  {
    assert Moves(ws[j], ms[j], ws[j + 1]);
    assert Legal(ws[j], Coordinate(PushAcked(answer)));
    hide Advance, OnItsWay, Converged, Unattended, Lasts, NothingLost, Ha.Validate;
    i := AnswerWasDelivered(ws, ms, j, ws[j].core.lock.holder.value.id);
    DeliveryConverges(ws, ms, i, n, d);
    StaysOnItsWay(ws, ms, 0, n, d);
  }

  // ----- one push alone ---------------------------------------------------------------------

  /** One push under way, nothing behind it. */
  ghost predicate OnePush(w: World) {
    && w.core.belief.known && W.OnlyPolls(w.core) && w.core.repair.launched == 0
    && w.core.lock.holder.Some? && w.core.lock.waiting == []
    && var push := w.core.lock.holder.value; Ha.IsNormal(push.doc) && w.puts == map[push.id := push]
  }

  /** Delivered and acknowledged, any push, a write or a repair, leaves the pair converged on its document, at rest. */
  lemma AcknowledgedPushConverges(w: World, answer: Report)
    requires OnePush(w) && Legal(w, Deliver(w.core.lock.holder.value.id, answer))
    ensures var push := w.core.lock.holder.value;
      var delivered := Advance(w, Deliver(push.id, answer));
      && Legal(delivered, Coordinate(PushAcked(answer)))
      && var after := Advance(delivered, Coordinate(PushAcked(answer)));
        && Converged(after, push.doc) && AtRest(after)
  {
    hide Ha.Validate;
    var push := w.core.lock.holder.value;
    var delivered := Advance(w, Deliver(push.id, answer));
    ReceivedIsStored(w.tablet, push.doc, push.version);
    hide Receive, PolicyOn;
    assert delivered.core == w.core && delivered.puts == map[] && push.id in delivered.answers;
    W.AnswerKeeps(delivered.core, PushAcked(answer));
  }

  // ----- the round a drifted report starts --------------------------------------------------

  /** The event brings this report: a webhook report for this tablet, or the answer to a poll, wherever it is now. */
  predicate Brings(c: Core, news: Event, r: Report) {
    match news
    case Reported(q) => q == r && r.deviceId == c.deviceId
    case FetchAnswered(id, q) => q == r && AwaitsAnswer(c, id)
    case ProbeAnswered(id, q) => q == r && AwaitsProbe(c, id) && r.deviceId == c.deviceId
    case _ => false
  }

  /** A drifted report arrives while the lock is free and outside the interval. */
  ghost predicate DriftArrives(w: World, news: Event, drifted: Report) {
    && w.core.lock.holder.None? && w.core.data.Some?
    && drifted in w.reports && Brings(w.core, news, drifted) && Drifted(w.core.belief, drifted)
    && Elapsed(w.core.repair.last, w.core.clock, RECONCILE_MIN_INTERVAL)
  }

  /** The round: the drifted report, the re-push, its delivery, its acknowledgement. */
  function RepairRound(w: World, news: Event, answer: Report): seq<Move> {
    [ Coordinate(news), Coordinate(RunReconcile), Coordinate(TakeLock),
      Deliver(w.core.lock.nextPush, answer), Coordinate(PushAcked(answer)) ]
  }

  lemma DriftedReportLaunches(w: World, news: Event, drifted: Report)
    requires W.OnlyPolls(w.core) && w.core.belief.known && DriftArrives(w, news, drifted)
    ensures Legal(w, Coordinate(news)) && Unattended(Coordinate(news))
    ensures var w1 := Advance(w, Coordinate(news));
      && w1 == w.(core := w1.core)
      && w1.core.repair.launched == w.core.repair.launched + 1 && w1.core.lock == w.core.lock
  {
    hide Ha.Validate;
  }

  /** A launched re-push, once run, queues the desired policy behind whatever waits. */
  lemma ReconcileQueues(c: Core)
    requires c.repair.launched > 0 && Ha.IsNormal(c.belief.desired)
    ensures Next(c, RunReconcile) == c.(
      repair := c.repair.(launched := c.repair.launched - 1),
      lock := c.lock.(waiting := c.lock.waiting + [c.belief.desired]))
  {
  }

  lemma GrantSends(c: Core)
    requires c.lock.holder.None? && c.lock.waiting != []
    ensures Grant(c) == c.(lock := Lock(
      Some(Push(c.lock.nextPush, c.lock.waiting[0], c.belief.version + 1)), c.lock.waiting[1..], c.lock.nextPush + 1))
  {
  }

  /** The first three moves of the round: a push of the desired policy is on the wire. */
  lemma RepairStarts(w: World, news: Event, drifted: Report, d: Doc) returns (w1: World, w2: World, w3: World)
    requires OnItsWay(w, d) && DriftArrives(w, news, drifted)
    ensures Unattended(Coordinate(news))
    ensures Moves(w, Coordinate(news), w1) && Moves(w1, Coordinate(RunReconcile), w2) && Moves(w2, Coordinate(TakeLock), w3)
    ensures OnItsWay(w3, d) && w3.core.lock.holder.Some? && w3.core.lock.holder.value.id == w.core.lock.nextPush
    ensures w.core.lock.nextPush in w3.puts
    ensures AtRest(w) ==> OnePush(w3)
  {
    hide Ha.Validate;
    DriftedReportLaunches(w, news, drifted);
    w1 := Advance(w, Coordinate(news));
    AdvanceStaysOnItsWay(w, Coordinate(news), d);
    ReconcileQueues(w1.core);
    w2 := Advance(w1, Coordinate(RunReconcile));
    AdvanceStaysOnItsWay(w1, Coordinate(RunReconcile), d);
    GrantSends(w2.core);
    w3 := Advance(w2, Coordinate(TakeLock));
    AdvanceStaysOnItsWay(w2, Coordinate(TakeLock), d);
    hide Next, Drifted;
    var push := w3.core.lock.holder.value;
    assert w3.puts == w.puts[push.id := push];
    if AtRest(w) {
      assert ([] + [d])[1..] == [];
      assert w3.puts == map[push.id := push];
    }
  }

  /** Delivery and acknowledgement are legal for the answer the tablet gives, and finish the round. */
  lemma RoundCompletes(w: World, d: Doc) returns (answer: Report, w4: World, w5: World)
    requires OnItsWay(w, d) && w.core.lock.holder.Some? && w.core.lock.holder.value.id in w.puts
    ensures Moves(w, Deliver(w.core.lock.holder.value.id, answer), w4) && Moves(w4, Coordinate(PushAcked(answer)), w5)
    ensures Converged(w5, d)
    ensures OnePush(w) ==> AtRest(w5)
  {
    hide Ha.Validate;
    var id := w.core.lock.holder.value.id;
    var tablet := TabletAfter(w, id);
    hide Receive, PolicyOn;
    answer := Report(w.core.deviceId, Memory(tablet).version, ToJson(PolicyOn(tablet)), None, true, map[], {});
    assert Legal(w, Deliver(id, answer));
    if OnePush(w) {
      AcknowledgedPushConverges(w, answer);
    }
    hide OnePush;
    DeliveryConvergesNow(w, id, answer, d);
    w4 := Advance(w, Deliver(id, answer));
    assert id in w4.answers && w4.core == w.core;
    AdvanceStaysConvergedIff(w4, Coordinate(PushAcked(answer)), d);
    w5 := Advance(w4, Coordinate(PushAcked(answer)));
  }

  /**
   * Nothing but loss can stop a drifted report from being repaired: from every
   * such world its round exists, converges the pair, and leaves it at rest if
   * it was at rest.
   */
  lemma RepairIsPossible(w: World, news: Event, drifted: Report, d: Doc)
    requires OnItsWay(w, d) && DriftArrives(w, news, drifted)
    ensures exists ws: seq<World>, answer: Report ::
      && |ws| == 6 && ws[0] == w && Behaviour(ws, RepairRound(w, news, answer))
      && Converged(ws[5], d) && (AtRest(w) ==> AtRest(ws[5]))
  {
    hide Moves, DriftArrives, Converged, OnItsWay, OnePush, AtRest;
    var w1, w2, w3 := RepairStarts(w, news, drifted, d);
    var answer, w4, w5 := RoundCompletes(w3, d);
    var ms := RepairRound(w, news, answer);
    var ws := [w, w1, w2, w3, w4, w5];
    assert Behaviour(ws, ms);
  }

  // ----- acknowledged, then lost at a restart ------------------------------------------------

  /** The tablet dies, reports what it came back to, and after the interval that report starts a round. */
  function LossAndRepair(w: World, r: Report, wait: real, answer: Report, writes: nat): seq<Move> {
    [ Died, Produce(r), Coordinate(Tick(wait)), Coordinate(Reported(r)), Coordinate(RunReconcile), Coordinate(TakeLock),
      Deliver(w.core.lock.nextPush, answer), Coordinate(PushAcked(answer)), Flushed(writes) ]
  }

  /** After a death that loses the policy, the tablet can report, and the report drifts. */
  lemma LossIsReported(w: World, d: Doc) returns (r: Report, w1: World, w2: World)
    requires Converged(w, d) && Loses(w, Died)
    ensures Moves(w, Died, w1) && Moves(w1, Produce(r), w2)
    ensures !Converged(w1, d) && OnItsWay(w2, d) && w2.core == w.core
    ensures r in w2.reports && r.deviceId == w.core.deviceId && Drifted(w.core.belief, r)
  {
    hide Receive, Restart, Die, PolicyOn, Ha.Validate, OnItsWay, Loses, Next, Sent, Drifted;
    w1 := Advance(w, Died);
    AdvanceStaysConvergedIff(w, Died, d);
    AdvanceStaysOnItsWay(w, Died, d);
    KnowsWhatItWants(w, d);
    r := Report(w.core.deviceId, Memory(w1.tablet).version, ToJson(PolicyOn(w1.tablet)), None, true, map[], {});
    LostPushIsDriftIff(w, d, r);
    w2 := Advance(w1, Produce(r));
    AdvanceStaysOnItsWay(w1, Produce(r), d);
  }

  lemma KnowsWhatItWants(w: World, d: Doc)
    requires OnItsWay(w, d)
    ensures w.core.belief.desired == d
  {
  }

  /** Once the interval is over, that report starts a round. */
  lemma IntervalPasses(w: World, r: Report, d: Doc) returns (wait: real, after: World)
    requires OnItsWay(w, d) && w.core.lock.holder.None? && w.core.data.Some?
    requires r in w.reports && r.deviceId == w.core.deviceId && Drifted(w.core.belief, r)
    ensures Moves(w, Coordinate(Tick(wait)), after) && after.core.lock == w.core.lock
    ensures OnItsWay(after, d) && DriftArrives(after, Reported(r), r)
  {
    hide Ha.Validate;
    var last := w.core.repair.last;
    wait := if last.Some? && last.value > w.core.clock then 30.0 + last.value - w.core.clock else 30.0;
    after := Advance(w, Coordinate(Tick(wait)));
    AdvanceStaysOnItsWay(w, Coordinate(Tick(wait)), d);
  }

  lemma WritesReachDisk(w: World, d: Doc) returns (writes: nat, after: World)
    requires Converged(w, d)
    ensures Moves(w, Flushed(writes), after) && Settled(after, d)
  {
    writes := |w.tablet.unflushed|;
    FlushSettles(w, d);
    after := Advance(w, Flushed(writes));
  }

  /**
   * An acknowledged push that a death loses is drift, and one round repairs it
   * for good: the tablet reports the old policy, the report starts a round, and
   * once its writes are flushed the pair is settled.
   */
  lemma LostPushIsRepaired(w: World, d: Doc)
    requires Converged(w, d) && Loses(w, Died) && w.core.lock.holder.None? && w.core.data.Some?
    ensures exists ws: seq<World>, r: Report, wait: real, answer: Report, writes: nat ::
      && |ws| == 10 && ws[0] == w && Behaviour(ws, LossAndRepair(w, r, wait, answer, writes))
      && !Converged(ws[1], d) && Settled(ws[9], d)
  {
    hide Moves, DriftArrives, Converged, OnItsWay, OnePush, Settled, Loses, Drifted;
    var r, w1, w2 := LossIsReported(w, d);
    var wait, w3 := IntervalPasses(w2, r, d);
    var w4, w5, w6 := RepairStarts(w3, Reported(r), r, d);
    var answer, w7, w8 := RoundCompletes(w6, d);
    var writes, w9 := WritesReachDisk(w8, d);
    var ms := LossAndRepair(w, r, wait, answer, writes);
    assert w3.core.lock.nextPush == w.core.lock.nextPush;
    var ws := [w, w1, w2, w3, w4, w5, w6, w7, w8, w9];
    assert Moves(ws[0], ms[0], ws[1]) && Moves(ws[1], ms[1], ws[2]) && Moves(ws[2], ms[2], ws[3]);
    assert Moves(ws[3], ms[3], ws[4]) && Moves(ws[4], ms[4], ws[5]) && Moves(ws[5], ms[5], ws[6]);
    assert Moves(ws[6], ms[6], ws[7]) && Moves(ws[7], ms[7], ws[8]) && Moves(ws[8], ms[8], ws[9]);
    assert Behaviour(ws, ms);
  }
}

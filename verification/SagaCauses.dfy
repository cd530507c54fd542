/**
 * What one service makes of the other, traced to its cause over every run: what is queued for
 * cancellation, why a payment failed, whose word reserved a hold, and where a release went.
 */
module SagaCauses {
  import opened Base
  import opened Events
  import SD = SeatDb
  import PD = PayDb
  import PS = PayService
  import PT = PayTheorems
  import PO = PayOutcomes
  import OB = Outbox
  import opened Saga
  import opened SagaTheorems
  import opened SagaRuns
  import TM = SagaTermination

  // ---- What may cancel a payment ----

  /** Nothing but releases ever waits for the payment service, and each is in the seat log. */
  lemma OnlyReleasesQueued(s: State, acts: seq<Act>, m: SeatEvent)
    requires Fresh(s) && ValidRun(s, acts) && m in Run(s, acts).toPay
    ensures m.SeatReleased? && m in Run(s, acts).seat.outbox
  {
    FreshInv(s);
    Reachable(s, acts);
  }

  ghost predicate ReleaseLogged(log: seq<SeatEvent>, seat: Uuid) {
    exists i: nat :: i < |log| && log[i].SeatReleased? && log[i].seat == seat
  }

  lemma SeatLogGrows(s: State, a: Act)
    requires Saga.Inv(s) && Saga.Enabled(s, a)
    ensures s.seat.outbox <= Saga.Next(s, a).seat.outbox
  {
    match a
    case SeatWork(op, _) => SeatMoney(s, op);
    case DeliverPayment(ev, now, _) => SeatMoney(s, SD.OpPayment(ev, now));
    case _ =>
  }

  lemma {:induction false} SeatLogGrowsOver(s: State, acts: seq<Act>)
    requires Saga.Inv(s) && ValidRun(s, acts)
    ensures s.seat.outbox <= Run(s, acts).seat.outbox
    decreases |acts|
  {
    if acts != [] {
      SeatLogGrows(s, acts[0]);
      StepKeepsInv(s, acts[0]);
      SeatLogGrowsOver(Saga.Next(s, acts[0]), acts[1..]);
    }
  }

  lemma QueuedIsLogged(s: State, m: SeatEvent, log: seq<SeatEvent>)
    requires QueuesInv(s) && m in s.toPay && s.seat.outbox <= log
    ensures ReleaseLogged(log, m.seat)
  {
    var i :| 0 <= i < |s.seat.outbox| && s.seat.outbox[i] == m;
    assert log[i] == m;
  }

  /** A step cancels a seat's intents only by delivering a queued release of that seat. */
  lemma CancelIsDelivery(s: State, a: Act, op: PS.Op, log: seq<SeatEvent>)
    requires QueuesInv(s) && Saga.Enabled(s, a) && s.seat.outbox <= log
    requires op in PayPart(a) && op.CancelSeat?
    ensures ReleaseLogged(log, op.seat)
  {
    QueuedIsLogged(s, a.msg, log);
  }

  /** Whenever the payment service cancels a seat's intents, a release of that seat is in the seat log. */
  lemma {:induction false} CancelsAreReleases(s: State, acts: seq<Act>, op: PS.Op)
    requires Saga.Inv(s) && ValidRun(s, acts) && op in PayOps(acts) && op.CancelSeat?
    ensures ReleaseLogged(Run(s, acts).seat.outbox, op.seat)
    decreases |acts|
  {
    if op in PayPart(acts[0]) {
      SeatLogGrowsOver(s, acts);
      CancelIsDelivery(s, acts[0], op, Run(s, acts).seat.outbox);
    } else {
      StepKeepsInv(s, acts[0]);
      CancelsAreReleases(Saga.Next(s, acts[0]), acts[1..], op);
    }
  }

  // ---- Why a payment ended as it did ----

  /** The provider reported this about the payment at some moment of the run. */
  ghost predicate Reported(ops: seq<PS.Op>, kind: PD.HookKind, psp: string) {
    exists k: nat :: k < |ops| && ops[k].Receive? && ops[k].kind == kind && ops[k].psp == psp
  }

  lemma HandledWasReported(p: PS.State, ops: seq<PS.Op>, d: nat, kind: PD.HookKind, psp: string)
    requires PT.ValidRun(p, ops) && PO.HandlesReport(p, ops, d, kind, psp)
    ensures Reported(ops, kind, psp)
  {
    var event := PT.Run(p, ops[..d]).hooks[ops[d].task].event;
    var r := PO.FirstReport(ops[..d], event).value;
    assert ops[..d][r] == ops[r];
  }

  /**
   * In every run a COMPLETED intent was reported a success by the provider. A FAILED one was
   * reported a failure, or its seat was released: no other event of the seat service, not even
   * the start of the very hold it pays for, can fail it.
   */
  lemma OutcomesHaveCauses(s: State, acts: seq<Act>, x: Uuid)
    requires Fresh(s) && ValidRun(s, acts) && x in Run(s, acts).pay.db.intents
    ensures var i, ops := Run(s, acts).pay.db.intents[x], PayOps(acts);
            && (i.status == PD.COMPLETED ==> Reported(ops, PD.HookSucceeded, i.psp))
            && (i.status == PD.FAILED ==>
                  Reported(ops, PD.HookFailed, i.psp) || ReleaseLogged(Run(s, acts).seat.outbox, i.seat))
  {
    PayRunOf(s, acts);
    FreshInv(s);
    var i, ops := Run(s, acts).pay.db.intents[x], PayOps(acts);
    PO.OutcomeExactly(s.pay, ops, x);
    var d := PO.Decider(s.pay, ops, x);
    if i.status == PD.COMPLETED {
      HandledWasReported(s.pay, ops, d.value, PD.HookSucceeded, i.psp);
    } else if i.status == PD.FAILED {
      if PO.HandlesReport(s.pay, ops, d.value, PD.HookFailed, i.psp) {
        HandledWasReported(s.pay, ops, d.value, PD.HookFailed, i.psp);
      } else {
        CancelsAreReleases(s, acts, ops[d.value]);
      }
    }
  }

  /** And every failure on record gives its real reason: the provider's report, or a release of the seat. */
  lemma FailuresGiveTheirReason(s: State, acts: seq<Act>, k: nat)
    requires Fresh(s) && ValidRun(s, acts) && k < |Run(s, acts).pay.db.outbox|
    requires Run(s, acts).pay.db.outbox[k].PaymentFailed?
    ensures var t := Run(s, acts); var e := t.pay.db.outbox[k];
            && e.intent in t.pay.db.intents
            && if e.reason == DeclinedReason
               then Reported(PayOps(acts), PD.HookFailed, t.pay.db.intents[e.intent].psp)
               else ReleaseLogged(t.seat.outbox, e.seat)
  {
    PayRunOf(s, acts);
    FreshInv(s);
    Reachable(s, acts);
    var db, ops := Run(s, acts).pay.db, PayOps(acts);
    var e := db.outbox[k];
    PO.EventsTellWhy(s.pay, ops, k);
    assert PD.EventFits(db, e);
    var d := PO.Decider(s.pay, ops, e.intent).value;
    if e.reason == DeclinedReason {
      HandledWasReported(s.pay, ops, d, PD.HookFailed, db.intents[e.intent].psp);
    } else {
      CancelsAreReleases(s, acts, ops[d]);
    }
  }

  /** No hold is RESERVED unless the provider reported a success of a payment for it. */
  lemma ReservedWasReported(s: State, acts: seq<Act>, h: Uuid)
    requires Fresh(s) && ValidRun(s, acts) && Reserved(Run(s, acts).seat, h)
    ensures exists x :: x in Run(s, acts).pay.db.intents && Run(s, acts).pay.db.intents[x].hold == h
                        && Reported(PayOps(acts), PD.HookSucceeded, Run(s, acts).pay.db.intents[x].psp)
  {
    NoReservationWithoutPayment(s, acts, h);
    var db := Run(s, acts).pay.db;
    var x :| x in db.intents && db.intents[x].hold == h && db.intents[x].status == PD.COMPLETED;
    OutcomesHaveCauses(s, acts, x);
  }

  // ---- Where a release goes ----

  /** The step consumes the message for good. */
  predicate Consumes(a: Act, m: SeatEvent) {
    a.DeliverRelease? && a.msg == m && a.ack
  }

  ghost predicate ConsumedIn(acts: seq<Act>, m: SeatEvent) {
    exists k: nat :: k < |acts| && Consumes(acts[k], m)
  }

  /** Every confirmed release is in the queue, or among those gone. */
  ghost predicate Followed(s: State, gone: set<SeatEvent>) {
    forall i | i in s.seatBox.confirmed && i < |s.seat.outbox| && s.seat.outbox[i].SeatReleased? ::
      s.seat.outbox[i] in s.toPay || s.seat.outbox[i] in gone
  }

  function Gone(a: Act): set<SeatEvent> {
    if a.DeliverRelease? && a.ack then {a.msg} else {}
  }

  lemma SeatPublishFollows(s: State, step: OB.Step, arrives: bool, gone: set<SeatEvent>)
    requires BoxesInv(s) && Followed(s, gone) && Saga.Enabled(s, SeatRelay(step, arrives))
    ensures Followed(Saga.Next(s, SeatRelay(step, arrives)), gone)
  {
    if step.Publish? {
      assert OB.JobInv(s.seatBox, step.job);
      var e := s.seatBox.jobs[step.job].payload;
      if e.SeatReleased? && arrives { assert e in Sent(s.seatBox, step, arrives); }
    }
  }

  lemma SeatTxFollows(s: State, op: SD.Op, now: int, gone: set<SeatEvent>)
    requires BoxesInv(s) && Followed(s, gone) && SD.Enabled(s.seat, op)
    requires s.seat.outbox <= SD.Step(s.seat, op).outbox
    ensures Followed(SeatTx(s, op, now), gone)
  {
    OB.InsertAllKeepsInv(s.seatBox, SD.Step(s.seat, op).outbox[|s.seat.outbox|..], now);
  }

  /** Nothing is published, and at most one message leaves the queue. */
  lemma OthersFollow(s: State, t: State, gone: set<SeatEvent>, acked: set<SeatEvent>)
    requires Followed(s, gone) && t.seatBox.confirmed == s.seatBox.confirmed && t.seat.outbox == s.seat.outbox
    requires forall m | m in s.toPay :: m in t.toPay || m in acked
    ensures Followed(t, gone + acked)
  {
  }

  lemma SeatWorkFollows(s: State, a: Act, op: SD.Op, now: int, gone: set<SeatEvent>)
    requires Saga.Inv(s) && Followed(s, gone) && Saga.Enabled(s, a)
    requires a == SeatWork(op, now) || (a.DeliverPayment? && op == SD.OpPayment(a.ev, a.now) && now == a.now)
    ensures Followed(Saga.Next(s, a), gone)
  {
    SeatMoney(s, op);
    SeatTxFollows(s, op, now, gone);
    OthersFollow(SeatTx(s, op, now), Saga.Next(s, a), gone, {});
  }

  lemma OneStepFollows(s: State, a: Act, gone: set<SeatEvent>)
    requires Saga.Inv(s) && Followed(s, gone) && Saga.Enabled(s, a)
    ensures Followed(Saga.Next(s, a), gone + Gone(a))
  {
    match a
    case SeatWork(op, now) => SeatWorkFollows(s, a, op, now, gone);
    case DeliverPayment(ev, now, _) => SeatWorkFollows(s, a, SD.OpPayment(ev, now), now, gone);
    case SeatRelay(step, arrives) => SeatPublishFollows(s, step, arrives, gone);
    case PayWork(_, _) => OthersFollow(s, Saga.Next(s, a), gone, {});
    case PayRelay(_, _) => OthersFollow(s, Saga.Next(s, a), gone, {});
    case DeliverRelease(_, _, _, _, _) => OthersFollow(s, Saga.Next(s, a), gone, Gone(a));
  }

  lemma ConsumedAlong(acts: seq<Act>, m: SeatEvent)
    requires acts != [] && (ConsumedIn(acts[1..], m) || m in Gone(acts[0]))
    ensures ConsumedIn(acts, m)
  {
    if m in Gone(acts[0]) {
      assert Consumes(acts[0], m);
    } else {
      var k: nat :| k < |acts[1..]| && Consumes(acts[1..][k], m);
      assert Consumes(acts[k + 1], m);
    }
  }

  lemma {:induction false} RunFollows(s: State, acts: seq<Act>, gone: set<SeatEvent>, i: nat)
    requires Saga.Inv(s) && ValidRun(s, acts) && Followed(s, gone)
    requires var t := Run(s, acts); i in t.seatBox.confirmed && i < |t.seat.outbox| && t.seat.outbox[i].SeatReleased?
    ensures var t := Run(s, acts); var m := t.seat.outbox[i]; m in t.toPay || m in gone || ConsumedIn(acts, m)
    decreases |acts|
  {
    if acts != [] {
      var a, t, m := acts[0], Saga.Next(s, acts[0]), Run(s, acts).seat.outbox[i];
      OneStepFollows(s, a, gone);
      StepKeepsInv(s, a);
      RunFollows(t, acts[1..], gone + Gone(a), i);
      if ConsumedIn(acts[1..], m) || m in Gone(a) { ConsumedAlong(acts, m); }
    }
  }

  /**
   * No release is lost on its way to the payment service: in every run each one logged is still
   * in its outbox row, or waits in the queue, or has been consumed.
   */
  lemma ReleasesArrive(s: State, acts: seq<Act>, i: nat)
    requires Fresh(s) && ValidRun(s, acts)
    requires i < |Run(s, acts).seat.outbox| && Run(s, acts).seat.outbox[i].SeatReleased?
    ensures var t := Run(s, acts); var m := t.seat.outbox[i];
            if i in t.seatBox.confirmed then m in t.toPay || ConsumedIn(acts, m)
            else i in t.seatBox.table && t.seatBox.table[i].payload == m
  {
    FreshInv(s);
    Reachable(s, acts);
    var t := Run(s, acts);
    if i in t.seatBox.confirmed {
      RunFollows(s, acts, {}, i);
    } else {
      assert i in t.seatBox.table && OB.RowInv(t.seatBox, i);
    }
  }

  /** Where the services fall idle, every release logged has been consumed, unless its row is DEAD. */
  lemma IdleReleasesConsumed(s: State, acts: seq<Act>, i: nat, replicas: nat)
    requires Fresh(s) && ValidRun(s, acts) && replicas > 0 && TM.Idle(Run(s, acts), replicas)
    requires i < |Run(s, acts).seat.outbox| && Run(s, acts).seat.outbox[i].SeatReleased?
    ensures var t := Run(s, acts);
            || ConsumedIn(acts, t.seat.outbox[i])
            || (i in t.seatBox.table && t.seatBox.table[i].state == OB.Dead)
  {
    TM.IdleExactly(Run(s, acts), replicas);
    ReleasesArrive(s, acts, i);
  }
}

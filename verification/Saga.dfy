/**
 * Both services together: two databases, two outboxes relayed by any number of replicas, and
 * two queues that may duplicate, delay and reorder. Every message is at-least-once.
 */
module Saga {
  import opened Base
  import opened Events
  import SD = SeatDb
  import SL = SeatLedger
  import SR = SeatRaces
  import PD = PayDb
  import PS = PayService
  import OB = Outbox

  datatype State = State(seat: SD.Db, pay: PS.State, seatBox: OB.Box<SeatEvent>, payBox: OB.Box<PayEvent>,
                         toSeat: multiset<PayEvent>, toPay: multiset<SeatEvent>)

  datatype Act =
    | SeatWork(op: SD.Op, now: int)
    | PayWork(work: PS.Op, now: int)
    | SeatRelay(step: OB.Step, arrives: bool)
    | PayRelay(step: OB.Step, arrives: bool)
    | DeliverPayment(ev: PayEvent, now: int, ack: bool)
    | DeliverRelease(msg: SeatEvent, first: Uuid, eventId: Uuid, now: int, ack: bool)

  /** A random hold id is new everywhere: no row and no request in flight already names it. */
  predicate Unmentioned(pay: PS.State, h: Uuid) {
    && (forall x | x in pay.db.intents :: pay.db.intents[x].hold != h)
    && (forall c | c in pay.checkouts :: pay.checkouts[c].hold != h)
  }

  ghost predicate Enabled(s: State, a: Act) {
    match a
    case SeatWork(op, _) => !op.OpPayment? && SD.Enabled(s.seat, op) && (op.OpHold? ==> Unmentioned(s.pay, op.newHold))
    case PayWork(op, _) => !op.CancelSeat? && PS.Enabled(s.pay, op)
    case SeatRelay(step, arrives) => OB.Enabled(s.seatBox, step) && (step.Publish? && step.ok ==> arrives)
    case PayRelay(step, arrives) => OB.Enabled(s.payBox, step) && (step.Publish? && step.ok ==> arrives)
    case DeliverPayment(ev, _, _) => ev in s.toSeat
    case DeliverRelease(msg, first, eventId, _, _) =>
      msg in s.toPay && PS.Enabled(s.pay, PS.CancelSeat(msg.seat, first, eventId))
  }

  ghost function SeatTx(s: State, op: SD.Op, now: int): State
    requires SD.Enabled(s.seat, op)
  {
    var seat' := SD.Step(s.seat, op);
    s.(seat := seat',
       seatBox := if |s.seat.outbox| <= |seat'.outbox|
                  then OB.InsertAll(s.seatBox, seat'.outbox[|s.seat.outbox|..], now)
                  else s.seatBox)
  }

  ghost function PayTx(s: State, op: PS.Op, now: int): State
    requires PS.Enabled(s.pay, op)
  {
    var pay' := PS.Next(s.pay, op);
    s.(pay := pay',
       payBox := if |s.pay.db.outbox| <= |pay'.db.outbox|
                 then OB.InsertAll(s.payBox, pay'.db.outbox[|s.pay.db.outbox|..], now)
                 else s.payBox)
  }

  /** A publication reaches its queue when it arrives; a confirmed one always has. */
  function Sent<E>(b: OB.Box<E>, step: OB.Step, arrives: bool): multiset<E>
    requires OB.Enabled(b, step)
  {
    if step.Publish? && arrives then multiset{b.jobs[step.job].payload} else multiset{}
  }

  /** Only `seat.released` is bound to the payment service's queue. */
  function Routed(sent: multiset<SeatEvent>): multiset<SeatEvent> {
    if exists e :: e in sent && e.SeatReleased? then sent else multiset{}
  }

  ghost function Next(s: State, a: Act): State
    requires Enabled(s, a)
  {
    match a
    case SeatWork(op, now) => SeatTx(s, op, now)
    case PayWork(op, now) => PayTx(s, op, now)
    case SeatRelay(step, arrives) =>
      s.(seatBox := OB.Next(s.seatBox, step), toPay := s.toPay + Routed(Sent(s.seatBox, step, arrives)))
    case PayRelay(step, arrives) =>
      s.(payBox := OB.Next(s.payBox, step), toSeat := s.toSeat + Sent(s.payBox, step, arrives))
    case DeliverPayment(ev, now, ack) =>
      var handled := SeatTx(s, SD.OpPayment(ev, now), now);
      if ack then handled.(toSeat := s.toSeat - multiset{ev}) else handled
    case DeliverRelease(msg, first, eventId, now, ack) =>
      var handled := PayTx(s, PS.CancelSeat(msg.seat, first, eventId), now);
      if ack then handled.(toPay := s.toPay - multiset{msg}) else handled
  }

  // ---- The saga's invariant ----

  predicate Pays(ev: PayEvent, h: Uuid) {
    ev.PaymentSucceeded? && ev.traceOk && ev.hold == h
  }

  predicate Fails(ev: PayEvent, h: Uuid) {
    ev.PaymentFailed? && ev.traceOk && ev.hold == h
  }

  predicate Reserved(seat: SD.Db, h: Uuid) {
    h in seat.holds && seat.holds[h].status == SD.RESERVED
  }

  /** Every consumed event id is the id of a payment for a hold that is now RESERVED. */
  ghost predicate ConsumedPaid(seat: SD.Db, log: seq<PayEvent>) {
    forall e | e in seat.consumed ::
      exists ev :: ev in log && ev.eventId == e && Pays(ev, ev.hold) && Reserved(seat, ev.hold)
  }

  /** No two consumed ids belong to payments for the same hold. */
  ghost predicate ConsumedOnce(seat: SD.Db, log: seq<PayEvent>) {
    forall a, b | a in log && b in log && Pays(a, a.hold) && Pays(b, a.hold)
                  && a.eventId in seat.consumed && b.eventId in seat.consumed :: a.eventId == b.eventId
  }

  /** Every RESERVED hold was paid for, by an event on record as consumed. */
  ghost predicate ReservedPaid(seat: SD.Db, log: seq<PayEvent>) {
    forall h | Reserved(seat, h) :: exists ev :: ev in log && Pays(ev, h) && ev.eventId in seat.consumed
  }

  /** Every release blamed on a payment has the failure it names. */
  ghost predicate BlamedFailed(seat: SD.Db, log: seq<PayEvent>) {
    forall r | r in seat.outbox && r.SeatReleased? && r.reason == PaymentFailedReason ::
      exists ev :: ev in log && Fails(ev, r.hold)
  }

  /** No reservation, consumption or blame without the payment behind it. */
  ghost predicate MoneyInv(seat: SD.Db, log: seq<PayEvent>) {
    ConsumedPaid(seat, log) && ConsumedOnce(seat, log) && ReservedPaid(seat, log) && BlamedFailed(seat, log)
  }

  /** A confirmed outcome is in the queue or has had its effect; an unreadable one never has any. */
  predicate Arrived(s: State, ev: PayEvent) {
    ev in s.toSeat || !ev.traceOk || !SD.Held(s.seat, ev.hold)
  }

  predicate AllArrived(s: State) {
    forall i | i in s.payBox.confirmed :: i < |s.pay.db.outbox| && Arrived(s, s.pay.db.outbox[i])
  }

  ghost predicate BoxesInv(s: State) {
    && OB.Inv(s.seatBox) && OB.Inv(s.payBox)
    && s.seatBox.appended == s.seat.outbox && s.payBox.appended == s.pay.db.outbox
  }

  predicate QueuesInv(s: State) {
    && (forall m | m in s.toSeat :: m in s.pay.db.outbox)
    && (forall m | m in s.toPay :: m in s.seat.outbox && m.SeatReleased?)
  }

  /** What ties the two services together. */
  ghost predicate Linked(s: State) {
    BoxesInv(s) && QueuesInv(s) && MoneyInv(s.seat, s.pay.db.outbox) && AllArrived(s)
  }

  ghost predicate Inv(s: State) {
    SL.Inv(s.seat) && PS.Inv(s.pay) && Linked(s)
  }

  // ---- What a seat transaction can do ----

  predicate Blames(r: SeatEvent) {
    r.SeatReleased? && r.reason == PaymentFailedReason
  }

  /** Appends events but consumes no id, reserves no hold and blames no payment. */
  ghost predicate Innocent(db: SD.Db, db': SD.Db) {
    && db.outbox <= db'.outbox && db'.consumed == db.consumed
    && (forall h :: Reserved(db', h) <==> Reserved(db, h))
    && (forall r | r in db'.outbox && Blames(r) :: r in db.outbox)
  }

  lemma InsertInnocent(db: SD.Db, h: Uuid, seat: Uuid, user: Uuid, now: int, ttl: nat)
    requires h !in db.holds
    ensures Innocent(db, SD.InsertHold(db, h, seat, user, now, ttl))
  {
    if SD.InsertOutcomeOf(db, seat, user, now) == SD.Inserted {
      forall k | k in db.holds { SL.InsertIsolates(db, h, seat, user, now, ttl, k); }
    }
  }

  lemma ReleaseInnocent(db: SD.Db, h: Uuid, reason: ReleaseReason, now: int)
    requires reason != PaymentFailedReason
    ensures Innocent(db, SD.ReleaseHold(db, h, reason, now))
  {
  }

  lemma {:induction false} SweepInnocent(db: SD.Db, batch: seq<Uuid>, now: int)
    requires SL.Constraints(db) && SD.SweepBatch(db, batch, now)
    ensures Innocent(db, SD.Sweep(db, batch, now))
  {
    if batch == [] {
      assert SD.ReleaseAll(db, batch).holds == db.holds;
    } else {
      var rest := batch[..|batch| - 1];
      SL.SweepUnfolds(db, batch, now);
      SweepInnocent(db, rest, now);
      ReleaseInnocent(SD.Sweep(db, rest, now), batch[|batch| - 1], SweeperReason, now);
    }
  }

  /** Only a payment event consumes ids, reserves holds or blames a payment. */
  lemma WorkIsInnocent(db: SD.Db, op: SD.Op)
    requires SL.Inv(db) && SD.Enabled(db, op) && !op.OpPayment?
    ensures Innocent(db, SD.Step(db, op))
  {
    match op
    case OpHold(h, seat, user, now, ttl) => InsertInnocent(db, h, seat, user, now, ttl);
    case OpRelease(h, now) => ReleaseInnocent(db, h, UserCancelled, now);
    case OpSweep(batch, now) => SweepInnocent(db, batch, now);
  }

  // ---- Every step keeps the invariant ----

  lemma InnocentKeepsMoney(seat: SD.Db, seat': SD.Db, log: seq<PayEvent>)
    requires MoneyInv(seat, log) && Innocent(seat, seat')
    ensures MoneyInv(seat', log)
  {
    forall e | e in seat'.consumed
      ensures exists ev :: ev in log && ev.eventId == e && Pays(ev, ev.hold) && Reserved(seat', ev.hold)
    {
      var ev :| ev in log && ev.eventId == e && Pays(ev, ev.hold) && Reserved(seat, ev.hold);
      assert Reserved(seat', ev.hold);
    }
  }

  lemma LogGrowthKeepsMoney(seat: SD.Db, log: seq<PayEvent>, log': seq<PayEvent>)
    requires MoneyInv(seat, log) && log <= log' && PD.EventsDistinct(log')
    ensures MoneyInv(seat, log')
  {
    assert forall ev | ev in log :: ev in log';
    forall a | a in log' && a.eventId in seat.consumed ensures a in log {
      var q :| q in log && q.eventId == a.eventId && Pays(q, q.hold) && Reserved(seat, q.hold);
      assert q in log';
      SameId(log', q, a);
    }
    forall e | e in seat.consumed
      ensures exists ev :: ev in log' && ev.eventId == e && Pays(ev, ev.hold) && Reserved(seat, ev.hold)
    {
      var ev :| ev in log && ev.eventId == e && Pays(ev, ev.hold) && Reserved(seat, ev.hold);
      assert ev in log';
    }
    forall h | Reserved(seat, h) ensures exists ev :: ev in log' && Pays(ev, h) && ev.eventId in seat.consumed {
      var ev :| ev in log && Pays(ev, h) && ev.eventId in seat.consumed;
      assert ev in log';
    }
    forall r | r in seat.outbox && Blames(r) ensures exists ev :: ev in log' && Fails(ev, r.hold) {
      var ev :| ev in log && Fails(ev, r.hold);
      assert ev in log';
    }
  }

  lemma FailureKeepsMoney(seat: SD.Db, log: seq<PayEvent>, ev: PayEvent, now: int)
    requires MoneyInv(seat, log) && ev in log && ev.PaymentFailed?
    ensures MoneyInv(SD.HandlePayment(seat, ev, now), log)
    ensures seat.outbox <= SD.HandlePayment(seat, ev, now).outbox
  {
    var seat' := SD.HandlePayment(seat, ev, now);
    assert seat'.consumed == seat.consumed;
    assert forall h :: Reserved(seat', h) <==> Reserved(seat, h);
    forall e | e in seat'.consumed
      ensures exists q :: q in log && q.eventId == e && Pays(q, q.hold) && Reserved(seat', q.hold)
    {
      var q :| q in log && q.eventId == e && Pays(q, q.hold) && Reserved(seat, q.hold);
      assert Reserved(seat', q.hold);
    }
    forall r | r in seat'.outbox && Blames(r) ensures exists q :: q in log && Fails(q, r.hold) {
      if r !in seat.outbox { assert Fails(ev, r.hold); }
    }
  }

  lemma SuccessKeepsMoney(seat: SD.Db, log: seq<PayEvent>, ev: PayEvent, now: int)
    requires MoneyInv(seat, log) && ev in log && ev.PaymentSucceeded? && PD.EventsDistinct(log)
    ensures MoneyInv(SD.HandlePayment(seat, ev, now), log)
    ensures seat.outbox <= SD.HandlePayment(seat, ev, now).outbox
  {
    var seat' := SD.HandlePayment(seat, ev, now);
    if seat' != seat {
      assert Reserved(seat', ev.hold);
      assert forall h :: Reserved(seat', h) <==> Reserved(seat, h) || h == ev.hold;
      forall a | a in log && Pays(a, ev.hold) && a.eventId in seat'.consumed ensures a.eventId == ev.eventId {
        if a.eventId in seat.consumed {
          var q :| q in log && q.eventId == a.eventId && Pays(q, q.hold) && Reserved(seat, q.hold);
          SameId(log, q, a);
        }
      }
      assert ConsumedOnce(seat', log);
      forall e | e in seat'.consumed
        ensures exists q :: q in log && q.eventId == e && Pays(q, q.hold) && Reserved(seat', q.hold)
      {
        if e in seat.consumed {
          var q :| q in log && q.eventId == e && Pays(q, q.hold) && Reserved(seat, q.hold);
          assert Reserved(seat', q.hold);
        } else {
          assert Pays(ev, ev.hold);
        }
      }
      forall h | Reserved(seat', h) ensures exists q :: q in log && Pays(q, h) && q.eventId in seat'.consumed {
        if Reserved(seat, h) {
          var q :| q in log && Pays(q, h) && q.eventId in seat.consumed;
        } else {
          assert Pays(ev, h);
        }
      }
    }
  }

  lemma OnlyInsertHolds(db: SD.Db, op: SD.Op, h: Uuid)
    requires SD.Enabled(db, op) && SD.Held(SD.Step(db, op), h)
    ensures SD.Held(db, h) || (op.OpHold? && op.newHold == h)
  {
    if h in db.holds {
      if !SD.Held(db, h) { SR.EndedIsFinal(db, op, h); }
    } else if op.OpSweep? {
      SR.SweepKeepsEnded(db, op.batch, op.now);
    }
  }

  /** A payment event in the log, once handled, leaves its hold no longer active. */
  lemma HandledSettles(s: State, ev: PayEvent, now: int)
    requires Inv(s) && ev in s.pay.db.outbox && ev.traceOk
    ensures !SD.Held(SD.HandlePayment(s.seat, ev, now), ev.hold)
  {
    LoggedSettles(s.seat, s.pay.db.outbox, ev, now);
  }

  lemma LoggedSettles(seat: SD.Db, log: seq<PayEvent>, ev: PayEvent, now: int)
    requires ConsumedPaid(seat, log) && PD.EventsDistinct(log) && ev in log && ev.traceOk
    ensures !SD.Held(SD.HandlePayment(seat, ev, now), ev.hold)
  {
    if ev.PaymentSucceeded? && ev.eventId in seat.consumed {
      var q :| q in log && q.eventId == ev.eventId && Pays(q, q.hold) && Reserved(seat, q.hold);
      SameId(log, q, ev);
    }
  }

  lemma SameId(log: seq<PayEvent>, a: PayEvent, b: PayEvent)
    requires PD.EventsDistinct(log) && a in log && b in log && a.eventId == b.eventId
    ensures a == b
  {
  }

  lemma SeatMoney(s: State, op: SD.Op)
    requires Inv(s) && SD.Enabled(s.seat, op)
    requires op.OpPayment? ==> op.ev in s.pay.db.outbox
    ensures MoneyInv(SD.Step(s.seat, op), s.pay.db.outbox)
    ensures s.seat.outbox <= SD.Step(s.seat, op).outbox
  {
    if op.OpPayment? {
      if op.ev.PaymentSucceeded? { SuccessKeepsMoney(s.seat, s.pay.db.outbox, op.ev, op.now); }
      else { FailureKeepsMoney(s.seat, s.pay.db.outbox, op.ev, op.now); }
    } else {
      WorkIsInnocent(s.seat, op);
      InnocentKeepsMoney(s.seat, SD.Step(s.seat, op), s.pay.db.outbox);
    }
  }

  lemma StillArrived(s: State, s': State)
    requires AllArrived(s) && s'.payBox.confirmed == s.payBox.confirmed
    requires s.pay.db.outbox <= s'.pay.db.outbox && s.toSeat <= s'.toSeat
    requires forall ev | ev in s.pay.db.outbox && SD.Held(s'.seat, ev.hold) :: SD.Held(s.seat, ev.hold)
    ensures AllArrived(s')
  {
    forall i | i in s'.payBox.confirmed ensures i < |s'.pay.db.outbox| && Arrived(s', s'.pay.db.outbox[i]) {
      assert s'.pay.db.outbox[i] == s.pay.db.outbox[i] && Arrived(s, s.pay.db.outbox[i]);
    }
  }

  lemma QueuesGrow(s: State, s': State)
    requires QueuesInv(s) && s.pay.db.outbox <= s'.pay.db.outbox && s.seat.outbox <= s'.seat.outbox
    requires forall m | m in s'.toSeat :: m in s.toSeat || m in s.pay.db.outbox
    requires forall m | m in s'.toPay :: m in s.toPay || (m in s.seat.outbox && m.SeatReleased?)
    ensures QueuesInv(s')
  {
    assert forall m | m in s.pay.db.outbox :: m in s'.pay.db.outbox;
    assert forall m | m in s.seat.outbox :: m in s'.seat.outbox;
  }

  /** No transaction activates a hold that some logged payment event already speaks of. */
  lemma LoggedHoldsStay(s: State, op: SD.Op, ev: PayEvent)
    requires PD.EventsFit(s.pay.db) && ev in s.pay.db.outbox && SD.Enabled(s.seat, op)
    requires op.OpHold? ==> Unmentioned(s.pay, op.newHold)
    requires SD.Held(SD.Step(s.seat, op), ev.hold)
    ensures SD.Held(s.seat, ev.hold)
  {
    assert PD.EventFits(s.pay.db, ev);
    OnlyInsertHolds(s.seat, op, ev.hold);
  }

  lemma SeatGrows(s: State, seat': SD.Db, now: int)
    requires BoxesInv(s) && QueuesInv(s) && AllArrived(s) && MoneyInv(seat', s.pay.db.outbox)
            && s.seat.outbox <= seat'.outbox
    requires forall ev | ev in s.pay.db.outbox && SD.Held(seat', ev.hold) :: SD.Held(s.seat, ev.hold)
    ensures Linked(s.(seat := seat', seatBox := OB.InsertAll(s.seatBox, seat'.outbox[|s.seat.outbox|..], now)))
  {
    var s' := s.(seat := seat', seatBox := OB.InsertAll(s.seatBox, seat'.outbox[|s.seat.outbox|..], now));
    assert BoxesInv(s') by { OB.InsertAllKeepsInv(s.seatBox, seat'.outbox[|s.seat.outbox|..], now); }
    assert AllArrived(s') by { StillArrived(s, s'); }
    assert QueuesInv(s') by { QueuesGrow(s, s'); }
  }

  lemma SeatTxKeepsInv(s: State, op: SD.Op, now: int)
    requires Inv(s) && SD.Enabled(s.seat, op)
    requires op.OpPayment? ==> op.ev in s.pay.db.outbox
    requires op.OpHold? ==> Unmentioned(s.pay, op.newHold)
    ensures Inv(SeatTx(s, op, now))
    ensures op.OpPayment? ==> !op.ev.traceOk || !SD.Held(SeatTx(s, op, now).seat, op.ev.hold)
  {
    var seat' := SD.Step(s.seat, op);
    SL.StepKeepsInv(s.seat, op);
    SeatMoney(s, op);
    forall ev | ev in s.pay.db.outbox && SD.Held(seat', ev.hold) { LoggedHoldsStay(s, op, ev); }
    SeatGrows(s, seat', now);
    if op.OpPayment? && op.ev.traceOk { HandledSettles(s, op.ev, op.now); }
  }

  lemma PayGrows(s: State, pay': PS.State, now: int)
    requires Linked(s) && s.pay.db.outbox <= pay'.db.outbox && PD.EventsDistinct(pay'.db.outbox)
    ensures Linked(s.(pay := pay', payBox := OB.InsertAll(s.payBox, pay'.db.outbox[|s.pay.db.outbox|..], now)))
  {
    var log, log' := s.pay.db.outbox, pay'.db.outbox;
    var s' := s.(pay := pay', payBox := OB.InsertAll(s.payBox, log'[|log|..], now));
    assert MoneyInv(s.seat, log') by { LogGrowthKeepsMoney(s.seat, log, log'); }
    OB.InsertAllKeepsInv(s.payBox, log'[|log|..], now);
    assert BoxesInv(s');
    assert AllArrived(s') by { StillArrived(s, s'); }
    assert QueuesInv(s') by { QueuesGrow(s, s'); }
  }

  lemma PayTxKeepsInv(s: State, op: PS.Op, now: int)
    requires Inv(s) && PS.Enabled(s.pay, op)
    ensures Inv(PayTx(s, op, now))
  {
    PS.NextKeepsInv(s.pay, op);
    PayGrows(s, PS.Next(s.pay, op), now);
  }

  lemma SeatRelayKeepsInv(s: State, step: OB.Step, arrives: bool)
    requires Inv(s) && Enabled(s, SeatRelay(step, arrives))
    ensures Inv(Next(s, SeatRelay(step, arrives)))
  {
    OB.NextKeepsInv(s.seatBox, step);
    if step.Publish? { assert OB.JobInv(s.seatBox, step.job); }
    var s' := Next(s, SeatRelay(step, arrives));
    StillArrived(s, s');
    QueuesGrow(s, s');
  }

  /** A confirmed publication is in the queue, so its confirmation can be believed. */
  lemma PublishArrives(s: State, step: OB.Step, arrives: bool)
    requires BoxesInv(s) && AllArrived(s) && Enabled(s, PayRelay(step, arrives))
    ensures AllArrived(Next(s, PayRelay(step, arrives)))
  {
    var s' := Next(s, PayRelay(step, arrives));
    if step.Publish? { assert OB.JobInv(s.payBox, step.job); }
    forall i | i in s'.payBox.confirmed ensures i < |s.pay.db.outbox| && Arrived(s', s.pay.db.outbox[i]) {
      assert i in s.payBox.confirmed ==> Arrived(s, s.pay.db.outbox[i]);
    }
  }

  lemma PayRelayKeepsInv(s: State, step: OB.Step, arrives: bool)
    requires Inv(s) && Enabled(s, PayRelay(step, arrives))
    ensures Inv(Next(s, PayRelay(step, arrives)))
  {
    OB.NextKeepsInv(s.payBox, step);
    PublishArrives(s, step, arrives);
    if step.Publish? { assert OB.JobInv(s.payBox, step.job); }
    QueuesGrow(s, Next(s, PayRelay(step, arrives)));
  }

  lemma StepKeepsInv(s: State, a: Act)
    requires Inv(s) && Enabled(s, a)
    ensures Inv(Next(s, a))
  {
    match a
    case SeatWork(op, now) => SeatTxKeepsInv(s, op, now);
    case PayWork(op, now) => PayTxKeepsInv(s, op, now);
    case SeatRelay(step, arrives) => SeatRelayKeepsInv(s, step, arrives);
    case PayRelay(step, arrives) => PayRelayKeepsInv(s, step, arrives);
    case DeliverPayment(ev, now, ack) =>
      SeatTxKeepsInv(s, SD.OpPayment(ev, now), now);
      AckKeepsInv(SeatTx(s, SD.OpPayment(ev, now), now), ev);
    case DeliverRelease(msg, first, eventId, now, ack) =>
      PayTxKeepsInv(s, PS.CancelSeat(msg.seat, first, eventId), now);
      var handled := PayTx(s, PS.CancelSeat(msg.seat, first, eventId), now);
      AckReleaseKeepsInv(handled, msg);
  }

  lemma AckKeepsInv(s: State, ev: PayEvent)
    requires Inv(s) && ev in s.toSeat && (!ev.traceOk || !SD.Held(s.seat, ev.hold))
    ensures Inv(s.(toSeat := s.toSeat - multiset{ev}))
  {
    var s' := s.(toSeat := s.toSeat - multiset{ev});
    forall i | i in s'.payBox.confirmed ensures Arrived(s', s.pay.db.outbox[i]) {
      assert Arrived(s, s.pay.db.outbox[i]);
    }
  }

  lemma AckReleaseKeepsInv(s: State, msg: SeatEvent)
    requires Inv(s)
    ensures Inv(s.(toPay := s.toPay - multiset{msg}))
  {
    var s' := s.(toPay := s.toPay - multiset{msg});
    forall i | i in s'.payBox.confirmed ensures Arrived(s', s.pay.db.outbox[i]) {
      assert Arrived(s, s.pay.db.outbox[i]);
    }
  }
}

/** Exactly-once effect, and who is seated in the end, stated over whole runs of both services. */
module SagaRuns {
  import opened Base
  import opened Events
  import SD = SeatDb
  import SL = SeatLedger
  import ST = SeatTheorems
  import SR = SeatRaces
  import PD = PayDb
  import PS = PayService
  import PT = PayTheorems
  import opened Saga
  import opened SagaTheorems

  lemma {:induction false} Grow(s: State, acts: seq<Act>, a: Act)
    requires ValidRun(s, acts) && Saga.Enabled(Run(s, acts), a)
    ensures ValidRun(s, acts + [a]) && Run(s, acts + [a]) == Saga.Next(Run(s, acts), a)
    decreases |acts|
  {
    if acts == [] {
      assert ValidRun(Saga.Next(s, a), []);
      assert ([] + [a])[1..] == [];
    } else {
      assert (acts + [a])[1..] == acts[1..] + [a];
      Grow(Saga.Next(s, acts[0]), acts[1..], a);
    }
  }

  ghost predicate Reaches(s: State, acts: seq<Act>, t: State) {
    ValidRun(s, acts) && Run(s, acts) == t
  }

  lemma GrowTo(s: State, acts: seq<Act>, t: State, a: Act)
    requires Reaches(s, acts, t) && Saga.Enabled(t, a)
    ensures Reaches(s, acts + [a], Saga.Next(t, a))
  {
    Grow(s, acts, a);
  }

  /** A run goes on with another that starts where it ends. */
  lemma {:induction false} Continue(s: State, acts: seq<Act>, t: State, more: seq<Act>) returns (acts': seq<Act>)
    requires Reaches(s, acts, t) && ValidRun(t, more)
    ensures Reaches(s, acts', Run(t, more))
    decreases |more|
  {
    if more == [] {
      acts' := acts;
    } else {
      GrowTo(s, acts, t, more[0]);
      acts' := Continue(s, acts + [more[0]], Saga.Next(t, more[0]), more[1..]);
    }
  }

  // ---- Exactly-once effect ----

  /** What a step does to the seat database. */
  function SeatPart(a: Act): seq<SD.Op> {
    match a
    case SeatWork(op, _) => [op]
    case DeliverPayment(ev, now, _) => [SD.OpPayment(ev, now)]
    case _ => []
  }

  ghost function SeatOps(acts: seq<Act>): seq<SD.Op> {
    if acts == [] then [] else SeatPart(acts[0]) + SeatOps(acts[1..])
  }

  lemma OneStepSeat(s: State, a: Act)
    requires Saga.Enabled(s, a)
    ensures var part := SeatPart(a);
            if part == [] then Saga.Next(s, a).seat == s.seat
            else |part| == 1 && SD.Enabled(s.seat, part[0]) && Saga.Next(s, a).seat == SD.Step(s.seat, part[0])
  {
  }

  lemma {:induction false} SeatRun(s: State, acts: seq<Act>)
    requires ValidRun(s, acts)
    ensures ST.ValidRun(s.seat, SeatOps(acts)) && ST.Run(s.seat, SeatOps(acts)) == Run(s, acts).seat
    decreases |acts|
  {
    if acts != [] {
      SeatRun(Saga.Next(s, acts[0]), acts[1..]);
      OneStepSeat(s, acts[0]);
      var part := SeatPart(acts[0]);
      if part == [] {
        assert SeatOps(acts) == SeatOps(acts[1..]);
      } else {
        assert SeatOps(acts)[0] == part[0] && SeatOps(acts)[1..] == SeatOps(acts[1..]);
      }
    }
  }

  lemma OneStepLogs(s: State, a: Act)
    requires Saga.Inv(s) && Saga.Enabled(s, a)
    ensures Saga.Inv(Saga.Next(s, a)) && s.pay.db.outbox <= Saga.Next(s, a).pay.db.outbox
    ensures forall i | 0 <= i < |SeatPart(a)| && SeatPart(a)[i].OpPayment? :: SeatPart(a)[i].ev in s.pay.db.outbox
  {
    StepKeepsInv(s, a);
    PartLogged(s, a);
    LogGrows(s, a);
  }

  lemma PartLogged(s: State, a: Act)
    requires QueuesInv(s) && Saga.Enabled(s, a)
    ensures forall i | 0 <= i < |SeatPart(a)| && SeatPart(a)[i].OpPayment? :: SeatPart(a)[i].ev in s.pay.db.outbox
  {
    if a.DeliverPayment? { Queued(s, a.ev); }
  }

  lemma LogGrows(s: State, a: Act)
    requires Saga.Inv(s) && Saga.Enabled(s, a)
    ensures s.pay.db.outbox <= Saga.Next(s, a).pay.db.outbox
  {
    match a
    case PayWork(op, _) => PS.NextKeepsInv(s.pay, op);
    case DeliverRelease(msg, first, eventId, _, _) => PS.NextKeepsInv(s.pay, PS.CancelSeat(msg.seat, first, eventId));
    case _ =>
  }

  lemma InLog(part: seq<SD.Op>, rest: seq<SD.Op>, log: seq<PayEvent>, log': seq<PayEvent>)
    requires log <= log' && (forall i | 0 <= i < |part| && part[i].OpPayment? :: part[i].ev in log)
    requires forall i | 0 <= i < |rest| && rest[i].OpPayment? :: rest[i].ev in log'
    ensures forall i | 0 <= i < |part + rest| && (part + rest)[i].OpPayment? :: (part + rest)[i].ev in log'
  {
  }

  /** Every event a run delivers is in the payment log it ends with. */
  lemma {:induction false} DeliveredIsLogged(s: State, acts: seq<Act>)
    requires Saga.Inv(s) && ValidRun(s, acts)
    ensures s.pay.db.outbox <= Run(s, acts).pay.db.outbox
    ensures forall i | 0 <= i < |SeatOps(acts)| && SeatOps(acts)[i].OpPayment? ::
            SeatOps(acts)[i].ev in Run(s, acts).pay.db.outbox
    decreases |acts|
  {
    if acts != [] {
      OneStepLogs(s, acts[0]);
      DeliveredIsLogged(Saga.Next(s, acts[0]), acts[1..]);
      InLog(SeatPart(acts[0]), SeatOps(acts[1..]), s.pay.db.outbox, Run(s, acts).pay.db.outbox);
    }
  }

  /**
   * Exactly once from at least once, across both services: whatever is redelivered, late or
   * contradictory, the seat database a run ends with is the one it would have reached had only
   * the first outcome delivered for each hold been delivered at all.
   */
  lemma ExactlyOnce(s: State, acts: seq<Act>)
    requires Fresh(s) && ValidRun(s, acts)
    ensures var ops := SeatOps(acts);
            && ST.ValidRun(s.seat, ops) && ST.ValidRun(s.seat, SR.Dedup(s.seat, ops, {}))
            && ST.Run(s.seat, SR.Dedup(s.seat, ops, {})) == Run(s, acts).seat
  {
    FreshInv(s);
    SeatRun(s, acts);
    DeliveredIsLogged(s, acts);
    Reachable(s, acts);
    var log, ops := Run(s, acts).pay.db.outbox, SeatOps(acts);
    forall i | 0 <= i < |ops| && ops[i].OpPayment? ensures SR.Labelled(ops[i].ev, Owners(log)) {
      OwnerIs(log, ops[i].ev);
    }
    SR.ExactlyOnce(s.seat, ops, {}, Owners(log));
  }

  // ---- Who is seated in the end ----

  /** The step delivers a readable success for the hold while the hold is active. */
  predicate Seats(s: State, a: Act, h: Uuid) {
    a.DeliverPayment? && Pays(a.ev, h) && SD.Held(s.seat, h)
  }

  /** Some step of the run does. */
  ghost predicate Seated(s: State, acts: seq<Act>, h: Uuid)
    requires ValidRun(s, acts)
    decreases |acts|
  {
    acts != [] && (Seats(s, acts[0], h) || Seated(Saga.Next(s, acts[0]), acts[1..], h))
  }

  /** A success for an active hold has not been consumed yet, so it reserves. */
  lemma NotConsumed(seat: SD.Db, log: seq<PayEvent>, ev: PayEvent)
    requires ConsumedPaid(seat, log) && PD.EventsDistinct(log) && ev in log && SD.Held(seat, ev.hold)
    ensures ev.eventId !in seat.consumed
  {
    if ev.eventId in seat.consumed {
      var q :| q in log && q.eventId == ev.eventId && Pays(q, q.hold) && Reserved(seat, q.hold);
      SameId(log, q, ev);
    }
  }

  lemma DeliveryReserves(seat: SD.Db, ev: PayEvent, now: int, h: Uuid)
    requires SD.Held(seat, ev.hold) ==> ev.eventId !in seat.consumed
    ensures Reserved(SD.HandlePayment(seat, ev, now), h) <==> Reserved(seat, h) || (Pays(ev, h) && SD.Held(seat, h))
  {
  }

  /** The seat database is in order, and what is about to be delivered for an active hold is new. */
  ghost predicate DueInOrder(s: State, a: Act) {
    SL.Inv(s.seat) && (a.DeliverPayment? && SD.Held(s.seat, a.ev.hold) ==> a.ev.eventId !in s.seat.consumed)
  }

  lemma InvGivesOrder(s: State, a: Act)
    requires Saga.Inv(s) && Saga.Enabled(s, a)
    ensures DueInOrder(s, a)
  {
    if a.DeliverPayment? && SD.Held(s.seat, a.ev.hold) {
      Queued(s, a.ev);
      NotConsumed(s.seat, s.pay.db.outbox, a.ev);
    }
  }

  lemma OneStepReserves(s: State, a: Act, h: Uuid)
    requires DueInOrder(s, a) && Saga.Enabled(s, a)
    ensures Reserved(Saga.Next(s, a).seat, h) <==>
              Reserved(s.seat, h) || Seats(s, a, h)
  {
    match a
    case SeatWork(op, _) => WorkIsInnocent(s.seat, op);
    case DeliverPayment(ev, now, _) => DeliveryReserves(s.seat, ev, now, h);
    case _ =>
  }

  lemma Queued(s: State, ev: PayEvent)
    requires QueuesInv(s) && ev in s.toSeat
    ensures ev in s.pay.db.outbox
  {
  }

  lemma {:induction false} ReservedSince(s: State, acts: seq<Act>, h: Uuid)
    requires Saga.Inv(s) && ValidRun(s, acts)
    ensures Reserved(Run(s, acts).seat, h) <==> Reserved(s.seat, h) || Seated(s, acts, h)
    decreases |acts|
  {
    if acts != [] {
      var t := Saga.Next(s, acts[0]);
      assert Saga.Inv(t) && (Reserved(t.seat, h) <==> Reserved(s.seat, h) || Seats(s, acts[0], h)) by {
        InvGivesOrder(s, acts[0]);
        OneStepReserves(s, acts[0], h);
        StepKeepsInv(s, acts[0]);
      }
      ReservedSince(t, acts[1..], h);
    }
  }

  /**
   * In every run a hold is RESERVED exactly when a readable success for it was delivered while
   * it was still active. Being paid is not enough: the sweeper, the user or a failure of
   * another intent may have ended the hold first.
   */
  lemma ReservedExactly(s: State, acts: seq<Act>, h: Uuid)
    requires Fresh(s) && ValidRun(s, acts)
    ensures Reserved(Run(s, acts).seat, h) <==> Seated(s, acts, h)
  {
    FreshInv(s);
    ReservedSince(s, acts, h);
  }

  /** A hold that has ended and an intent that is settled stay as they are, whatever runs. */
  lemma {:induction false} EndsStay(s: State, acts: seq<Act>, h: Uuid, x: Uuid)
    requires Saga.Inv(s) && ValidRun(s, acts)
    ensures var t := Run(s, acts);
            && (h in s.seat.holds && !SD.Held(s.seat, h) ==> h in t.seat.holds && t.seat.holds[h] == s.seat.holds[h])
            && (x in s.pay.db.intents && s.pay.db.intents[x].status != PD.PENDING ==>
                  x in t.pay.db.intents && t.pay.db.intents[x] == s.pay.db.intents[x])
    decreases |acts|
  {
    if acts != [] {
      OneStepEndsStay(s, acts[0], h, x);
      StepKeepsInv(s, acts[0]);
      EndsStay(Saga.Next(s, acts[0]), acts[1..], h, x);
    }
  }

  lemma OneStepEndsStay(s: State, a: Act, h: Uuid, x: Uuid)
    requires Saga.Inv(s) && Saga.Enabled(s, a)
    ensures var t := Saga.Next(s, a);
            && (h in s.seat.holds && !SD.Held(s.seat, h) ==> h in t.seat.holds && t.seat.holds[h] == s.seat.holds[h])
            && (x in s.pay.db.intents && s.pay.db.intents[x].status != PD.PENDING ==>
                  x in t.pay.db.intents && t.pay.db.intents[x] == s.pay.db.intents[x])
  {
    match a
    case SeatWork(op, _) => if h in s.seat.holds && !SD.Held(s.seat, h) { SR.EndedIsFinal(s.seat, op, h); }
    case DeliverPayment(ev, now, _) =>
      if h in s.seat.holds && !SD.Held(s.seat, h) { SR.EndedIsFinal(s.seat, SD.OpPayment(ev, now), h); }
    case PayWork(op, _) => PS.NextGrows(s.pay, op);
    case DeliverRelease(msg, first, eventId, _, _) => PS.NextGrows(s.pay, PS.CancelSeat(msg.seat, first, eventId));
    case _ =>
  }

  // ---- Who pays for a reservation ----

  /** What a step asks of the payment service. */
  function PayPart(a: Act): seq<PS.Op> {
    match a
    case PayWork(op, _) => [op]
    case DeliverRelease(msg, first, eventId, _, _) => [PS.CancelSeat(msg.seat, first, eventId)]
    case _ => []
  }

  ghost function PayOps(acts: seq<Act>): seq<PS.Op> {
    if acts == [] then [] else PayPart(acts[0]) + PayOps(acts[1..])
  }

  ghost predicate PayReaches(p: PS.State, ops: seq<PS.Op>, q: PS.State) {
    PT.ValidRun(p, ops) && PT.Run(p, ops) == q
  }

  lemma {:induction false} PayRun(p: PS.State, before: seq<PS.Op>, s: State, acts: seq<Act>)
    requires PayReaches(p, before, s.pay) && ValidRun(s, acts)
    ensures PayReaches(p, before + PayOps(acts), Run(s, acts).pay)
    decreases |acts|
  {
    if acts == [] {
      assert before + PayOps(acts) == before;
    } else {
      var part := PayPart(acts[0]);
      PayStep(p, before, s, acts[0]);
      PayRun(p, before + part, Saga.Next(s, acts[0]), acts[1..]);
      Regroup(p, before, part, PayOps(acts[1..]), Run(s, acts).pay);
    }
  }

  lemma Regroup(p: PS.State, before: seq<PS.Op>, part: seq<PS.Op>, rest: seq<PS.Op>, q: PS.State)
    requires PayReaches(p, before + part + rest, q)
    ensures PayReaches(p, before + (part + rest), q)
  {
    assert before + part + rest == before + (part + rest);
  }

  lemma PayStep(p: PS.State, before: seq<PS.Op>, s: State, a: Act)
    requires PayReaches(p, before, s.pay) && Saga.Enabled(s, a)
    ensures PayReaches(p, before + PayPart(a), Saga.Next(s, a).pay)
  {
    if PayPart(a) == [] {
      assert before + PayPart(a) == before;
    } else {
      PT.Extend(p, before, PayPart(a)[0]);
    }
  }

  lemma PayRunOf(s: State, acts: seq<Act>)
    requires ValidRun(s, acts)
    ensures PayReaches(s.pay, PayOps(acts), Run(s, acts).pay)
  {
    var none: seq<PS.Op> := [];
    PayRun(s.pay, none, s, acts);
    assert none + PayOps(acts) == PayOps(acts);
  }

  /**
   * Behind every reservation is a completed payment at the price of the seat, and by the user,
   * that the request with its idempotency key named for the hold. That request may name any seat
   * and user: neither service compares them with the hold's.
   */
  lemma ReservedByWhomNamed(s: State, acts: seq<Act>, h: Uuid) returns (x: Uuid, k: nat)
    requires Fresh(s) && ValidRun(s, acts) && Reserved(Run(s, acts).seat, h)
    ensures var db, ops := Run(s, acts).pay.db, PayOps(acts);
            && x in db.intents && db.intents[x].hold == h && db.intents[x].status == PD.COMPLETED
            && k < |ops| && ops[k].Begin? && ops[k].key == db.intents[x].key && ops[k].hold == h
            && db.intents[x].seat == ops[k].seat && db.intents[x].user == ops[k].user
            && ops[k].seat in db.prices && db.intents[x].amount == db.prices[ops[k].seat].cents
  {
    NoReservationWithoutPayment(s, acts, h);
    var db := Run(s, acts).pay.db;
    x :| x in db.intents && db.intents[x].hold == h && db.intents[x].status == PD.COMPLETED;
    PayRunOf(s, acts);
    PT.IntentAsNamed(s.pay, PayOps(acts), x);
    k := PT.Origin(s.pay, PayOps(acts), x).value;
    PT.FreshInv(s.pay);
    PT.Reachable(s.pay, PayOps(acts));
  }

  // ---- A release cancels by seat ----

  /**
   * A release of one hold cancels only that hold's intents exactly when every intent pending on
   * the seat is for that hold, and cancels all of them exactly when each is on the seat. The
   * message is matched by seat, so a late one hits the next holder, and an intent that names
   * another seat is missed.
   */
  lemma CancelsOwnHoldExactly(s: State, msg: SeatEvent, first: Uuid, eventId: Uuid, now: int, ack: bool)
    requires Saga.Enabled(s, DeliverRelease(msg, first, eventId, now, ack))
    ensures QueuesInv(s) ==> msg.SeatReleased?
    ensures var db, db' := s.pay.db, Saga.Next(s, DeliverRelease(msg, first, eventId, now, ack)).pay.db;
            && ((forall x | x in db.intents && x in db'.intents && db'.intents[x] != db.intents[x] ::
                   db.intents[x].hold == msg.hold)
                <==> (forall x | x in PD.PendingBySeat(db, msg.seat) :: db.intents[x].hold == msg.hold))
            && ((forall x | PD.Pending(db, x) && db.intents[x].hold == msg.hold ::
                   x in db'.intents && db'.intents[x].status == PD.FAILED)
                <==> (forall x | PD.Pending(db, x) && db.intents[x].hold == msg.hold :: db.intents[x].seat == msg.seat))
  {
    var db, db' := s.pay.db, Saga.Next(s, DeliverRelease(msg, first, eventId, now, ack)).pay.db;
    forall x | x in db.intents
      ensures x in db'.intents && (db'.intents[x] != db.intents[x] <==> x in PD.PendingBySeat(db, msg.seat))
    {
    }
    forall x | PD.Pending(db, x)
      ensures db'.intents[x].status == PD.FAILED <==> db.intents[x].seat == msg.seat
    {
      assert x in PD.PendingBySeat(db, msg.seat) <==> db.intents[x].seat == msg.seat;
    }
  }
}

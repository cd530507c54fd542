/** What the two services promise together, over every run. */
module SagaTheorems {
  import opened Base
  import opened Events
  import SD = SeatDb
  import ST = SeatTheorems
  import SR = SeatRaces
  import PD = PayDb
  import PT = PayTheorems
  import OB = Outbox
  import opened Saga

  ghost predicate ValidRun(s: State, acts: seq<Act>)
    decreases |acts|
  {
    acts == [] || (Saga.Enabled(s, acts[0]) && ValidRun(Saga.Next(s, acts[0]), acts[1..]))
  }

  ghost function Run(s: State, acts: seq<Act>): State
    requires ValidRun(s, acts)
    decreases |acts|
  {
    if acts == [] then s else Run(Saga.Next(s, acts[0]), acts[1..])
  }

  /** Both databases freshly migrated, nothing queued, nothing in memory. */
  predicate Fresh(s: State) {
    && ST.Fresh(s.seat) && PT.Fresh(s.pay)
    && s.seatBox == OB.Box(map[], [], map[], {}) && s.payBox == OB.Box(map[], [], map[], {})
    && s.toSeat == multiset{} && s.toPay == multiset{}
  }

  lemma FreshInv(s: State)
    requires Fresh(s)
    ensures Saga.Inv(s)
  {
    PT.FreshInv(s.pay);
  }

  lemma {:induction false} Reachable(s: State, acts: seq<Act>)
    requires Saga.Inv(s) && ValidRun(s, acts)
    ensures Saga.Inv(Run(s, acts))
    decreases |acts|
  {
    if acts != [] {
      StepKeepsInv(s, acts[0]);
      Reachable(Saga.Next(s, acts[0]), acts[1..]);
    }
  }

  /**
   * No reservation without payment, no blame without failure: whatever is duplicated,
   * delayed, reordered or crashes, a RESERVED hold has a COMPLETED intent for it, settled with
   * a readable trace id, and a hold released for `payment_failed` has a FAILED one.
   */
  lemma NoReservationWithoutPayment(s: State, acts: seq<Act>, h: Uuid)
    requires Fresh(s) && ValidRun(s, acts)
    ensures var t := Run(s, acts);
            Reserved(t.seat, h) ==>
              exists x :: x in t.pay.db.intents && t.pay.db.intents[x].hold == h
                  && t.pay.db.intents[x].status == PD.COMPLETED
                          && exists ev :: ev in t.pay.db.outbox && ev.intent == x && Pays(ev, h)
    ensures var t := Run(s, acts);
            (exists r :: r in t.seat.outbox && Blames(r) && r.hold == h) ==>
              exists x :: x in t.pay.db.intents && t.pay.db.intents[x].hold == h
                  && t.pay.db.intents[x].status == PD.FAILED
  {
    FreshInv(s);
    Reachable(s, acts);
    var t := Run(s, acts);
    if Reserved(t.seat, h) {
      assert ReservedPaid(t.seat, t.pay.db.outbox);
      var ev :| ev in t.pay.db.outbox && Pays(ev, h) && ev.eventId in t.seat.consumed;
      assert PD.EventFits(t.pay.db, ev) && ev.intent in t.pay.db.intents;
    }
    if r :| r in t.seat.outbox && Blames(r) && r.hold == h {
      assert BlamedFailed(t.seat, t.pay.db.outbox);
      var ev :| ev in t.pay.db.outbox && Fails(ev, r.hold);
      assert PD.EventFits(t.pay.db, ev) && ev.intent in t.pay.db.intents;
    }
  }

  predicate IntoReserved(m: map<Uuid, Uuid>, seat: SD.Db) {
    m.Keys == seat.consumed && forall e | e in m :: Reserved(seat, m[e])
  }

  predicate OntoReserved(m: map<Uuid, Uuid>, seat: SD.Db) {
    forall h | h in seat.holds && seat.holds[h].status == SD.RESERVED :: h in m.Values
  }

  predicate OneToOne(m: map<Uuid, Uuid>) {
    forall e, f | e in m && f in m && m[e] == m[f] :: e == f
  }

  /** `consumed_events` is in bijection with the RESERVED holds: each id stands for one, each has one. */
  lemma ConsumedBijection(s: State, acts: seq<Act>) returns (m: map<Uuid, Uuid>)
    requires Fresh(s) && ValidRun(s, acts)
    ensures IntoReserved(m, Run(s, acts).seat) && OntoReserved(m, Run(s, acts).seat) && OneToOne(m)
  {
    FreshInv(s);
    Reachable(s, acts);
    var t := Run(s, acts);
    m := ConsumedHolds(t.seat, t.pay.db.outbox);
    ConsumedInto(t.seat, t.pay.db.outbox);
    ConsumedOnto(t.seat, t.pay.db.outbox);
    ConsumedOneToOne(t.seat, t.pay.db.outbox);
  }

  /** For each consumed id, the hold its payment was for. */
  ghost function ConsumedHolds(seat: SD.Db, log: seq<PayEvent>): map<Uuid, Uuid> {
    map e | e in seat.consumed && e in Owners(log) :: Owners(log)[e]
  }

  lemma ConsumedInto(seat: SD.Db, log: seq<PayEvent>)
    requires ConsumedPaid(seat, log) && PD.EventsDistinct(log)
    ensures IntoReserved(ConsumedHolds(seat, log), seat)
  {
    forall e | e in seat.consumed ensures e in Owners(log) && Reserved(seat, Owners(log)[e]) {
      var ev :| ev in log && ev.eventId == e && Pays(ev, ev.hold) && Reserved(seat, ev.hold);
      OwnerIs(log, ev);
    }
  }

  lemma ConsumedOnto(seat: SD.Db, log: seq<PayEvent>)
    requires ReservedPaid(seat, log) && PD.EventsDistinct(log)
    ensures OntoReserved(ConsumedHolds(seat, log), seat)
  {
    forall h | h in seat.holds && seat.holds[h].status == SD.RESERVED ensures h in ConsumedHolds(seat, log).Values {
      assert Reserved(seat, h);
      var ev :| ev in log && Pays(ev, h) && ev.eventId in seat.consumed;
      OwnerIs(log, ev);
      assert ConsumedHolds(seat, log)[ev.eventId] == h;
    }
  }

  lemma ConsumedOneToOne(seat: SD.Db, log: seq<PayEvent>)
    requires ConsumedPaid(seat, log) && ConsumedOnce(seat, log) && PD.EventsDistinct(log)
    ensures OneToOne(ConsumedHolds(seat, log))
  {
    var m := ConsumedHolds(seat, log);
    forall e, f | e in m && f in m && m[e] == m[f] ensures e == f {
      var a :| a in log && a.eventId == e && Pays(a, a.hold);
      var b :| b in log && b.eventId == f && Pays(b, b.hold);
      OwnerIs(log, a);
      OwnerIs(log, b);
      assert Pays(b, a.hold);
    }
  }

  /**
   * No decided payment is lost on the way: while a hold is still active although its payment
   * has a readable outcome on record, that outcome is in its outbox row or in the queue.
   */
  lemma DecidedPaymentsArrive(s: State, acts: seq<Act>, i: nat)
    requires Fresh(s) && ValidRun(s, acts)
    ensures var t := Run(s, acts);
            i < |t.pay.db.outbox| && t.pay.db.outbox[i].traceOk && SD.Held(t.seat, t.pay.db.outbox[i].hold) ==>
              (i in t.payBox.table && t.payBox.table[i].payload == t.pay.db.outbox[i]) || t.pay.db.outbox[i] in t.toSeat
  {
    FreshInv(s);
    Reachable(s, acts);
    var t := Run(s, acts);
    if i < |t.pay.db.outbox| {
      if i in t.payBox.confirmed {
        assert Arrived(t, t.pay.db.outbox[i]);
      } else {
        assert i in t.payBox.table && OB.RowInv(t.payBox, i);
      }
    }
  }

  /**
   * A delivered outcome ends the active hold it names exactly when its trace id is readable.
   * The reprocessor's trace ids never are, so a payment it completes is never reserved.
   */
  lemma DeliveryEndsHoldExactly(s: State, acts: seq<Act>, ev: PayEvent, now: int)
    requires Fresh(s) && ValidRun(s, acts)
    requires var t := Run(s, acts); ev in t.toSeat && SD.Held(t.seat, ev.hold)
    ensures SD.Held(SD.HandlePayment(Run(s, acts).seat, ev, now), ev.hold) <==> !ev.traceOk
  {
    FreshInv(s);
    Reachable(s, acts);
    if ev.traceOk {
      HandledSettles(Run(s, acts), ev, now);
    }
  }

  /** Which hold each logged event id speaks of. */
  ghost function Owners(log: seq<PayEvent>): map<Uuid, Uuid> {
    map e | e in EventIds(log) :: WithId(log, e).hold
  }

  function EventIds(log: seq<PayEvent>): set<Uuid> {
    set ev | ev in log :: ev.eventId
  }

  ghost function WithId(log: seq<PayEvent>, e: Uuid): (ev: PayEvent)
    requires e in EventIds(log)
    ensures ev in log && ev.eventId == e
  {
    var ev :| ev in log && ev.eventId == e;
    ev
  }

  /** Every reachable seat database meets the condition under which repeated deliveries have one effect. */
  lemma DeliveriesAreOwned(s: State, acts: seq<Act>)
    requires Fresh(s) && ValidRun(s, acts)
    ensures var t := Run(s, acts);
            && SR.Owned(t.seat, Owners(t.pay.db.outbox))
            && forall ev | ev in t.toSeat :: SR.Labelled(ev, Owners(t.pay.db.outbox))
  {
    FreshInv(s);
    Reachable(s, acts);
    var t := Run(s, acts);
    var log := t.pay.db.outbox;
    forall e | e in t.seat.consumed && e in Owners(log)
      ensures Owners(log)[e] in t.seat.holds && !SD.Held(t.seat, Owners(log)[e])
    {
      assert ConsumedPaid(t.seat, log);
      var ev :| ev in log && ev.eventId == e && Reserved(t.seat, ev.hold);
      OwnerIs(log, ev);
    }
    forall ev | ev in t.toSeat ensures SR.Labelled(ev, Owners(log)) {
      OwnerIs(log, ev);
    }
  }

  lemma OwnerIs(log: seq<PayEvent>, ev: PayEvent)
    requires PD.EventsDistinct(log) && ev in log
    ensures ev.eventId in Owners(log) && Owners(log)[ev.eventId] == ev.hold
  {
    assert ev.eventId in EventIds(log);
    SameId(log, WithId(log, ev.eventId), ev);
  }
}

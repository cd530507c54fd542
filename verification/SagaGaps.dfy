/** Runs of both services, from a fresh start, in which something a reader might expect does not happen. */
module SagaGaps {
  import opened Base
  import opened Events
  import SD = SeatDb
  import SL = SeatLedger
  import ST = SeatTheorems
  import SR = SeatRaces
  import PD = PayDb
  import PS = PayService
  import PT = PayTheorems
  import OB = Outbox
  import opened Saga
  import opened SagaTheorems
  import opened SagaRuns
  import TM = SagaTermination

  // ---- Building blocks of a run ----

  /** No replica holds anything, and the rows from `from` on are there to be claimed. */
  predicate Waiting<E(!new)>(b: OB.Box<E>, from: nat) {
    && b.jobs == map[]
    && forall i: nat | from <= i < |b.appended| :: i in b.table && b.table[i].state == OB.Pending
  }

  lemma {:induction false} InsertedWaits<E(!new)>(b: OB.Box<E>, es: seq<E>, now: int, from: nat)
    requires Waiting(b, from)
    ensures Waiting(OB.InsertAll(b, es, now), from)
  {
    if es != [] {
      InsertedWaits(b, es[..|es| - 1], now, from);
    }
  }

  /** One transaction of the seat service, its events left waiting. */
  lemma SeatDoes(s: State, acts: seq<Act>, t: State, op: SD.Op, from: nat) returns (acts': seq<Act>, t': State)
    requires Reaches(s, acts, t) && Waiting(t.seatBox, from)
    requires !op.OpPayment? && SD.Enabled(t.seat, op) && (op.OpHold? ==> Unmentioned(t.pay, op.newHold))
    ensures Reaches(s, acts', t') && Waiting(t'.seatBox, from)
    ensures t' == t.(seat := SD.Step(t.seat, op), seatBox := t'.seatBox)
  {
    Grow(s, acts, SeatWork(op, 0));
    acts', t' := acts + [SeatWork(op, 0)], SeatTx(t, op, 0);
    if |t.seat.outbox| <= |t'.seat.outbox| { InsertedWaits(t.seatBox, t'.seat.outbox[|t.seat.outbox|..], 0, from); }
  }

  /** A run of the payment service, its events left waiting. */
  lemma {:induction false} PayDoes(s: State, acts: seq<Act>, t: State, ops: seq<PS.Op>, from: nat)
    returns (acts': seq<Act>, t': State)
    requires Reaches(s, acts, t) && Waiting(t.payBox, from)
    requires PT.ValidRun(t.pay, ops) && PT.Uncancelled(ops)
    ensures Reaches(s, acts', t') && Waiting(t'.payBox, from)
    ensures t' == t.(pay := PT.Run(t.pay, ops), payBox := t'.payBox)
  {
    if ops == [] {
      acts', t' := acts, t;
    } else {
      var n := |ops| - 1;
      acts', t' := PayDoes(s, acts, t, ops[..n], from);
      acts', t' := PayDoesOne(s, acts', t', ops[n], from);
    }
  }

  lemma PayDoesOne(s: State, acts: seq<Act>, t: State, op: PS.Op, from: nat) returns (acts': seq<Act>, t': State)
    requires Reaches(s, acts, t) && Waiting(t.payBox, from) && PS.Enabled(t.pay, op) && !op.CancelSeat?
    ensures Reaches(s, acts', t') && Waiting(t'.payBox, from)
    ensures t' == t.(pay := PS.Next(t.pay, op), payBox := t'.payBox)
  {
    Grow(s, acts, PayWork(op, 0));
    acts', t' := acts + [PayWork(op, 0)], PayTx(t, op, 0);
    if |t.pay.db.outbox| <= |t'.pay.db.outbox| {
      InsertedWaits(t.payBox, t'.pay.db.outbox[|t.pay.db.outbox|..], 0, from);
    }
  }

  lemma SeatPublishes(s: State, acts: seq<Act>, t: State, i: nat) returns (acts': seq<Act>, t': State)
    requires Reaches(s, acts, t) && Waiting(t.seatBox, i) && i < |t.seat.outbox| && t.seat.outbox[i].SeatReleased?
            && OB.Inv(t.seatBox)
    requires t.seatBox.appended == t.seat.outbox
    ensures Reaches(s, acts', t')
    ensures t' == t.(seatBox := t'.seatBox, toPay := t.toPay + multiset{t.seat.outbox[i]})
  {
    var claim, publish := OB.Claim(i, 0, t.seatBox.table[i].nextAt), OB.Publish(OB.Ticket(0, i), true);
    assert OB.RowInv(t.seatBox, i);
    Grow(s, acts, SeatRelay(claim, false));
    acts' := acts + [SeatRelay(claim, false)];
    var u := t.(seatBox := OB.Next(t.seatBox, claim));
    assert Run(s, acts') == u.(toPay := t.toPay + multiset{}) == u;
    Grow(s, acts', SeatRelay(publish, true));
    acts' := acts' + [SeatRelay(publish, true)];
    t' := Saga.Next(u, SeatRelay(publish, true));
    var e := t.seat.outbox[i];
    assert e in Sent(u.seatBox, publish, true) && Sent(u.seatBox, publish, true) == multiset{e};
  }

  lemma PayPublishes(s: State, acts: seq<Act>, t: State, i: nat) returns (acts': seq<Act>, t': State)
    requires Reaches(s, acts, t) && Waiting(t.payBox, i) && i < |t.pay.db.outbox| && OB.Inv(t.payBox)
    requires t.payBox.appended == t.pay.db.outbox
    ensures Reaches(s, acts', t')
    ensures t' == t.(payBox := t'.payBox, toSeat := t.toSeat + multiset{t.pay.db.outbox[i]})
  {
    var claim, publish := OB.Claim(i, 0, t.payBox.table[i].nextAt), OB.Publish(OB.Ticket(0, i), true);
    assert OB.RowInv(t.payBox, i);
    Grow(s, acts, PayRelay(claim, false));
    acts' := acts + [PayRelay(claim, false)];
    var u := t.(payBox := OB.Next(t.payBox, claim));
    assert Run(s, acts') == u.(toSeat := t.toSeat + multiset{}) == u;
    Grow(s, acts', PayRelay(publish, true));
    acts' := acts' + [PayRelay(publish, true)];
    t' := Saga.Next(u, PayRelay(publish, true));
    assert Sent(u.payBox, publish, true) == multiset{t.pay.db.outbox[i]};
  }

  lemma DeliversPayment(s: State, acts: seq<Act>, t: State, ev: PayEvent, now: int) returns (acts': seq<Act>, t': State)
    requires Reaches(s, acts, t) && ev in t.toSeat
    ensures Reaches(s, acts', t') && acts' == acts + [DeliverPayment(ev, now, true)]
    ensures t'.seat == SD.HandlePayment(t.seat, ev, now) && t'.pay == t.pay
  {
    Grow(s, acts, DeliverPayment(ev, now, true));
    acts', t' := acts + [DeliverPayment(ev, now, true)], Saga.Next(t, DeliverPayment(ev, now, true));
  }

  lemma DeliversRelease(s: State, acts: seq<Act>, t: State, msg: SeatEvent, first: Uuid, eventId: Uuid, from: nat)
    returns (acts': seq<Act>, t': State)
    requires Reaches(s, acts, t) && msg in t.toPay && PS.Enabled(t.pay, PS.CancelSeat(msg.seat, first, eventId))
            && Waiting(t.payBox, from)
    ensures Reaches(s, acts', t') && Waiting(t'.payBox, from)
    ensures t' == t.(pay := PS.Next(t.pay, PS.CancelSeat(msg.seat, first, eventId)), payBox := t'.payBox,
            toPay := t.toPay - multiset{msg})
  {
    var a := DeliverRelease(msg, first, eventId, 0, true);
    Grow(s, acts, a);
    acts', t' := acts + [a], Saga.Next(t, a);
    var pay' := PS.Next(t.pay, PS.CancelSeat(msg.seat, first, eventId));
    if |t.pay.db.outbox| <= |pay'.db.outbox| { InsertedWaits(t.payBox, pay'.db.outbox[|t.pay.db.outbox|..], 0, from); }
  }

  // ---- Two seats on sale ----

  function EmptyBox<E>(): OB.Box<E> {
    OB.Box(map[], [], map[], {})
  }

  function OnSale(): SD.Db {
    SD.Db(map[0 := SD.Seat(100, "USD", SD.AVAILABLE), 1 := SD.Seat(5, "USD", SD.AVAILABLE)], map[], {}, [])
  }

  function Venue(): State {
    var prices := map[0 := PD.Price(100, "USD"), 1 := PD.Price(5, "USD")];
    State(OnSale(), PS.State(PD.Db(map[], map[], prices, []), map[], map[], []),
          EmptyBox(), EmptyBox(), multiset{}, multiset{})
  }

  lemma Consistent(acts: seq<Act>, t: State)
    requires Reaches(Venue(), acts, t)
    ensures BoxesInv(t)
  {
    FreshInv(Venue());
    Reachable(Venue(), acts);
  }

  /** The only payment event so far is claimed and reaches the seat service's queue. */
  lemma PaymentQueued(acts: seq<Act>, t: State) returns (acts': seq<Act>, t': State)
    requires Reaches(Venue(), acts, t) && Waiting(t.payBox, 0) && |t.pay.db.outbox| == 1
    ensures Reaches(Venue(), acts', t')
    ensures t' == t.(payBox := t'.payBox, toSeat := t.toSeat + multiset{t.pay.db.outbox[0]})
  {
    Consistent(acts, t);
    acts', t' := PayPublishes(Venue(), acts, t, 0);
  }

  /** The second seat event, a release, is claimed and reaches the payment service's queue. */
  lemma ReleaseQueued(acts: seq<Act>, t: State) returns (acts': seq<Act>, t': State)
    requires Reaches(Venue(), acts, t) && Waiting(t.seatBox, 1) && |t.seat.outbox| > 1 && t.seat.outbox[1].SeatReleased?
    ensures Reaches(Venue(), acts', t')
    ensures t' == t.(seatBox := t'.seatBox, toPay := t.toPay + multiset{t.seat.outbox[1]})
  {
    Consistent(acts, t);
    acts', t' := SeatPublishes(Venue(), acts, t, 1);
  }

  const FIRST_HOLD: SD.Op := SD.OpHold(1, 0, 10, 0, 120000)

  lemma FirstHolds()
    ensures SD.Enabled(OnSale(), FIRST_HOLD)
    ensures var db := SD.Step(OnSale(), FIRST_HOLD);
            && db.holds == map[1 := SD.Hold(0, 10, SD.HELD, 120000)] && SD.Held(db, 1) && db.consumed == {}
            && db.seats == OnSale().seats[0 := SD.Seat(100, "USD", SD.SEAT_HELD)]
            && db.outbox == [SeatHeld(1, 0, 10, 120000, 100, "USD", 0)]
  {
    SR.InsertOutcomeExact(OnSale(), 1, 0, 10, 0, 120000);
    SR.InsertWrites(OnSale(), 1, 0, 10, 0, 120000);
  }

  /** User 10 holds the dear seat until 120000. */
  lemma SeatIsHeld() returns (acts: seq<Act>, t: State)
    ensures Reaches(Venue(), acts, t) && t == Venue().(seat := SD.Step(Venue().seat, FIRST_HOLD), seatBox := t.seatBox)
    ensures SD.Held(t.seat, 1) && t.seat.holds == map[1 := SD.Hold(0, 10, SD.HELD, 120000)] && |t.seat.outbox| == 1
    ensures 0 in t.seat.seats && Waiting(t.seatBox, 0) && t.seat.consumed == {} && SL.Inv(t.seat)
  {
    acts := [];
    FirstHolds();
    SL.StepKeepsInv(OnSale(), FIRST_HOLD);
    acts, t := SeatDoes(Venue(), acts, Venue(), FIRST_HOLD, 0);
  }

  /** The user gives the hold up: its event is the second in the log. */
  lemma UserReleases(acts: seq<Act>, t: State) returns (acts': seq<Act>, t': State)
    requires Reaches(Venue(), acts, t) && Waiting(t.seatBox, 0) && |t.seat.outbox| == 1
    requires t.seat.holds == map[1 := SD.Hold(0, 10, SD.HELD, 120000)] && 0 in t.seat.seats
    ensures Reaches(Venue(), acts', t') && Waiting(t'.seatBox, 1)
    ensures t' == t.(seat := t'.seat, seatBox := t'.seatBox)
    ensures t'.seat.holds == map[1 := SD.Hold(0, 10, SD.RELEASED, 120000)] && 0 in t'.seat.seats
    ensures t'.seat.outbox == t.seat.outbox + [SeatReleased(1, 0, UserCancelled, 1)]
  {
    acts', t' := SeatDoes(Venue(), acts, t, SD.OpRelease(1, 1), 0);
  }

  // ---- A reprocessed payment is not seated ----

  /** The success is received, its task crashes, and the event is read again. */
  lemma DroppedAndReread(p: PS.State, psp: string)
    requires p.db.inbox == map[] && p.hooks == map[] && p.checkouts == map[]
    ensures var receive := PS.Receive("evt", PD.HookSucceeded, psp, 0);
            && PS.Enabled(p, receive) && PS.Enabled(PS.Next(p, receive), PS.Crash({0}, {}))
            && var dropped := PS.Next(PS.Next(p, receive), PS.Crash({0}, {}));
               && PS.Enabled(dropped, PS.Reread("evt", 0, 0))
               && PS.Next(dropped, PS.Reread("evt", 0, 0))
                  == p.(db := p.db.(inbox := map["evt" := PD.InboxRow(PD.HookSucceeded, psp, false)]),
                        hooks := map[0 := PS.Hook("evt", PD.HookSucceeded, psp, false, PS.Reprocessor(0))])
  {
    var dropped := PS.Next(PS.Next(p, PS.Receive("evt", PD.HookSucceeded, psp, 0)), PS.Crash({0}, {}));
    assert dropped == p.(db := p.db.(inbox := map["evt" := PD.InboxRow(PD.HookSucceeded, psp, false)]));
  }

  /** A success settles the one intent it is about, with an event that is readable if the handler's. */
  lemma SettlesOne(p: PS.State, task: nat, x: Uuid, eventId: Uuid)
    requires task in p.hooks && !p.hooks[task].effected && p.hooks[task].kind == PD.HookSucceeded
    requires PD.PendingByPsp(p.db, p.hooks[task].psp) == {x} && PD.FreshEvent(p.db, eventId)
    ensures PS.Enabled(p, PS.Effected(task, x, eventId))
    ensures var p', hook, i := PS.Next(p, PS.Effected(task, x, eventId)), p.hooks[task], p.db.intents[x];
            && p'.db.intents == p.db.intents[x := i.(status := PD.COMPLETED)] && p'.db.inbox == p.db.inbox
            && p'.db.prices == p.db.prices && p'.hooks == p.hooks[task := hook.(effected := true)]
                && p'.checkouts == p.checkouts
            && p'.db.outbox == p.db.outbox + [PD.EventOf(p.db, x, PD.Succeed, eventId, hook.source.Handler?)]
  {
    assert x in PD.PendingByPsp(p.db, p.hooks[task].psp);
  }

  /** The reprocessor settles the payment with its own trace id. */
  lemma LateSuccess(p: PS.State) returns (ops: seq<PS.Op>)
    requires PT.Fresh(p) && 0 in p.db.prices
    ensures PT.ValidRun(p, ops) && PT.Uncancelled(ops)
    ensures var db := PT.Run(p, ops).db;
            |db.outbox| == 1 && db.outbox[0].PaymentSucceeded? && db.outbox[0].hold == 1 && !db.outbox[0].traceOk
  {
    ops := OneCheckout(p, 0);
    var t := PT.Run(p, ops);
    DroppedAndReread(t, PD.PspId("a"));
    var receive := PS.Receive("evt", PD.HookSucceeded, PD.PspId("a"), 0);
    ops := PT.ExtendThree(p, ops, receive, PS.Crash({0}, {}), PS.Reread("evt", 0, 0));
    SettlesOne(PT.Run(p, ops), 0, 1, 0);
    PT.Extend(p, ops, PS.Effected(0, 1, 0));
    ops := ops + [PS.Effected(0, 1, 0)];
  }

  /** Intent 1 for hold 1 is stored at the price of `seat`. */
  lemma OneCheckout(p: PS.State, seat: Uuid) returns (ops: seq<PS.Op>)
    requires PT.Fresh(p) && seat in p.db.prices
    ensures PT.ValidRun(p, ops) && PT.Uncancelled(ops)
    ensures var t := PT.Run(p, ops);
            && t == p.(db := p.db.(intents := map[1 := PT.IntentFor(p.db, "a", seat, 1)]), replies := t.replies)
            && PD.PendingByPsp(t.db, PD.PspId("a")) == {1}
  {
    ops := [];
    assert PT.ValidRun(p, ops);
    ops := PT.PlainCheckout(p, ops, "a", seat, 1, 1);
    assert p.db.intents == map[];
  }

  /**
   * A payment completed by the reprocessor waits in the seat service's queue, unreadable, for a
   * hold that is still active.
   */
  lemma ReprocessedIsUnreadable() returns (acts: seq<Act>, t: State, ev: PayEvent)
    ensures Fresh(Venue()) && Reaches(Venue(), acts, t)
    ensures ev in t.toSeat && ev.PaymentSucceeded? && !ev.traceOk && SD.Held(t.seat, ev.hold)
  {
    acts, t := SeatIsHeld();
    var ops := LateSuccess(t.pay);
    acts, t := PayDoes(Venue(), acts, t, ops, 0);
    ev := t.pay.db.outbox[0];
    acts, t := PaymentQueued(acts, t);
  }

  // ---- A release that tells about one of two intents ----

  lemma TwoIntents(p: PS.State) returns (ops: seq<PS.Op>)
    requires PT.Fresh(p) && 0 in p.db.prices
    ensures PT.ValidRun(p, ops) && PT.Uncancelled(ops)
    ensures var t := PT.Run(p, ops);
            && t.db == p.db.(intents := map[1 := PT.IntentFor(p.db, "a", 0, 1), 2 := PT.IntentFor(p.db, "b", 0, 1)])
            && t.hooks == map[] && PD.PendingBySeat(t.db, 0) == {1, 2}
            && PD.PendingByPsp(t.db, PD.PspId("a")) == {1} && PD.PendingByPsp(t.db, PD.PspId("b")) == {2}
  {
    ops := OneCheckout(p, 0);
    ops := PT.PlainCheckout(p, ops, "b", 0, 1, 2);
    DistinctPsps();
  }

  lemma DistinctPsps()
    ensures PD.PspId("a") != PD.PspId("b")
  {
    assert PD.PspId("a")[8] == 'a' && PD.PspId("b")[8] == 'b';
  }

  /** Both intents are pending when the release of their hold is queued. */
  lemma BothPending() returns (acts: seq<Act>, t: State)
    ensures Reaches(Venue(), acts, t) && Waiting(t.payBox, 0)
    ensures SeatReleased(1, 0, UserCancelled, 1) in t.toPay
    ensures t.pay.db.outbox == [] && PD.PendingBySeat(t.pay.db, 0) == {1, 2}
  {
    acts, t := SeatIsHeld();
    var ops := TwoIntents(t.pay);
    acts, t := PayDoes(Venue(), acts, t, ops, 0);
    acts, t := UserReleases(acts, t);
    acts, t := ReleaseQueued(acts, t);
  }

  /** Two checkouts of one held seat, one release: both intents fail, and only one failure is ever announced. */
  lemma CancelsUntold() returns (acts: seq<Act>, t: State)
    ensures Fresh(Venue()) && Reaches(Venue(), acts, t)
    ensures var db := t.pay.db;
            && 1 in db.intents && 2 in db.intents && db.intents[1].status == db.intents[2].status == PD.FAILED
            && |db.outbox| == 1 && db.outbox[0].intent == 1
  {
    acts, t := BothPending();
    acts, t := DeliversRelease(Venue(), acts, t, SeatReleased(1, 0, UserCancelled, 1), 1, 0, 0);
  }

  // ---- A hold that ends without an event ----

  /** A stale hold is replaced by the next user's: RELEASED, and never announced as such. */
  lemma LapsesSilently() returns (db: SD.Db, ops: seq<SD.Op>)
    ensures ST.Fresh(db) && ST.ValidRun(db, ops)
    ensures var db' := ST.Run(db, ops);
            && 1 in db'.holds && db'.holds[1].status == SD.RELEASED && SD.Held(db', 2)
            && ST.Lapsed(db'.outbox, 1) && !ST.HasEvent(db'.outbox, 1, SD.RELEASED)
  {
    db := OnSale();
    var held := SD.Step(db, FIRST_HOLD);
    FirstHolds();
    var next := SD.OpHold(2, 0, 20, 120001, 120000);
    SR.InsertOutcomeExact(held, 2, 0, 20, 120001, 120000);
    SR.InsertWrites(held, 2, 0, 20, 120001, 120000);
    var db' := SD.Step(held, next);
    ops := [];
    assert ST.ValidRun(db', ops);
    SR.Unroll(held, next, ops);
    SR.Unroll(db, FIRST_HOLD, [next] + ops);
    ops := [FIRST_HOLD] + ([next] + ops);
    assert ST.ReplacedBy(db'.outbox, 0, 1);
  }

  // ---- A release that hits the next holder ----

  lemma NextHolder(seat: SD.Db)
    requires 0 in seat.seats && seat.holds == map[1 := SD.Hold(0, 10, SD.RELEASED, 120000)]
    ensures SD.Enabled(seat, SD.OpHold(2, 0, 20, 2, 120000))
    ensures var seat' := SD.Step(seat, SD.OpHold(2, 0, 20, 2, 120000));
            && 2 in seat'.holds && seat'.holds[2] == SD.Hold(0, 20, SD.HELD, 120002) && seat.outbox <= seat'.outbox
            && 0 in seat'.seats
  {
    SR.InsertOutcomeExact(seat, 2, 0, 20, 2, 120000);
    SR.InsertWrites(seat, 2, 0, 20, 2, 120000);
  }

  /** User 10 holds and gives up; user 20 holds the seat until 120002. */
  lemma HeldAgain() returns (acts: seq<Act>, t: State)
    ensures Reaches(Venue(), acts, t) && Waiting(t.seatBox, 1)
    ensures t == Venue().(seat := t.seat, seatBox := t.seatBox)
    ensures |t.seat.outbox| > 1 && t.seat.outbox[1] == SeatReleased(1, 0, UserCancelled, 1)
    ensures 2 in t.seat.holds && t.seat.holds[2] == SD.Hold(0, 20, SD.HELD, 120002) && 0 in t.seat.seats
  {
    acts, t := SeatIsHeld();
    acts, t := UserReleases(acts, t);
    NextHolder(t.seat);
    acts, t := SeatDoes(Venue(), acts, t, SD.OpHold(2, 0, 20, 2, 120000), 1);
  }

  /** User 20, who now holds the seat, starts to pay for it. */
  lemma NextHolderPays() returns (acts: seq<Act>, t: State)
    ensures Reaches(Venue(), acts, t) && Waiting(t.seatBox, 1) && Waiting(t.payBox, 0) && t.toSeat == multiset{}
    ensures |t.seat.outbox| > 1 && t.seat.outbox[1] == SeatReleased(1, 0, UserCancelled, 1)
    ensures 2 in t.seat.holds && t.seat.holds[2] == SD.Hold(0, 20, SD.HELD, 120002) && 0 in t.seat.seats
    ensures PD.PendingBySeat(t.pay.db, 0) == {1} && t.pay.db.intents[1].hold == 2 && t.pay.db.outbox == []
    ensures t.pay.db.inbox == map[]
  {
    acts, t := HeldAgain();
    var none: seq<PS.Op> := [];
    assert PT.ValidRun(t.pay, none);
    var ops := PT.PlainCheckout(t.pay, none, "a", 0, 2, 1);
    acts, t := PayDoes(Venue(), acts, t, ops, 0);
  }

  /**
   * The late news of the first user's release cancels the second user's payment, and that
   * failure releases the second user's hold at 3, long before it expires. The provider never
   * said a word.
   */
  lemma ReleaseHitsNextHolder() returns (acts: seq<Act>, t: State)
    ensures Fresh(Venue()) && Reaches(Venue(), acts, t)
    ensures t.pay.db.inbox == map[] && |t.pay.db.outbox| == 1
    ensures var ev := t.pay.db.outbox[0]; ev.PaymentFailed? && ev.reason == SeatReleasedReason && ev.hold == 2
    ensures SeatReleased(1, 0, UserCancelled, 1) in t.seat.outbox
    ensures 2 in t.seat.holds && t.seat.holds[2] == SD.Hold(0, 20, SD.RELEASED, 120002)
    ensures SeatReleased(2, 0, PaymentFailedReason, 3) in t.seat.outbox
  {
    acts, t := NextHolderPays();
    var msg := t.seat.outbox[1];
    acts, t := ReleaseQueued(acts, t);
    acts, t := DeliversRelease(Venue(), acts, t, msg, 1, 0, 0);
    acts, t := FailureReleases(acts, t);
  }

  lemma FailureReleases(acts: seq<Act>, t: State) returns (acts': seq<Act>, t': State)
    requires Reaches(Venue(), acts, t) && Waiting(t.payBox, 0) && |t.pay.db.outbox| == 1
    requires var ev := t.pay.db.outbox[0]; ev.PaymentFailed? && ev.traceOk && ev.hold == 2
    requires 2 in t.seat.holds && t.seat.holds[2] == SD.Hold(0, 20, SD.HELD, 120002)
    ensures Reaches(Venue(), acts', t') && t'.pay == t.pay && t.seat.outbox <= t'.seat.outbox
    ensures 2 in t'.seat.holds && t'.seat.holds[2] == SD.Hold(0, 20, SD.RELEASED, 120002)
    ensures SeatReleased(2, 0, PaymentFailedReason, 3) in t'.seat.outbox
  {
    var ev := t.pay.db.outbox[0];
    acts', t' := PaymentQueued(acts, t);
    acts', t' := DeliversPayment(Venue(), acts', t', ev, 3);
  }

  // ---- Paid and not seated ----

  lemma EventArrives(p: PS.State, event: string, psp: string, task: nat)
    requires event !in p.db.inbox && task !in p.hooks
    ensures PS.Enabled(p, PS.Receive(event, PD.HookSucceeded, psp, task))
    ensures PS.Next(p, PS.Receive(event, PD.HookSucceeded, psp, task))
            == p.(db := p.db.(inbox := p.db.inbox[event := PD.InboxRow(PD.HookSucceeded, psp, false)]),
                  hooks := p.hooks[task := PS.Hook(event, PD.HookSucceeded, psp, false, PS.Handler)])
  {
  }

  /** The provider reports success, and the handler's task settles the one intent it is about. */
  lemma Succeeds(p: PS.State, ops: seq<PS.Op>, event: string, psp: string, task: nat, x: Uuid, eventId: Uuid)
    returns (ops': seq<PS.Op>)
    requires PT.ValidRun(p, ops) && PT.Uncancelled(ops)
    requires var t := PT.Run(p, ops);
             && event !in t.db.inbox && task !in t.hooks
             && PD.PendingByPsp(t.db, psp) == {x} && PD.FreshEvent(t.db, eventId)
    ensures PT.ValidRun(p, ops') && PT.Uncancelled(ops')
    ensures var t, t' := PT.Run(p, ops), PT.Run(p, ops');
            && t'.db.intents == t.db.intents[x := t.db.intents[x].(status := PD.COMPLETED)]
            && t'.db.inbox.Keys == t.db.inbox.Keys + {event} && t'.hooks.Keys == t.hooks.Keys + {task}
            && t'.db.outbox == t.db.outbox + [PD.EventOf(t.db, x, PD.Succeed, eventId, true)]
  {
    EventArrives(PT.Run(p, ops), event, psp, task);
    PT.Extend(p, ops, PS.Receive(event, PD.HookSucceeded, psp, task));
    ops' := ops + [PS.Receive(event, PD.HookSucceeded, psp, task)];
    SettlesOne(PT.Run(p, ops'), task, x, eventId);
    PT.Extend(p, ops', PS.Effected(task, x, eventId));
    ops' := ops' + [PS.Effected(task, x, eventId)];
  }

  lemma Success(p: PS.State, seat: Uuid) returns (ops: seq<PS.Op>)
    requires PT.Fresh(p) && seat in p.db.prices
    ensures PT.ValidRun(p, ops) && PT.Uncancelled(ops)
    ensures var db := PT.Run(p, ops).db;
            && |db.outbox| == 1 && db.outbox[0].PaymentSucceeded? && db.outbox[0].hold == 1 && db.outbox[0].traceOk
            && 1 in db.intents && db.intents[1] == PT.IntentFor(p.db, "a", seat, 1).(status := PD.COMPLETED)
  {
    ops := OneCheckout(p, seat);
    ops := Succeeds(p, ops, "evt", PD.PspId("a"), 0, 1, 0);
  }

  /**
   * The payment succeeds while the user gives the hold up. Even when both services have nothing
   * left to do, the intent is COMPLETED and its hold RELEASED: nobody refunds it.
   */
  lemma PaidNotSeated() returns (acts: seq<Act>, t: State)
    ensures Fresh(Venue()) && Reaches(Venue(), acts, t) && TM.Drained(t)
    ensures 1 in t.pay.db.intents && t.pay.db.intents[1].status == PD.COMPLETED && t.pay.db.intents[1].hold == 1
    ensures 1 in t.seat.holds && t.seat.holds[1].status == SD.RELEASED
  {
    acts, t := SeatIsHeld();
    var ops := Success(t.pay, 0);
    acts, t := PayDoes(Venue(), acts, t, ops, 0);
    acts, t := UserReleases(acts, t);
    acts, t := ThenDrains(acts, t, 1, 1);
  }

  lemma ThenDrains(acts: seq<Act>, t: State, h: Uuid, x: Uuid) returns (acts': seq<Act>, t': State)
    requires Reaches(Venue(), acts, t)
    ensures Reaches(Venue(), acts', t') && TM.Drained(t')
    ensures h in t.seat.holds && !SD.Held(t.seat, h) ==> h in t'.seat.holds && t'.seat.holds[h] == t.seat.holds[h]
    ensures x in t.pay.db.intents && t.pay.db.intents[x].status != PD.PENDING ==>
              x in t'.pay.db.intents && t'.pay.db.intents[x] == t.pay.db.intents[x]
  {
    FreshInv(Venue());
    Reachable(Venue(), acts);
    var replicas := TM.SomeCrew(t);
    var more := TM.AlwaysDrains(t, replicas);
    EndsStay(t, more, h, x);
    t' := Run(t, more);
    acts' := Continue(Venue(), acts, t, more);
  }

  // ---- A dear seat at a cheap seat's price ----

  /**
   * User 10 holds the dear seat; user 9 checks out that hold but names the cheap seat, pays 5,
   * and the dear seat is reserved.
   */
  lemma ReservedCheaply() returns (acts: seq<Act>, t: State)
    ensures Fresh(Venue()) && Reaches(Venue(), acts, t)
    ensures Reserved(t.seat, 1) && t.seat.holds[1].seat == 0 && t.seat.holds[1].user == 10
    ensures 0 in t.seat.seats && t.seat.seats[0].price == 100 && t.seat.seats[0].status == SD.SEAT_RESERVED
    ensures var db := t.pay.db;
            && 1 in db.intents && db.intents[1].status == PD.COMPLETED && db.intents[1].hold == 1
            && db.intents[1].amount == 5 && db.intents[1].seat == 1 && db.intents[1].user == 9
  {
    acts, t := SeatIsHeld();
    FirstHolds();
    var ops := Success(t.pay, 1);
    acts, t := PayDoes(Venue(), acts, t, ops, 0);
    acts, t := SuccessReserves(acts, t);
  }

  lemma SuccessReserves(acts: seq<Act>, t: State) returns (acts': seq<Act>, t': State)
    requires Reaches(Venue(), acts, t) && Waiting(t.payBox, 0) && |t.pay.db.outbox| == 1 && t.seat.consumed == {}
    requires var ev := t.pay.db.outbox[0]; ev.PaymentSucceeded? && ev.traceOk && ev.hold == 1
    requires SD.Held(t.seat, 1) && t.seat.holds[1].seat in t.seat.seats
    ensures Reaches(Venue(), acts', t') && t'.pay == t.pay
    ensures var hold := t.seat.holds[1];
            && 1 in t'.seat.holds && t'.seat.holds[1] == hold.(status := SD.RESERVED)
            && t'.seat.seats == t.seat.seats[hold.seat := t.seat.seats[hold.seat].(status := SD.SEAT_RESERVED)]
  {
    var ev := t.pay.db.outbox[0];
    acts', t' := PaymentQueued(acts, t);
    acts', t' := DeliversPayment(Venue(), acts', t', ev, 1);
  }

  // ---- One hold paid for twice ----

  lemma SecondSuccess(p: PS.State) returns (ops: seq<PS.Op>)
    requires PT.Fresh(p) && 0 in p.db.prices
    ensures PT.ValidRun(p, ops) && PT.Uncancelled(ops) && PT.CompletedFor(PT.Run(p, ops).db, 1) == {1, 2}
  {
    ops := TwoIntents(p);
    DistinctPsps();
    ops := Succeeds(p, ops, "evt", PD.PspId("a"), 0, 1, 0);
    ops := Succeeds(p, ops, "other", PD.PspId("b"), 1, 2, 1);
  }

  /** Two checkouts of one hold under different keys, both paid: the hold is charged twice. */
  lemma ChargedTwice() returns (acts: seq<Act>, t: State)
    ensures Fresh(Venue()) && Reaches(Venue(), acts, t)
    ensures SD.Held(t.seat, 1) && PT.CompletedFor(t.pay.db, 1) == {1, 2}
  {
    acts, t := SeatIsHeld();
    var ops := SecondSuccess(t.pay);
    acts, t := PayDoes(Venue(), acts, t, ops, 0);
  }
}

/** Races on the seat database: conflicting inserts, repeated deliveries, re-held seats. */
module SeatRaces {
  import opened Base
  import opened Events
  import opened SeatDb
  import opened SeatLedger
  import opened SeatTheorems

  // ---- Insert conflicts ----

  ghost predicate LiveOnSeat(db: Db, seat: Uuid, now: int) {
    exists k :: Held(db, k) && db.holds[k].seat == seat && db.holds[k].heldUntil >= now
  }

  ghost predicate UserBusyElsewhere(db: Db, seat: Uuid, user: Uuid, now: int) {
    exists k :: Held(db, k) && db.holds[k].user == user && !(db.holds[k].seat == seat && db.holds[k].heldUntil < now)
  }

  /**
   * The insert commits exactly when the seat exists, nobody holds it unexpired and the user's
   * only hold, if any, is an expired one on this very seat. Otherwise the reply names the first
   * broken constraint and the database, cleanup included, is as it was.
   */
  lemma InsertOutcomeExact(db: Db, h: Uuid, seat: Uuid, user: Uuid, now: int, ttl: nat)
    requires h !in db.holds
    ensures InsertOutcomeOf(db, seat, user, now) ==
              (if LiveOnSeat(db, seat, now) then SeatTaken
               else if UserBusyElsewhere(db, seat, user, now) then UserHasHold
               else if seat !in db.seats then NoSuchSeat
               else Inserted)
    ensures var db' := InsertHold(db, h, seat, user, now, ttl);
            if InsertOutcomeOf(db, seat, user, now) != Inserted then db' == db
            else Held(db', h) && db'.holds[h].seat == seat && db'.holds[h].user == user
  {
    var cleaned := Cleanup(db, seat, now);
    if LiveOnSeat(db, seat, now) {
      var k :| Held(db, k) && db.holds[k].seat == seat && db.holds[k].heldUntil >= now;
      assert Held(cleaned, k);
    }
    if SeatHeldBySomeone(cleaned, seat) {
      var k :| Held(cleaned, k) && cleaned.holds[k].seat == seat;
      assert Held(db, k);
    }
    if UserBusyElsewhere(db, seat, user, now) {
      var k :| Held(db, k) && db.holds[k].user == user && !(db.holds[k].seat == seat && db.holds[k].heldUntil < now);
      assert Held(cleaned, k);
    }
    if UserHoldsSomething(cleaned, user) {
      var k :| Held(cleaned, k) && cleaned.holds[k].user == user;
      assert Held(db, k);
    }
  }

  /**
   * What a committed insert writes, and all it writes: its own row, RELEASED on the expired
   * holds of this seat, HELD on the seat, and one event carrying the seat's price.
   */
  lemma InsertWrites(db: Db, h: Uuid, seat: Uuid, user: Uuid, now: int, ttl: nat)
    requires h !in db.holds && InsertOutcomeOf(db, seat, user, now) == Inserted
    ensures var db' := InsertHold(db, h, seat, user, now, ttl);
            && db'.holds.Keys == db.holds.Keys + {h} && db'.holds[h] == Hold(seat, user, HELD, now + ttl)
            && (forall k | k in db.holds :: db'.holds[k] ==
                  if db.holds[k].seat == seat && Stale(db, k, now)
                  then db.holds[k].(status := RELEASED) else db.holds[k])
            && db'.seats == db.seats[seat := db.seats[seat].(status := SEAT_HELD)] && db'.consumed == db.consumed
            && db'.outbox == db.outbox + [SeatHeld(h, seat, user, now + ttl, db.seats[seat].price,
                db.seats[seat].currency, now)]
  {
  }

  // ---- The sweeper's whole loop ----

  /** The rows a sweep announces, in the batch's order. */
  function Announced(db: Db, batch: seq<Uuid>, now: int): seq<SeatEvent>
    requires forall i | 0 <= i < |batch| :: batch[i] in db.holds
  {
    if batch == [] then []
    else Announced(db, batch[..|batch| - 1], now)
         + [SeatReleased(batch[|batch| - 1], db.holds[batch[|batch| - 1]].seat, SweeperReason, now)]
  }

  /** An effective release frees the seat unconditionally: the hold was its only active one. */
  lemma ReleaseWrites(db: Db, h: Uuid, reason: ReleaseReason, now: int)
    requires Inv(db)
    ensures ReleaseHold(db, h, reason, now) ==
              if !(h in db.holds && db.holds[h].status == HELD) then db
              else
                var seat := db.holds[h].seat;
                db.(holds := db.holds[h := db.holds[h].(status := RELEASED)],
                    seats := db.seats[seat := db.seats[seat].(status := AVAILABLE)],
                    outbox := db.outbox + [SeatReleased(h, seat, reason, now)])
    ensures h in db.holds && db.holds[h].status == HELD ==>
              Step(db, OpRelease(h, now)).outbox == db.outbox + [SeatReleased(h, db.holds[h].seat, UserCancelled, now)]
  {
    if Held(db, h) { ReleaseFreesSeat(db, h); }
  }

  /**
   * A readable payment event for an active hold ends it and says so: a success, unless its id
   * has been consumed, reserves hold and seat and consumes the id; a failure releases the hold,
   * blaming the payment, and frees the seat. Any other event changes nothing.
   */
  lemma PaymentWrites(db: Db, ev: PayEvent, now: int)
    requires Inv(db)
    ensures var h, db' := ev.hold, HandlePayment(db, ev, now);
            if !ev.traceOk || h !in db.holds || db.holds[h].status != HELD then db' == db
            else
              var hold := db.holds[h];
              var seat := db.seats[hold.seat];
              if ev.PaymentFailed? then
                db' == db.(holds := db.holds[h := hold.(status := RELEASED)],
                           seats := db.seats[hold.seat := seat.(status := AVAILABLE)],
                           outbox := db.outbox + [SeatReleased(h, hold.seat, PaymentFailedReason, now)])
              else if ev.eventId in db.consumed then db' == db
              else
                db' == db.(holds := db.holds[h := hold.(status := RESERVED)], consumed := db.consumed + {ev.eventId},
                           seats := db.seats[hold.seat := seat.(status := SEAT_RESERVED)],
                           outbox := db.outbox + [SeatReserved(h, hold.seat, hold.user, now)])
  {
    if ev.PaymentFailed? { ReleaseWrites(db, ev.hold, PaymentFailedReason, now); }
  }

  // ---- A hold is left alone until it expires ----

  /** The step neither releases nor settles the hold, and reads a clock no later than `limit`. */
  predicate Spares(op: Op, h: Uuid, limit: int) {
    match op
    case OpHold(_, _, _, now, _) => now <= limit
    case OpRelease(k, _) => k != h
    case OpSweep(_, now) => now <= limit
    case OpPayment(ev, _) => ev.hold != h
  }

  lemma OneStepSpares(db: Db, op: Op, h: Uuid)
    requires Enabled(db, op) && h in db.holds && db.holds[h].status == HELD && Spares(op, h, db.holds[h].heldUntil)
    ensures h in Step(db, op).holds && Step(db, op).holds[h] == db.holds[h]
  {
    if op.OpSweep? { SweepKeepsEnded(db, op.batch, op.now); }
  }

  /**
   * Until its time has passed a hold ends only by its user or by a payment: no sweep, no cleanup
   * and nobody else's request of any run touches it.
   */
  lemma {:induction false} UnexpiredSurvives(db: Db, ops: seq<Op>, h: Uuid)
    requires ValidRun(db, ops) && h in db.holds && db.holds[h].status == HELD
    requires forall i | 0 <= i < |ops| :: Spares(ops[i], h, db.holds[h].heldUntil)
    ensures h in Run(db, ops).holds && Run(db, ops).holds[h] == db.holds[h]
    decreases |ops|
  {
    if ops != [] {
      OneStepSpares(db, ops[0], h);
      UnexpiredSurvives(Step(db, ops[0]), ops[1..], h);
    }
  }

  /** Once expired, it can be swept, and it no longer keeps anybody off its seat. */
  lemma ExpiredGoes(db: Db, h: Uuid, now: int)
    requires Inv(db) && h in db.holds && db.holds[h].status == HELD
    ensures Enabled(db, OpSweep([h], now)) <==> db.holds[h].heldUntil < now
    ensures forall user :: InsertOutcomeOf(db, db.holds[h].seat, user, now) == SeatTaken
                           <==> db.holds[h].heldUntil >= now
  {
    assert [h][0] == h;
    forall user ensures InsertOutcomeOf(db, db.holds[h].seat, user, now) == SeatTaken <==> db.holds[h].heldUntil >= now
    {
      var cleaned := Cleanup(db, db.holds[h].seat, now);
      if db.holds[h].heldUntil >= now {
        assert Held(cleaned, h);
      } else if k :| Held(cleaned, k) && cleaned.holds[k].seat == db.holds[h].seat {
        assert Held(db, k) && k != h;
      }
    }
  }

  /** Seats some hold of the batch was on. */
  predicate OnBatch(db: Db, batch: seq<Uuid>, seat: Uuid)
    requires forall i | 0 <= i < |batch| :: batch[i] in db.holds
  {
    exists i :: 0 <= i < |batch| && db.holds[batch[i]].seat == seat
  }

  /** Exactly the batch's seats have become AVAILABLE. */
  predicate Freed(db: Db, seats: map<Uuid, Seat>, batch: seq<Uuid>)
    requires forall i | 0 <= i < |batch| :: batch[i] in db.holds
  {
    seats.Keys == db.seats.Keys
    && forall s | s in db.seats ::
         seats[s] == if OnBatch(db, batch, s) then db.seats[s].(status := AVAILABLE) else db.seats[s]
  }

  lemma FreedSnoc(db: Db, seats: map<Uuid, Seat>, rest: seq<Uuid>, h: Uuid)
    requires (forall i | 0 <= i < |rest| :: rest[i] in db.holds) && h in db.holds && db.holds[h].seat in db.seats
    requires Freed(db, seats, rest)
    ensures var seat := db.holds[h].seat;
            Freed(db, seats[seat := seats[seat].(status := AVAILABLE)], rest + [h])
  {
    OnBatchSnoc(db, rest, h);
  }

  lemma {:induction false} SweepRowsWrite(db: Db, batch: seq<Uuid>, now: int)
    requires forall i | 0 <= i < |batch| :: batch[i] in db.holds && db.holds[batch[i]].seat in db.seats
                                            && !SeatHeldBySomeone(db, db.holds[batch[i]].seat)
    ensures SweepRows(db, batch, now).outbox == db.outbox + Announced(db, batch, now)
    ensures Freed(db, SweepRows(db, batch, now).seats, batch)
  {
    if batch != [] {
      var rest, h := batch[..|batch| - 1], batch[|batch| - 1];
      SweepRowsWrite(db, rest, now);
      SweepRowsHolds(db, rest, now);
      var done := SweepRows(db, rest, now);
      assert SeatHeldBySomeone(done, db.holds[h].seat) == SeatHeldBySomeone(db, db.holds[h].seat);
      FreedSnoc(db, done.seats, rest, h);
      assert batch == rest + [h];
    }
  }

  /**
   * One sweep releases exactly its batch, frees exactly the batch's seats (the NOT EXISTS guard
   * never bites) and announces each hold once, in order.
   */
  lemma SweepWrites(db: Db, batch: seq<Uuid>, now: int)
    requires Inv(db) && SweepBatch(db, batch, now)
    ensures Sweep(db, batch, now).holds == ReleaseAll(db, batch).holds
    ensures Sweep(db, batch, now).outbox == db.outbox + Announced(ReleaseAll(db, batch), batch, now)
    ensures Freed(ReleaseAll(db, batch), Sweep(db, batch, now).seats, batch)
  {
    var all := ReleaseAll(db, batch);
    SweepKeepsEnded(db, batch, now);
    forall i | 0 <= i < |batch|
      ensures all.holds[batch[i]].seat in all.seats && !SeatHeldBySomeone(all, all.holds[batch[i]].seat)
    {
      SweepLeavesNoHold(db, batch, now, i);
    }
    SweepRowsWrite(all, batch, now);
  }

  lemma OnBatchSnoc(db: Db, rest: seq<Uuid>, h: Uuid)
    requires (forall i | 0 <= i < |rest| :: rest[i] in db.holds) && h in db.holds
    ensures forall s :: OnBatch(db, rest + [h], s) <==> OnBatch(db, rest, s) || db.holds[h].seat == s
  {
    forall s ensures OnBatch(db, rest + [h], s) <==> OnBatch(db, rest, s) || db.holds[h].seat == s {
      if OnBatch(db, rest, s) {
        var i :| 0 <= i < |rest| && db.holds[rest[i]].seat == s;
        assert (rest + [h])[i] == rest[i];
      }
      assert (rest + [h])[|rest|] == h;
    }
  }

  // ---- Exactly-once effect from at-least-once delivery ----

  /** `owner` says which hold each event id speaks of; an id is consumed only by ending its hold. */
  ghost predicate Owned(db: Db, owner: map<Uuid, Uuid>) {
    forall e | e in db.consumed && e in owner :: owner[e] in db.holds && !Held(db, owner[e])
  }

  ghost predicate Labelled(ev: PayEvent, owner: map<Uuid, Uuid>) {
    ev.PaymentSucceeded? ==> ev.eventId in owner && owner[ev.eventId] == ev.hold
  }

  lemma {:induction false} SweepKeepsEnded(db: Db, batch: seq<Uuid>, now: int)
    requires SweepBatch(db, batch, now)
    ensures Sweep(db, batch, now).holds == ReleaseAll(db, batch).holds
    ensures Sweep(db, batch, now).consumed == db.consumed
  {
    SweepRowsHolds(ReleaseAll(db, batch), batch, now);
    SweepRowsConsumed(ReleaseAll(db, batch), batch, now);
  }

  lemma {:induction false} SweepRowsConsumed(db: Db, batch: seq<Uuid>, now: int)
    requires forall i | 0 <= i < |batch| :: batch[i] in db.holds
    ensures SweepRows(db, batch, now).consumed == db.consumed
  {
    if batch != [] {
      SweepRowsConsumed(db, batch[..|batch| - 1], now);
    }
  }

  /** A hold that has ended is never written again, by anyone. */
  lemma EndedIsFinal(db: Db, op: Op, h: Uuid)
    requires Enabled(db, op) && h in db.holds && !Held(db, h)
    ensures h in Step(db, op).holds && Step(db, op).holds[h] == db.holds[h]
  {
    match op
    case OpHold(_, _, _, _, _) =>
    case OpRelease(_, _) =>
    case OpSweep(batch, now) => SweepKeepsEnded(db, batch, now);
    case OpPayment(_, _) =>
  }

  lemma OwnedKept(db: Db, op: Op, owner: map<Uuid, Uuid>)
    requires Enabled(db, op) && Owned(db, owner)
    requires op.OpPayment? ==> Labelled(op.ev, owner)
    ensures Owned(Step(db, op), owner)
  {
    if op.OpSweep? {
      SweepKeepsEnded(db, op.batch, op.now);
    }
    forall e | e in db.consumed && e in owner ensures owner[e] in Step(db, op).holds && !Held(Step(db, op), owner[e]) {
      EndedIsFinal(db, op, owner[e]);
    }
  }

  /** Handling any readable payment event ends the hold it names, if there is one. */
  lemma DeliveryEndsHold(db: Db, ev: PayEvent, now: int, owner: map<Uuid, Uuid>)
    requires Owned(db, owner) && Labelled(ev, owner) && ev.traceOk && ev.hold in db.holds
    ensures ev.hold in HandlePayment(db, ev, now).holds && !Held(HandlePayment(db, ev, now), ev.hold)
  {
  }

  /** Drops every delivery about a hold that an earlier readable delivery already found. */
  ghost function Dedup(db: Db, ops: seq<Op>, seen: set<Uuid>): seq<Op>
    requires ValidRun(db, ops)
    decreases |ops|
  {
    if ops == [] then []
    else
      var op := ops[0];
      var found := op.OpPayment? && op.ev.traceOk && op.ev.hold in db.holds;
      var rest := Dedup(Step(db, op), ops[1..], if found then seen + {op.ev.hold} else seen);
      if op.OpPayment? && op.ev.hold in seen then rest else [op] + rest
  }

  /**
   * Deliveries repeated, contradicting or late, interleaved with any other work of the
   * service, leave the same database as the run that keeps only the first one per hold.
   */
  lemma {:induction false} ExactlyOnce(db: Db, ops: seq<Op>, seen: set<Uuid>, owner: map<Uuid, Uuid>)
    requires ValidRun(db, ops) && Owned(db, owner)
    requires forall i | 0 <= i < |ops| && ops[i].OpPayment? :: Labelled(ops[i].ev, owner)
    requires forall h | h in seen :: h in db.holds && !Held(db, h)
    ensures ValidRun(db, Dedup(db, ops, seen))
    ensures Run(db, Dedup(db, ops, seen)) == Run(db, ops)
    decreases |ops|
  {
    if ops != [] {
      var op := ops[0];
      var db' := Step(db, op);
      OwnedKept(db, op, owner);
      var found := op.OpPayment? && op.ev.traceOk && op.ev.hold in db.holds;
      var seen' := if found then seen + {op.ev.hold} else seen;
      if found {
        DeliveryEndsHold(db, op.ev, op.now, owner);
      }
      forall h | h in seen ensures h in db'.holds && !Held(db', h) { EndedIsFinal(db, op, h); }
      ExactlyOnce(db', ops[1..], seen', owner);
      var rest := Dedup(db', ops[1..], seen');
      if op.OpPayment? && op.ev.hold in seen {
        assert db' == db;
      } else {
        assert ([op] + rest)[1..] == rest;
      }
    }
  }

  // ---- One reservation per seat ----

  /** What a reader expects of RESERVED: one winner per seat, and the seat column says so. */
  ghost predicate OneWinner(db: Db) {
    && (forall h, k | h in db.holds && k in db.holds && db.holds[h].status == RESERVED && db.holds[k].status == RESERVED
                      && db.holds[h].seat == db.holds[k].seat :: h == k)
    && (forall h | h in db.holds && db.holds[h].status == RESERVED && db.holds[h].seat in db.seats ::
          db.seats[db.holds[h].seat].status == SEAT_RESERVED)
  }

  /** The check `insertHoldTx` does not make: the seat is already sold. */
  ghost predicate HoldsSoldSeat(db: Db, op: Op) {
    && op.OpHold? && InsertOutcomeOf(db, op.seat, op.user, op.now) == Inserted
    && db.seats[op.seat].status == SEAT_RESERVED
  }

  /** While a hold of a seat is active, nobody has won that seat. */
  lemma ActiveMeansUnsold(db: Db, h: Uuid, k: Uuid)
    requires Inv(db) && OneWinner(db) && Held(db, h)
    requires k in db.holds && db.holds[k].status == RESERVED
    ensures db.holds[k].seat != db.holds[h].seat
  {
    SeatColumn(db, db.holds[h].seat);
  }

  lemma ReleaseKeepsWinner(db: Db, h: Uuid, reason: ReleaseReason, now: int)
    requires Inv(db) && OneWinner(db)
    ensures OneWinner(ReleaseHold(db, h, reason, now))
  {
    if Held(db, h) {
      forall k | k in db.holds && db.holds[k].status == RESERVED { ActiveMeansUnsold(db, h, k); }
    }
  }

  lemma ReserveKeepsWinner(db: Db, h: Uuid, eventId: Uuid, now: int)
    requires Inv(db) && OneWinner(db)
    ensures OneWinner(ReserveHold(db, h, eventId, now))
  {
    if Held(db, h) {
      forall k | k in db.holds && db.holds[k].status == RESERVED { ActiveMeansUnsold(db, h, k); }
    }
  }

  lemma {:induction false} SweepKeepsWinner(db: Db, batch: seq<Uuid>, now: int)
    requires Inv(db) && OneWinner(db) && SweepBatch(db, batch, now)
    ensures OneWinner(Sweep(db, batch, now))
  {
    if batch == [] {
      assert ReleaseAll(db, batch).holds == db.holds;
    } else {
      var rest := batch[..|batch| - 1];
      SweepUnfolds(db, batch, now);
      SweepKeepsInv(db, rest, now);
      SweepKeepsWinner(db, rest, now);
      ReleaseKeepsWinner(Sweep(db, rest, now), batch[|batch| - 1], SweeperReason, now);
    }
  }

  lemma StartKeepsWinner(db: Db, h: Uuid, seat: Uuid, user: Uuid, now: int, db': Db)
    requires OneWinner(db) && h !in db.holds && seat in db.seats && db.seats[seat].status != SEAT_RESERVED
    requires db'.seats == SetSeat(db, seat, SEAT_HELD).seats
    requires db'.holds.Keys == db.holds.Keys + {h} && db'.holds[h].status == HELD
    requires forall k | k in db.holds :: Replaces(db.holds[k], db'.holds[k], seat, user, now)
    ensures OneWinner(db')
  {
    forall k | k in db'.holds && db'.holds[k].status == RESERVED
      ensures k in db.holds && db.holds[k].status == RESERVED && db'.holds[k].seat == db.holds[k].seat
    {
      assert Replaces(db.holds[k], db'.holds[k], seat, user, now);
    }
  }

  lemma InsertKeepsWinner(db: Db, h: Uuid, seat: Uuid, user: Uuid, now: int, ttl: nat)
    requires Inv(db) && OneWinner(db) && h !in db.holds
    requires InsertOutcomeOf(db, seat, user, now) == Inserted
    ensures OneWinner(InsertHold(db, h, seat, user, now, ttl)) <==> db.seats[seat].status != SEAT_RESERVED
  {
    var db' := InsertHold(db, h, seat, user, now, ttl);
    if db.seats[seat].status == SEAT_RESERVED {
      var k := SoldTo(db, seat);
      EndedIsFinal(db, OpHold(h, seat, user, now, ttl), k);
      assert db'.holds[k].status == RESERVED && db'.seats[seat].status == SEAT_HELD;
    } else {
      forall k | k in db.holds { InsertIsolates(db, h, seat, user, now, ttl, k); }
      assert db'.holds.Keys == db.holds.Keys + {h};
      StartKeepsWinner(db, h, seat, user, now, db');
    }
  }

  /** A seat marked RESERVED was won by the hold its newest event names. */
  lemma SoldTo(db: Db, seat: Uuid) returns (h: Uuid)
    requires Inv(db) && seat in db.seats && db.seats[seat].status == SEAT_RESERVED
    ensures h in db.holds && db.holds[h].seat == seat && db.holds[h].status == RESERVED
  {
    LastIsLogged(db.outbox, seat);
    var e := Last(db.outbox, seat).value;
    h := e.hold;
    assert EventFits(db, e);
    HoldLedger(db, h);
    assert HasEvent(db.outbox, h, RESERVED);
  }

  /** One winner per seat survives a transaction exactly when it does not hold a sold seat. */
  lemma OneWinnerExactly(db: Db, op: Op)
    requires Inv(db) && OneWinner(db) && Enabled(db, op)
    ensures OneWinner(Step(db, op)) <==> !HoldsSoldSeat(db, op)
  {
    match op
    case OpHold(h, seat, user, now, ttl) =>
      if InsertOutcomeOf(db, seat, user, now) == Inserted {
        InsertKeepsWinner(db, h, seat, user, now, ttl);
      }
    case OpRelease(h, now) => ReleaseKeepsWinner(db, h, UserCancelled, now);
    case OpSweep(batch, now) => SweepKeepsWinner(db, batch, now);
    case OpPayment(ev, now) =>
      ReleaseKeepsWinner(db, ev.hold, PaymentFailedReason, now);
      ReserveKeepsWinner(db, ev.hold, ev.eventId, now);
  }

  /** In every database the service can reach, a sold seat can be held and sold again. */
  lemma SoldSeatSellsAgain(db: Db, seat: Uuid, user: Uuid, h: Uuid, ev: PayEvent, now: int, ttl: nat)
    requires Inv(db) && seat in db.seats && db.seats[seat].status == SEAT_RESERVED && h !in db.holds
    requires !UserHoldsSomething(db, user)
    requires ev.PaymentSucceeded? && ev.traceOk && ev.hold == h && ev.eventId !in db.consumed
    ensures var db' := HandlePayment(InsertHold(db, h, seat, user, now, ttl), ev, now);
            && h in db'.holds && db'.holds[h].status == RESERVED && db'.holds[h].seat == seat
            && !OneWinner(db')
  {
    var first := SoldTo(db, seat);
    InsertOutcomeExact(db, h, seat, user, now, ttl);
    SeatColumn(db, seat);
    var op := OpHold(h, seat, user, now, ttl);
    EndedIsFinal(db, op, first);
    EndedIsFinal(Step(db, op), OpPayment(ev, now), first);
    var db' := Step(Step(db, op), OpPayment(ev, now));
    assert db'.holds[first].status == RESERVED && db'.holds[first].seat == seat;
  }

  lemma Unroll(db: Db, op: Op, ops: seq<Op>)
    requires Enabled(db, op) && ValidRun(Step(db, op), ops)
    ensures ValidRun(db, [op] + ops) && Run(db, [op] + ops) == Run(Step(db, op), ops)
  {
    assert ([op] + ops)[1..] == ops;
  }

  lemma FirstHold(db: Db)
    requires db == Db(map[0 := Seat(100, "USD", AVAILABLE)], map[], {}, [])
    ensures Step(db, OpHold(1, 0, 10, 0, 120000)) ==
              Db(map[0 := Seat(100, "USD", SEAT_HELD)], map[1 := Hold(0, 10, HELD, 120000)], {},
                 [SeatHeld(1, 0, 10, 120000, 100, "USD", 0)])
  {
    InsertOutcomeExact(db, 1, 0, 10, 0, 120000);
    assert Cleanup(db, 0, 0).holds == map[];
  }

  lemma FirstSale(held: Db, pay: Op)
    requires held == Db(map[0 := Seat(100, "USD", SEAT_HELD)], map[1 := Hold(0, 10, HELD, 120000)], {},
                        [SeatHeld(1, 0, 10, 120000, 100, "USD", 0)])
    requires pay == OpPayment(PaymentSucceeded(7, 70, 0, 10, 1, 100, "USD", "p1", true), 1)
    ensures var sold := Step(held, pay);
            && 0 in sold.seats && sold.seats[0].status == SEAT_RESERVED && sold.consumed == {7}
            && sold.holds == map[1 := Hold(0, 10, RESERVED, 120000)]
  {
    assert Held(held, 1);
  }

  lemma FirstWinner(db: Db, hold: Op, pay: Op)
    requires db == Db(map[0 := Seat(100, "USD", AVAILABLE)], map[], {}, [])
    requires hold == OpHold(1, 0, 10, 0, 120000)
    requires pay == OpPayment(PaymentSucceeded(7, 70, 0, 10, 1, 100, "USD", "p1", true), 1)
    ensures Enabled(db, hold) && Enabled(Step(db, hold), pay)
    ensures var sold := Step(Step(db, hold), pay);
            && Inv(sold) && 0 in sold.seats && sold.seats[0].status == SEAT_RESERVED && 2 !in sold.holds
            && 8 !in sold.consumed && !UserHoldsSomething(sold, 20)
  {
    FirstHold(db);
    FirstSale(Step(db, hold), pay);
    StepKeepsInv(db, hold);
    StepKeepsInv(Step(db, hold), pay);
  }

  lemma UnrollFour(db: Db, a: Op, b: Op, c: Op, d: Op)
    requires Enabled(db, a) && Enabled(Step(db, a), b) && Enabled(Step(Step(db, a), b), c)
    requires Enabled(Step(Step(Step(db, a), b), c), d)
    ensures ValidRun(db, [a] + ([b] + ([c] + ([d] + []))))
    ensures Run(db, [a] + ([b] + ([c] + ([d] + [])))) == Step(Step(Step(Step(db, a), b), c), d)
  {
    var three := Step(Step(Step(db, a), b), c);
    assert ValidRun(Step(three, d), []);
    Unroll(three, d, []);
    Unroll(Step(Step(db, a), b), c, [d] + []);
    Unroll(Step(db, a), b, [c] + ([d] + []));
    Unroll(db, a, [b] + ([c] + ([d] + [])));
  }

  /** A run from a fresh database that ends with two reserved holds on its one seat. */
  lemma TwoWinners() returns (db: Db, ops: seq<Op>)
    ensures Fresh(db) && ValidRun(db, ops) && !OneWinner(Run(db, ops))
  {
    db := Db(map[0 := Seat(100, "USD", AVAILABLE)], map[], {}, []);
    var hold1 := OpHold(1, 0, 10, 0, 120000);
    var pay1 := OpPayment(PaymentSucceeded(7, 70, 0, 10, 1, 100, "USD", "p1", true), 1);
    var paid2 := PaymentSucceeded(8, 80, 0, 20, 2, 100, "USD", "p2", true);
    var hold2, pay2 := OpHold(2, 0, 20, 3, 120000), OpPayment(paid2, 3);
    FirstWinner(db, hold1, pay1);
    var sold := Step(Step(db, hold1), pay1);
    SoldSeatSellsAgain(sold, 0, 20, 2, paid2, 3, 120000);
    UnrollFour(db, hold1, pay1, hold2, pay2);
    ops := [hold1] + ([pay1] + ([hold2] + ([pay2] + [])));
  }
}

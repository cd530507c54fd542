/**
 * The seat database as a value: what each transaction of the seat service does to the
 * `seats`, `holds`, `consumed_events` and `outbox` tables. A transaction that rolls back
 * yields the database it was given.
 */
module SeatDb {
  import opened Base
  import opened Events

  datatype SeatStatus = AVAILABLE | SEAT_HELD | SEAT_RESERVED
  datatype HoldStatus = HELD | RELEASED | RESERVED

  datatype Seat = Seat(price: nat, currency: string, status: SeatStatus)
  datatype Hold = Hold(seat: Uuid, user: Uuid, status: HoldStatus, heldUntil: int)

  /** `outbox` lists every event row ever inserted, oldest first. */
  datatype Db = Db(seats: map<Uuid, Seat>, holds: map<Uuid, Hold>, consumed: set<Uuid>, outbox: seq<SeatEvent>)

  datatype InsertOutcome = Inserted | SeatTaken | UserHasHold | NoSuchSeat

  predicate Held(db: Db, h: Uuid) {
    h in db.holds && db.holds[h].status == HELD
  }

  predicate Stale(db: Db, h: Uuid, now: int) {
    Held(db, h) && db.holds[h].heldUntil < now
  }

  function SetSeat(db: Db, seat: Uuid, status: SeatStatus): Db {
    if seat in db.seats then db.(seats := db.seats[seat := db.seats[seat].(status := status)]) else db
  }

  function SetHold(db: Db, h: Uuid, status: HoldStatus): Db
    requires h in db.holds
  {
    db.(holds := db.holds[h := db.holds[h].(status := status)])
  }

  function Append(db: Db, e: SeatEvent): Db {
    db.(outbox := db.outbox + [e])
  }

  /** Lazy cleanup: this seat's stale hold becomes RELEASED, with no event and no seat update. */
  function Cleanup(db: Db, seat: Uuid, now: int): Db {
    db.(holds := map h | h in db.holds ::
          if db.holds[h].seat == seat && Stale(db, h, now) then db.holds[h].(status := RELEASED) else db.holds[h])
  }

  ghost predicate SeatHeldBySomeone(db: Db, seat: Uuid) {
    exists h :: Held(db, h) && db.holds[h].seat == seat
  }

  ghost predicate UserHoldsSomething(db: Db, user: Uuid) {
    exists h :: Held(db, h) && db.holds[h].user == user
  }

  ghost function InsertOutcomeOf(db: Db, seat: Uuid, user: Uuid, now: int): InsertOutcome {
    var cleaned := Cleanup(db, seat, now);
    if SeatHeldBySomeone(cleaned, seat) then SeatTaken
    else if UserHoldsSomething(cleaned, user) then UserHasHold
    else if seat !in db.seats then NoSuchSeat
    else Inserted
  }

  ghost function InsertHold(db: Db, h: Uuid, seat: Uuid, user: Uuid, now: int, ttl: nat): Db {
    if InsertOutcomeOf(db, seat, user, now) != Inserted then db
    else
      var cleaned := Cleanup(db, seat, now);
      var inserted := cleaned.(holds := cleaned.holds[h := Hold(seat, user, HELD, now + ttl)]);
      Append(SetSeat(inserted, seat, SEAT_HELD),
             SeatHeld(h, seat, user, now + ttl, db.seats[seat].price, db.seats[seat].currency, now))
  }

  /** `UPDATE seats SET status = 'AVAILABLE' ... WHERE NOT EXISTS (active hold)`. */
  ghost function FreeSeat(db: Db, seat: Uuid): Db {
    if SeatHeldBySomeone(db, seat) then db else SetSeat(db, seat, AVAILABLE)
  }

  ghost function ReleaseHold(db: Db, h: Uuid, reason: ReleaseReason, now: int): Db {
    if !Held(db, h) then db
    else
      var seat := db.holds[h].seat;
      Append(FreeSeat(SetHold(db, h, RELEASED), seat), SeatReleased(h, seat, reason, now))
  }

  function ReserveHold(db: Db, h: Uuid, eventId: Uuid, now: int): Db {
    if eventId in db.consumed || !Held(db, h) then db
    else
      var hold := db.holds[h];
      Append(SetSeat(SetHold(db, h, RESERVED).(consumed := db.consumed + {eventId}), hold.seat, SEAT_RESERVED),
             SeatReserved(h, hold.seat, hold.user, now))
  }

  /** The rows one sweep may take: distinct stale holds, as the locking subquery returned them. */
  predicate SweepBatch(db: Db, batch: seq<Uuid>, now: int) {
    && (forall i | 0 <= i < |batch| :: Stale(db, batch[i], now))
    && (forall i, j | 0 <= i < j < |batch| :: batch[i] != batch[j])
  }

  /** First statement of a sweep: the whole batch is released at once. */
  function ReleaseAll(db: Db, batch: seq<Uuid>): Db {
    db.(holds := map h | h in db.holds :: if h in batch then db.holds[h].(status := RELEASED) else db.holds[h])
  }

  /** Loop of a sweep: free each row's seat and append its event. */
  ghost function SweepRows(db: Db, batch: seq<Uuid>, now: int): Db
    requires forall i | 0 <= i < |batch| :: batch[i] in db.holds
  {
    if batch == [] then db
    else
      var last := |batch| - 1;
      var done := SweepRows(db, batch[..last], now);
      var seat := db.holds[batch[last]].seat;
      Append(FreeSeat(done, seat), SeatReleased(batch[last], seat, SweeperReason, now))
  }

  ghost function Sweep(db: Db, batch: seq<Uuid>, now: int): Db
    requires SweepBatch(db, batch, now)
  {
    SweepRows(ReleaseAll(db, batch), batch, now)
  }

  /** The consumer of `payment.*`: an unreadable message goes to the dead-letter queue. */
  ghost function HandlePayment(db: Db, ev: PayEvent, now: int): Db {
    if !ev.traceOk then db
    else match ev
      case PaymentSucceeded(_, _, _, _, _, _, _, _, _) => ReserveHold(db, ev.hold, ev.eventId, now)
      case PaymentFailed(_, _, _, _, _, _, _) => ReleaseHold(db, ev.hold, PaymentFailedReason, now)
  }

  /** Everything that writes the seat database, one transaction each. */
  datatype Op =
    | OpHold(newHold: Uuid, seat: Uuid, user: Uuid, now: int, ttl: nat)
    | OpRelease(hold: Uuid, now: int)
    | OpSweep(batch: seq<Uuid>, now: int)
    | OpPayment(ev: PayEvent, now: int)

  ghost predicate Enabled(db: Db, op: Op) {
    && (op.OpHold? ==> op.newHold !in db.holds)
    && (op.OpSweep? ==> SweepBatch(db, op.batch, op.now))
  }

  ghost function Step(db: Db, op: Op): Db
    requires Enabled(db, op)
  {
    match op
    case OpHold(h, seat, user, now, ttl) => InsertHold(db, h, seat, user, now, ttl)
    case OpRelease(h, now) => ReleaseHold(db, h, UserCancelled, now)
    case OpSweep(batch, now) => Sweep(db, batch, now)
    case OpPayment(ev, now) => HandlePayment(db, ev, now)
  }
}

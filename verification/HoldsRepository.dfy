/**
 * The seat service's writers, statement by statement over mutable tables. Each method is
 * one transaction: a rollback restores what BEGIN saw.
 */
module HoldsRepository {
  import opened Base
  import opened Events
  import opened SeatDb
  import SR = SeatRaces

  class HoldsRepository {
    var seats: map<Uuid, Seat>
    var holds: map<Uuid, Hold>
    var consumed: set<Uuid>
    var outbox: seq<SeatEvent>

    function Tables(): Db
      reads this
    {
      Db(seats, holds, consumed, outbox)
    }

    constructor (seats: map<Uuid, Seat>)
      ensures Tables() == Db(seats, map[], {}, [])
    {
      this.seats, holds, consumed, outbox := seats, map[], {}, [];
    }

    /** `insertHoldTx`. */
    method InsertHoldTx(holdId: Uuid, seatId: Uuid, userId: Uuid, now: int, ttl: nat) returns (outcome: InsertOutcome)
      requires holdId !in holds
      modifies this
      ensures outcome == InsertOutcomeOf(old(Tables()), seatId, userId, now)
      ensures Tables() == InsertHold(old(Tables()), holdId, seatId, userId, now, ttl)
    {
      var begin := holds;
      holds := map h | h in holds ::
        if holds[h].seat == seatId && holds[h].status == HELD && holds[h].heldUntil < now
        then holds[h].(status := RELEASED) else holds[h];
      assert holds == Cleanup(old(Tables()), seatId, now).holds;
      ghost var cleaned := Cleanup(old(Tables()), seatId, now);
      assert forall h :: Held(cleaned, h) <==> h in holds && holds[h].status == HELD;
      if exists h :: h in holds && holds[h].status == HELD && holds[h].seat == seatId {
        holds := begin;
        return SeatTaken;
      }
      if exists h :: h in holds && holds[h].status == HELD && holds[h].user == userId {
        holds := begin;
        return UserHasHold;
      }
      if seatId !in seats {
        holds := begin;
        return NoSuchSeat;
      }
      holds := holds[holdId := Hold(seatId, userId, HELD, now + ttl)];
      seats := seats[seatId := seats[seatId].(status := SEAT_HELD)];
      var seat := seats[seatId];
      outbox := outbox + [SeatHeld(holdId, seatId, userId, now + ttl, seat.price, seat.currency, now)];
      return Inserted;
    }

    /** `UPDATE seats SET status = 'AVAILABLE' WHERE id = $1 AND NOT EXISTS (...)`. */
    method FreeSeatIfUnheld(seatId: Uuid)
      modifies this`seats
      ensures Tables() == FreeSeat(old(Tables()), seatId)
    {
      assert SeatHeldBySomeone(Tables(), seatId)
          <==> exists h :: h in holds && holds[h].status == HELD && holds[h].seat == seatId by {
        assert forall h :: Held(Tables(), h) <==> h in holds && holds[h].status == HELD;
      }
      if !(exists h :: h in holds && holds[h].status == HELD && holds[h].seat == seatId) && seatId in seats {
        seats := seats[seatId := seats[seatId].(status := AVAILABLE)];
      }
    }

    /** `releaseHold`. */
    method Release(holdId: Uuid, reason: ReleaseReason, now: int) returns (released: bool)
      modifies this
      ensures released == Held(old(Tables()), holdId)
      ensures Tables() == ReleaseHold(old(Tables()), holdId, reason, now)
    {
      if holdId !in holds || holds[holdId].status != HELD {
        return false;
      }
      holds := holds[holdId := holds[holdId].(status := RELEASED)];
      var seatId := holds[holdId].seat;
      FreeSeatIfUnheld(seatId);
      outbox := outbox + [SeatReleased(holdId, seatId, reason, now)];
      return true;
    }

    /** `reserveHold`: the consumed-event row is written first and rolled back with the rest. */
    method Reserve(holdId: Uuid, eventId: Uuid, now: int) returns (reserved: bool)
      modifies this
      ensures reserved == (eventId !in old(consumed) && Held(old(Tables()), holdId))
      ensures Tables() == ReserveHold(old(Tables()), holdId, eventId, now)
    {
      if eventId in consumed {
        return false;
      }
      var begin := consumed;
      consumed := consumed + {eventId};
      if holdId !in holds || holds[holdId].status != HELD {
        consumed := begin;
        return false;
      }
      holds := holds[holdId := holds[holdId].(status := RESERVED)];
      var seatId, userId := holds[holdId].seat, holds[holdId].user;
      if seatId in seats {
        seats := seats[seatId := seats[seatId].(status := SEAT_RESERVED)];
      }
      outbox := outbox + [SeatReserved(holdId, seatId, userId, now)];
      return true;
    }

    /** The sweeper's `tick`: `rows` is what the batch update returned. */
    method SweepTick(rows: seq<Uuid>, now: int)
      requires SweepBatch(Tables(), rows, now)
      modifies this
      ensures Tables() == Sweep(old(Tables()), rows, now)
    {
      ghost var all := ReleaseAll(Tables(), rows);
      holds := map h | h in holds :: if h in rows then holds[h].(status := RELEASED) else holds[h];
      assert Tables() == all;
      for i := 0 to |rows|
        invariant Tables() == SweepRows(all, rows[..i], now)
        invariant holds == all.holds
      {
        var seatId := holds[rows[i]].seat;
        FreeSeatIfUnheld(seatId);
        outbox := outbox + [SeatReleased(rows[i], seatId, SweeperReason, now)];
        assert rows[..i + 1][..i] == rows[..i];
      }
      assert rows[..|rows|] == rows;
    }

    /**
     * The `payment.*` consumer. An unreadable message is dead-lettered; anything else is
     * acknowledged, and then the hold it names is no longer active.
     */
    method ConsumePayment(ev: PayEvent, now: int) returns (acked: bool)
      modifies this
      ensures acked == ev.traceOk
      ensures Tables() == HandlePayment(old(Tables()), ev, now)
      ensures forall owner | acked && SR.Owned(old(Tables()), owner)
              && SR.Labelled(ev, owner) :: !Held(Tables(), ev.hold)
    {
      if !ev.traceOk {
        return false;
      }
      match ev {
        case PaymentSucceeded(_, _, _, _, _, _, _, _, _) =>
          var _ := Reserve(ev.hold, ev.eventId, now);
        case PaymentFailed(_, _, _, _, _, _, _) =>
          var _ := Release(ev.hold, PaymentFailedReason, now);
      }
      return true;
    }
  }
}

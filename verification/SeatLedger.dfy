/**
 * The seat tables are a projection of the event log: what the `outbox` says happened
 * determines every seat's and every hold's status, in every reachable database.
 */
module SeatLedger {
  import opened Base
  import opened Events
  import opened SeatDb

  /** The newest event about a seat. */
  function Last(log: seq<SeatEvent>, seat: Uuid): Option<SeatEvent> {
    if log == [] then None
    else if log[|log| - 1].seat == seat then Some(log[|log| - 1])
    else Last(log[..|log| - 1], seat)
  }

  function SeatStatusOf(last: Option<SeatEvent>): SeatStatus {
    match last
    case None => AVAILABLE
    case Some(SeatHeld(_, _, _, _, _, _, _)) => SEAT_HELD
    case Some(SeatReleased(_, _, _, _)) => AVAILABLE
    case Some(SeatReserved(_, _, _, _)) => SEAT_RESERVED
  }

  function StatusSet(e: SeatEvent): HoldStatus {
    if e.SeatHeld? then HELD else if e.SeatReleased? then RELEASED else RESERVED
  }

  function StatusAfter(before: Option<HoldStatus>, e: SeatEvent, h: Uuid, seat: Uuid): Option<HoldStatus> {
    if e.hold == h then Some(StatusSet(e))
    else if e.SeatHeld? && e.seat == seat && before == Some(HELD) then Some(RELEASED)
    else before
  }

  /** A hold's status read off the log: its newest own event, unless a later hold of the seat replaced it. */
  function HoldStatusOf(log: seq<SeatEvent>, h: Uuid, seat: Uuid): Option<HoldStatus> {
    if log == [] then None
    else
      StatusAfter(HoldStatusOf(log[..|log| - 1], h, seat), log[|log| - 1], h, seat)
  }

  /** Each event names a recorded hold and repeats what that hold's row, and its seat's price, say. */
  predicate EventFits(db: Db, e: SeatEvent) {
    && e.hold in db.holds
    && e.seat == db.holds[e.hold].seat
    && e.seat in db.seats
    && (e.SeatHeld? ==> e.user == db.holds[e.hold].user && e.heldUntil == db.holds[e.hold].heldUntil)
    && (e.SeatHeld? ==> e.price == db.seats[e.seat].price && e.currency == db.seats[e.seat].currency)
    && (e.SeatReserved? ==> e.user == db.holds[e.hold].user)
  }

  predicate SeatsProject(db: Db) {
    forall s | s in db.seats :: db.seats[s].status == SeatStatusOf(Last(db.outbox, s))
  }

  predicate HoldsProject(db: Db) {
    forall h | h in db.holds :: HoldStatusOf(db.outbox, h, db.holds[h].seat) == Some(db.holds[h].status)
  }

  /** The two partial unique indexes on HELD rows, and the foreign key to `seats`. */
  ghost predicate Constraints(db: Db) {
    && (forall h | h in db.holds :: db.holds[h].seat in db.seats)
    && (forall h, k | Held(db, h) && Held(db, k) && h != k ::
          db.holds[h].seat != db.holds[k].seat && db.holds[h].user != db.holds[k].user)
  }

  predicate EventsFit(db: Db) {
    forall i | 0 <= i < |db.outbox| :: EventFits(db, db.outbox[i])
  }

  /** Of two events about one hold, the earlier is its `seat.held` and the later ends it. */
  predicate EventsOrdered(log: seq<SeatEvent>) {
    forall i, j | 0 <= i < j < |log| && log[i].hold == log[j].hold :: log[i].SeatHeld? && !log[j].SeatHeld?
  }

  /** An event ends the hold its seat is under, or starts a hold over none or over an expired one. */
  predicate Follows(prev: Option<SeatEvent>, e: SeatEvent) {
    if e.SeatHeld? then prev.Some? && prev.value.SeatHeld? ==> prev.value.heldUntil < e.at
    else prev.Some? && prev.value.SeatHeld? && prev.value.hold == e.hold
  }

  predicate EventsFollow(log: seq<SeatEvent>) {
    forall j | 0 <= j < |log| :: Follows(Last(log[..j], log[j].seat), log[j])
  }

  ghost predicate Inv(db: Db) {
    && SeatsProject(db) && HoldsProject(db) && Constraints(db)
    && EventsFit(db) && EventsOrdered(db.outbox) && EventsFollow(db.outbox)
  }

  lemma Appended(log: seq<SeatEvent>, e: SeatEvent)
    ensures forall s :: Last(log + [e], s) == if e.seat == s then Some(e) else Last(log, s)
    ensures forall h, s :: HoldStatusOf(log + [e], h, s) == StatusAfter(HoldStatusOf(log, h, s), e, h, s)
  {
    assert (log + [e])[..|log|] == log;
  }

  /** A hold already ended by an event of its own has no event left to add. */
  lemma {:induction false} HeldHasOneEvent(log: seq<SeatEvent>, h: Uuid, seat: Uuid)
    requires HoldStatusOf(log, h, seat) == Some(HELD)
    requires EventsOrdered(log)
    ensures forall i | 0 <= i < |log| && log[i].hold == h :: log[i].SeatHeld?
  {
    var n := |log| - 1;
    if log[n].hold != h {
      HeldHasOneEvent(log[..n], h, seat);
    }
  }

  predicate HeldLast(log: seq<SeatEvent>, h: Uuid, seat: Uuid) {
    Last(log, seat).Some? && Last(log, seat).value.SeatHeld? && Last(log, seat).value.hold == h
  }

  /** A hold is active exactly when its own `seat.held` is the newest event about its seat. */
  lemma {:induction false} HeldIsLast(log: seq<SeatEvent>, h: Uuid, seat: Uuid)
    requires EventsFollow(log) && EventsOrdered(log)
    requires forall i | 0 <= i < |log| && log[i].hold == h :: log[i].seat == seat
    ensures HoldStatusOf(log, h, seat) == Some(HELD) <==> HeldLast(log, h, seat)
  {
    if log != [] {
      FollowsPrefix(log);
      HeldIsLast(log[..|log| - 1], h, seat);
    }
  }

  lemma FollowsPrefix(log: seq<SeatEvent>)
    requires EventsFollow(log) && log != []
    ensures EventsFollow(log[..|log| - 1])
    ensures Follows(Last(log[..|log| - 1], log[|log| - 1].seat), log[|log| - 1])
  {
    var n := |log| - 1;
    forall j | 0 <= j < n ensures log[..n][..j] == log[..j] {}
  }

  lemma FollowsAppended(log: seq<SeatEvent>, e: SeatEvent)
    requires EventsFollow(log) && Follows(Last(log, e.seat), e)
    ensures EventsFollow(log + [e])
  {
    forall j | 0 <= j < |log| + 1 ensures Follows(Last((log + [e])[..j], (log + [e])[j].seat), (log + [e])[j]) {
      assert (log + [e])[..j] == log[..j];
      assert j == |log| ==> log[..j] == log;
    }
  }

  lemma {:induction false} LastIsLogged(log: seq<SeatEvent>, seat: Uuid)
    ensures Last(log, seat).Some? ==> Last(log, seat).value in log && Last(log, seat).value.seat == seat
  {
    if log != [] && log[|log| - 1].seat != seat {
      LastIsLogged(log[..|log| - 1], seat);
    }
  }

  // ---- Every transaction keeps the projection ----

  /** What a successful insert looks like from the rows' point of view. */
  predicate Replaces(old_: Hold, new_: Hold, seat: Uuid, user: Uuid, now: int) {
    && new_ == old_.(status := new_.status)
    && (new_.status == HELD ==> old_.status == HELD && new_.seat != seat && new_.user != user)
    && (new_.status != HELD ==> new_.status == if old_.status == HELD then RELEASED else old_.status)
    && (new_.status != HELD && old_.status == HELD ==> new_.seat == seat && old_.heldUntil < now)
  }

  /** After a successful insert, every other active hold is for another seat and another user. */
  lemma InsertIsolates(db: Db, h: Uuid, seat: Uuid, user: Uuid, now: int, ttl: nat, k: Uuid)
    requires h !in db.holds && InsertOutcomeOf(db, seat, user, now) == Inserted
    requires k in db.holds
    ensures Replaces(db.holds[k], InsertHold(db, h, seat, user, now, ttl).holds[k], seat, user, now)
  {
    var cleaned := Cleanup(db, seat, now);
    if Held(cleaned, k) {
      assert !SeatHeldBySomeone(cleaned, seat) && !UserHoldsSomething(cleaned, user);
    }
  }

  lemma StartFollows(db: Db, e: SeatEvent, db': Db)
    requires Inv(db) && e.SeatHeld?
    requires db.holds.Keys <= db'.holds.Keys
    requires forall k | k in db.holds :: Replaces(db.holds[k], db'.holds[k], e.seat, e.user, e.at)
    ensures EventsFollow(db.outbox + [e])
  {
    var prev := Last(db.outbox, e.seat);
    LastIsLogged(db.outbox, e.seat);
    if prev.Some? && prev.value.SeatHeld? {
      var k := prev.value.hold;
      assert EventFits(db, prev.value);
      HeldIsLast(db.outbox, k, e.seat);
      assert Replaces(db.holds[k], db'.holds[k], e.seat, e.user, e.at);
    }
    FollowsAppended(db.outbox, e);
  }

  lemma StartKeepsRows(db: Db, h: Uuid, e: SeatEvent, db': Db)
    requires SeatsProject(db) && HoldsProject(db) && Constraints(db)
    requires h !in db.holds && e.SeatHeld? && e.hold == h && e.seat in db.seats
    requires db'.outbox == db.outbox + [e]
    requires db'.seats == SetSeat(db, e.seat, SEAT_HELD).seats
    requires db'.holds.Keys == db.holds.Keys + {h}
    requires db'.holds[h] == Hold(e.seat, e.user, HELD, e.heldUntil)
    requires forall k | k in db.holds :: Replaces(db.holds[k], db'.holds[k], e.seat, e.user, e.at)
    ensures SeatsProject(db') && HoldsProject(db') && Constraints(db')
  {
    Appended(db.outbox, e);
    forall j, k | Held(db', j) && Held(db', k) && j != k
      ensures db'.holds[j].seat != db'.holds[k].seat && db'.holds[j].user != db'.holds[k].user
    {
      assert j == h || Replaces(db.holds[j], db'.holds[j], e.seat, e.user, e.at);
      assert k == h || Replaces(db.holds[k], db'.holds[k], e.seat, e.user, e.at);
    }
  }

  lemma StartKeepsInv(db: Db, h: Uuid, e: SeatEvent, db': Db)
    requires Inv(db) && h !in db.holds && e.SeatHeld? && e.hold == h && e.seat in db.seats
    requires e.price == db.seats[e.seat].price && e.currency == db.seats[e.seat].currency
    requires db'.outbox == db.outbox + [e]
    requires db'.seats == SetSeat(db, e.seat, SEAT_HELD).seats
    requires db'.holds.Keys == db.holds.Keys + {h}
    requires db'.holds[h] == Hold(e.seat, e.user, HELD, e.heldUntil)
    requires forall k | k in db.holds :: Replaces(db.holds[k], db'.holds[k], e.seat, e.user, e.at)
    ensures Inv(db')
  {
    StartKeepsRows(db, h, e, db');
    StartFollows(db, e, db');
    forall i | 0 <= i < |db.outbox| ensures EventFits(db', db'.outbox[i]) && db'.outbox[i].hold != h {
      assert EventFits(db, db.outbox[i]);
    }
  }

  lemma InsertKeepsInv(db: Db, h: Uuid, seat: Uuid, user: Uuid, now: int, ttl: nat)
    requires Inv(db) && h !in db.holds
    ensures Inv(InsertHold(db, h, seat, user, now, ttl))
  {
    if InsertOutcomeOf(db, seat, user, now) == Inserted {
      var db' := InsertHold(db, h, seat, user, now, ttl);
      forall k | k in db.holds ensures Replaces(db.holds[k], db'.holds[k], seat, user, now) {
        InsertIsolates(db, h, seat, user, now, ttl, k);
      }
      assert db'.holds.Keys == db.holds.Keys + {h};
      StartKeepsInv(db, h, db'.outbox[|db.outbox|], db');
    }
  }

  lemma EndKeepsRows(db: Db, h: Uuid, e: SeatEvent, db': Db)
    requires SeatsProject(db) && HoldsProject(db) && Constraints(db) && Held(db, h)
    requires e.hold == h && e.seat == db.holds[h].seat && !e.SeatHeld?
    requires db'.outbox == db.outbox + [e]
    requires db'.holds == SetHold(db, h, StatusSet(e)).holds
    requires db'.seats == SetSeat(db, e.seat, SeatStatusOf(Some(e))).seats
    ensures SeatsProject(db') && HoldsProject(db') && Constraints(db')
  {
    Appended(db.outbox, e);
    assert forall k | Held(db', k) :: Held(db, k);
  }

  lemma EndKeepsInv(db: Db, h: Uuid, e: SeatEvent, db': Db)
    requires Inv(db) && Held(db, h)
    requires e.hold == h && EventFits(db, e) && !e.SeatHeld?
    requires db'.outbox == db.outbox + [e]
    requires db'.holds == SetHold(db, h, StatusSet(e)).holds
    requires db'.seats == SetSeat(db, e.seat, SeatStatusOf(Some(e))).seats
    ensures Inv(db')
  {
    EndKeepsRows(db, h, e, db');
    assert EventsOrdered(db'.outbox) by { HeldHasOneEvent(db.outbox, h, e.seat); }
    assert EventsFollow(db'.outbox) by {
      assert forall i | 0 <= i < |db.outbox| :: EventFits(db, db.outbox[i]);
      HeldIsLast(db.outbox, h, e.seat);
      FollowsAppended(db.outbox, e);
    }
    forall i | 0 <= i < |db'.outbox| ensures EventFits(db', db'.outbox[i]) {
      assert i < |db.outbox| ==> EventFits(db, db.outbox[i]);
    }
  }

  /** The `NOT EXISTS` guard is always met: a released hold was its seat's only active one. */
  lemma ReleaseFreesSeat(db: Db, h: Uuid)
    requires Inv(db) && Held(db, h)
    ensures !SeatHeldBySomeone(SetHold(db, h, RELEASED), db.holds[h].seat)
  {
    var db' := SetHold(db, h, RELEASED);
    forall k | Held(db', k) ensures db'.holds[k].seat != db.holds[h].seat {
      assert Held(db, k);
    }
  }

  lemma ReleaseKeepsInv(db: Db, h: Uuid, reason: ReleaseReason, now: int)
    requires Inv(db)
    ensures Inv(ReleaseHold(db, h, reason, now))
  {
    if Held(db, h) {
      ReleaseFreesSeat(db, h);
      EndKeepsInv(db, h, SeatReleased(h, db.holds[h].seat, reason, now), ReleaseHold(db, h, reason, now));
    }
  }

  lemma ReserveKeepsInv(db: Db, h: Uuid, eventId: Uuid, now: int)
    requires Inv(db)
    ensures Inv(ReserveHold(db, h, eventId, now))
  {
    var db' := ReserveHold(db, h, eventId, now);
    if db' != db {
      EndKeepsInv(db, h, db'.outbox[|db.outbox|], db');
    }
  }

  // ---- The sweeper's batch loop is a sequence of single releases ----

  lemma {:induction false} SweepRowsAgree(a: Db, b: Db, batch: seq<Uuid>, now: int)
    requires a.seats == b.seats && a.outbox == b.outbox && a.consumed == b.consumed
    requires forall i | 0 <= i < |batch| ::
      && batch[i] in a.holds && batch[i] in b.holds && a.holds[batch[i]].seat == b.holds[batch[i]].seat
      && !SeatHeldBySomeone(a, a.holds[batch[i]].seat) && !SeatHeldBySomeone(b, a.holds[batch[i]].seat)
    ensures SweepRows(a, batch, now) == SweepRows(b, batch, now).(holds := a.holds)
  {
    if batch != [] {
      var last := |batch| - 1;
      SweepRowsAgree(a, b, batch[..last], now);
      SweepRowsHolds(a, batch[..last], now);
      SweepRowsHolds(b, batch[..last], now);
      var da, d2 := SweepRows(a, batch[..last], now), SweepRows(b, batch[..last], now);
      var seat := a.holds[batch[last]].seat;
      assert SeatHeldBySomeone(da, seat) == SeatHeldBySomeone(a, seat);
      assert SeatHeldBySomeone(d2, seat) == SeatHeldBySomeone(b, seat);
    }
  }

  lemma {:induction false} SweepRowsHolds(db: Db, batch: seq<Uuid>, now: int)
    requires forall i | 0 <= i < |batch| :: batch[i] in db.holds
    ensures SweepRows(db, batch, now).holds == db.holds
  {
    if batch != [] {
      SweepRowsHolds(db, batch[..|batch| - 1], now);
    }
  }

  lemma SweepLeavesNoHold(db: Db, batch: seq<Uuid>, now: int, i: nat)
    requires Constraints(db) && SweepBatch(db, batch, now) && i < |batch|
    ensures !SeatHeldBySomeone(ReleaseAll(db, batch), db.holds[batch[i]].seat)
  {
    var all := ReleaseAll(db, batch);
    forall k | Held(all, k) ensures all.holds[k].seat != db.holds[batch[i]].seat {
      assert Held(db, k) && Held(db, batch[i]) && k !in batch;
    }
  }

  lemma SweepPrefix(db: Db, batch: seq<Uuid>, now: int)
    requires Constraints(db) && SweepBatch(db, batch, now) && batch != []
    ensures var rest := batch[..|batch| - 1];
            SweepRows(ReleaseAll(db, batch), rest, now)
            == SweepRows(ReleaseAll(db, rest), rest, now).(holds := ReleaseAll(db, batch).holds)
  {
    var rest := batch[..|batch| - 1];
    forall i | 0 <= i < |rest|
      ensures !SeatHeldBySomeone(ReleaseAll(db, batch), db.holds[rest[i]].seat)
      ensures !SeatHeldBySomeone(ReleaseAll(db, rest), db.holds[rest[i]].seat)
    {
      SweepLeavesNoHold(db, batch, now, i);
      SweepLeavesNoHold(db, rest, now, i);
    }
    SweepRowsAgree(ReleaseAll(db, batch), ReleaseAll(db, rest), rest, now);
  }

  lemma SweepUnfolds(db: Db, batch: seq<Uuid>, now: int)
    requires Constraints(db) && SweepBatch(db, batch, now) && batch != []
    ensures var last := |batch| - 1;
            && SweepBatch(db, batch[..last], now)
            && Sweep(db, batch, now) == ReleaseHold(Sweep(db, batch[..last], now), batch[last], SweeperReason, now)
  {
    var last := |batch| - 1;
    var rest, h := batch[..last], batch[last];
    assert Stale(db, h, now) && h !in rest;
    var swept := Sweep(db, rest, now);
    SweepRowsHolds(ReleaseAll(db, rest), rest, now);
    var released := SetHold(swept, h, RELEASED);
    assert released.holds == ReleaseAll(db, batch).holds;
    assert SweepRows(ReleaseAll(db, batch), rest, now) == released by {
      SweepPrefix(db, batch, now);
    }
    assert Held(swept, h) && swept.holds[h].seat == db.holds[h].seat;
  }

  lemma {:induction false} SweepKeepsInv(db: Db, batch: seq<Uuid>, now: int)
    requires Inv(db) && SweepBatch(db, batch, now)
    ensures Inv(Sweep(db, batch, now))
  {
    if batch == [] {
      assert ReleaseAll(db, batch).holds == db.holds;
    } else {
      SweepUnfolds(db, batch, now);
      SweepKeepsInv(db, batch[..|batch| - 1], now);
      ReleaseKeepsInv(Sweep(db, batch[..|batch| - 1], now), batch[|batch| - 1], SweeperReason, now);
    }
  }

  lemma StepKeepsInv(db: Db, op: Op)
    requires Inv(db) && Enabled(db, op)
    ensures Inv(Step(db, op))
  {
    match op
    case OpHold(h, seat, user, now, ttl) => InsertKeepsInv(db, h, seat, user, now, ttl);
    case OpRelease(h, now) => ReleaseKeepsInv(db, h, UserCancelled, now);
    case OpSweep(batch, now) => SweepKeepsInv(db, batch, now);
    case OpPayment(ev, now) =>
      ReleaseKeepsInv(db, ev.hold, PaymentFailedReason, now);
      ReserveKeepsInv(db, ev.hold, ev.eventId, now);
  }
}

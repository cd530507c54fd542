/** What the seat service promises, over every run of its transactions. */
module SeatTheorems {
  import opened Base
  import opened Events
  import opened SeatDb
  import opened SeatLedger

  ghost predicate ValidRun(db: Db, ops: seq<Op>)
    decreases |ops|
  {
    ops == [] || (Enabled(db, ops[0]) && ValidRun(Step(db, ops[0]), ops[1..]))
  }

  ghost function Run(db: Db, ops: seq<Op>): Db
    requires ValidRun(db, ops)
    decreases |ops|
  {
    if ops == [] then db else Run(Step(db, ops[0]), ops[1..])
  }

  /** A freshly migrated database: seats on sale, nothing held. */
  predicate Fresh(db: Db) {
    && db.holds == map[] && db.consumed == {} && db.outbox == []
    && (forall s | s in db.seats :: db.seats[s].status == AVAILABLE)
  }

  lemma {:induction false} ReachableInv(db: Db, ops: seq<Op>)
    requires Inv(db) || Fresh(db)
    requires ValidRun(db, ops)
    ensures Inv(Run(db, ops))
    decreases |ops|
  {
    if ops != [] {
      StepKeepsInv(db, ops[0]);
      ReachableInv(Step(db, ops[0]), ops[1..]);
    }
  }

  // ---- Reading the ledger ----

  ghost predicate HasEvent(log: seq<SeatEvent>, h: Uuid, s: HoldStatus) {
    exists i :: 0 <= i < |log| && log[i].hold == h && StatusSet(log[i]) == s
  }

  /** The next event about the seat after event `i` is another hold's start, made after the first one expired. */
  ghost predicate ReplacedBy(log: seq<SeatEvent>, i: nat, j: nat) {
    && i < j < |log| && log[i].SeatHeld? && log[j].SeatHeld? && log[j].seat == log[i].seat
    && log[j].hold != log[i].hold && log[i].heldUntil < log[j].at
    && forall m :: i < m < j ==> log[m].seat != log[i].seat
  }

  ghost predicate Lapsed(log: seq<SeatEvent>, h: Uuid) {
    exists i: nat, j: nat :: ReplacedBy(log, i, j) && log[i].hold == h
  }

  lemma {:induction false} LastIndex(log: seq<SeatEvent>, seat: Uuid) returns (i: nat)
    requires Last(log, seat).Some?
    ensures i < |log| && log[i] == Last(log, seat).value && log[i].seat == seat
    ensures forall m :: i < m < |log| ==> log[m].seat != seat
  {
    var n := |log| - 1;
    if log[n].seat == seat { i := n; } else { i := LastIndex(log[..n], seat); }
  }

  lemma EventKept(log: seq<SeatEvent>, e: SeatEvent, h: Uuid, s: HoldStatus)
    ensures HasEvent(log + [e], h, s) <==> HasEvent(log, h, s) || (e.hold == h && StatusSet(e) == s)
  {
    if HasEvent(log, h, s) {
      var i :| 0 <= i < |log| && log[i].hold == h && StatusSet(log[i]) == s;
      assert (log + [e])[i] == log[i];
    }
    if e.hold == h && StatusSet(e) == s {
      assert (log + [e])[|log|] == e;
    }
  }

  lemma LapseKept(log: seq<SeatEvent>, e: SeatEvent, h: Uuid)
    requires Lapsed(log, h)
    ensures Lapsed(log + [e], h)
  {
    var i: nat, j: nat :| ReplacedBy(log, i, j) && log[i].hold == h;
    assert ReplacedBy(log + [e], i, j);
  }

  /** A recorded hold was started by its own `seat.held`; it is reserved exactly by a `seat.reserved`. */
  lemma {:induction false} ReadStart(log: seq<SeatEvent>, h: Uuid, seat: Uuid)
    requires EventsFollow(log)
    requires forall i | 0 <= i < |log| && log[i].hold == h :: log[i].seat == seat
    ensures HoldStatusOf(log, h, seat) != None ==> HasEvent(log, h, HELD)
    ensures HoldStatusOf(log, h, seat) == Some(RESERVED) ==> HasEvent(log, h, RESERVED)
  {
    if log != [] {
      var n := |log| - 1;
      var pre, e := log[..n], log[n];
      FollowsPrefix(log);
      ReadStart(pre, h, seat);
      assert log == pre + [e];
      EventKept(pre, e, h, HELD);
      EventKept(pre, e, h, RESERVED);
      if e.hold == h && !e.SeatHeld? {
        LastIsLogged(pre, e.seat);
      }
    }
  }

  lemma NewLapse(pre: seq<SeatEvent>, e: SeatEvent, h: Uuid)
    requires EventsFollow(pre) && EventsOrdered(pre) && Follows(Last(pre, e.seat), e) && e.SeatHeld? && e.hold != h
    requires HoldStatusOf(pre, h, e.seat) == Some(HELD)
    requires forall i | 0 <= i < |pre| && pre[i].hold == h :: pre[i].seat == e.seat
    ensures Lapsed(pre + [e], h)
  {
    HeldIsLast(pre, h, e.seat);
    var i := LastIndex(pre, e.seat);
    assert ReplacedBy(pre + [e], i, |pre|);
  }

  /** A released hold has its `seat.released`, or was replaced by the lazy cleanup after it expired. */
  lemma {:induction false} ReadEnd(log: seq<SeatEvent>, h: Uuid, seat: Uuid)
    requires EventsFollow(log) && EventsOrdered(log)
    requires forall i | 0 <= i < |log| && log[i].hold == h :: log[i].seat == seat
    ensures HoldStatusOf(log, h, seat) == Some(RELEASED) ==> HasEvent(log, h, RELEASED) || Lapsed(log, h)
  {
    if log != [] {
      var n := |log| - 1;
      var pre, e := log[..n], log[n];
      FollowsPrefix(log);
      ReadEnd(pre, h, seat);
      assert log == pre + [e];
      EventKept(pre, e, h, RELEASED);
      if Lapsed(pre, h) {
        LapseKept(pre, e, h);
      }
      if e.hold != h && e.SeatHeld? && e.seat == seat && HoldStatusOf(pre, h, seat) == Some(HELD) {
        NewLapse(pre, e, h);
      }
    }
  }

  /** An ending event is the next event about its seat after its own `seat.held`. */
  lemma EndingHasStart(log: seq<SeatEvent>, t: nat) returns (k: nat)
    requires EventsFollow(log) && t < |log| && !log[t].SeatHeld?
    ensures k < t && log[k].SeatHeld? && log[k].hold == log[t].hold && log[k].seat == log[t].seat
    ensures forall m :: k < m < t ==> log[m].seat != log[t].seat
  {
    assert Follows(Last(log[..t], log[t].seat), log[t]);
    k := LastIndex(log[..t], log[t].seat);
    assert log[..t][k] == log[k];
    forall m | k < m < t ensures log[m].seat != log[t].seat {
      assert log[..t][m] == log[m];
    }
  }

  lemma OneStart(log: seq<SeatEvent>, i: nat, k: nat)
    requires EventsOrdered(log) && i < |log| && k < |log|
    requires log[i].SeatHeld? && log[k].SeatHeld? && log[i].hold == log[k].hold
    ensures i == k
  {
  }

  /** A replaced hold never gets an ending event of its own. */
  lemma LapsedHasNoEnding(log: seq<SeatEvent>, h: Uuid, t: nat)
    requires EventsFollow(log) && EventsOrdered(log) && Lapsed(log, h)
    requires t < |log| && log[t].hold == h
    ensures log[t].SeatHeld?
  {
    var i: nat, j: nat :| ReplacedBy(log, i, j) && log[i].hold == h;
    ReplacedHasNoEnding(log, i, j, t);
  }

  lemma ReplacedHasNoEnding(log: seq<SeatEvent>, i: nat, j: nat, t: nat)
    requires EventsFollow(log) && EventsOrdered(log) && ReplacedBy(log, i, j)
    requires t < |log| && log[t].hold == log[i].hold
    ensures log[t].SeatHeld?
  {
    if !log[t].SeatHeld? {
      var k := EndingHasStart(log, t);
      OneStart(log, i, k);
    }
  }

  /**
   * The hold ledger. Each recorded hold has exactly one `seat.held` and at most one ending
   * event; it is RESERVED exactly when that is `seat.reserved`, RELEASED exactly when that is
   * `seat.released` or the hold lapsed and was replaced, and never both.
   */
  lemma HoldLedger(db: Db, h: Uuid)
    requires Inv(db) && h in db.holds
    ensures HasEvent(db.outbox, h, HELD)
    ensures forall i, j | 0 <= i < j < |db.outbox| && db.outbox[i].hold == h && db.outbox[j].hold == h ::
              db.outbox[i].SeatHeld? && !db.outbox[j].SeatHeld?
    ensures db.holds[h].status == RESERVED <==> HasEvent(db.outbox, h, RESERVED)
    ensures db.holds[h].status == RELEASED <==> HasEvent(db.outbox, h, RELEASED) || Lapsed(db.outbox, h)
    ensures !(HasEvent(db.outbox, h, RELEASED) && Lapsed(db.outbox, h))
  {
    EventsOnSeat(db, h);
    ReadLedger(db.outbox, h, db.holds[h].seat);
  }

  /** A log every transaction has kept, in which the hold's events are about one seat. */
  predicate OwnLog(log: seq<SeatEvent>, h: Uuid, seat: Uuid) {
    EventsFollow(log) && EventsOrdered(log) && forall i | 0 <= i < |log| && log[i].hold == h :: log[i].seat == seat
  }

  lemma StatusHasCause(log: seq<SeatEvent>, h: Uuid, seat: Uuid)
    requires OwnLog(log, h, seat)
    ensures HoldStatusOf(log, h, seat) != None ==> HasEvent(log, h, HELD)
    ensures HoldStatusOf(log, h, seat) == Some(RESERVED) ==> HasEvent(log, h, RESERVED)
    ensures HoldStatusOf(log, h, seat) == Some(RELEASED) ==> HasEvent(log, h, RELEASED) || Lapsed(log, h)
  {
    ReadStart(log, h, seat);
    ReadEnd(log, h, seat);
  }

  lemma HeldExcludes(log: seq<SeatEvent>, h: Uuid, seat: Uuid)
    requires OwnLog(log, h, seat)
    ensures HoldStatusOf(log, h, seat) == Some(HELD) ==> !HasEvent(log, h, RELEASED) && !HasEvent(log, h, RESERVED)
  {
    if HoldStatusOf(log, h, seat) == Some(HELD) {
      HeldHasOneEvent(log, h, seat);
    }
  }

  lemma ReadLedger(log: seq<SeatEvent>, h: Uuid, seat: Uuid)
    requires OwnLog(log, h, seat) && HoldStatusOf(log, h, seat) != None
    ensures HasEvent(log, h, HELD)
    ensures HoldStatusOf(log, h, seat) == Some(RESERVED) <==> HasEvent(log, h, RESERVED)
    ensures HoldStatusOf(log, h, seat) == Some(RELEASED) <==> HasEvent(log, h, RELEASED) || Lapsed(log, h)
    ensures !(HasEvent(log, h, RELEASED) && Lapsed(log, h))
  {
    StatusHasCause(log, h, seat);
    HeldExcludes(log, h, seat);
    LapsedExcludes(log, h, seat);
    OneEnding(log, h);
    Exclusive(log, h, HoldStatusOf(log, h, seat));
  }

  /** The four facts above leave exactly one reading of the log. */
  lemma Exclusive(log: seq<SeatEvent>, h: Uuid, st: Option<HoldStatus>)
    requires st != None
    requires st == Some(RESERVED) ==> HasEvent(log, h, RESERVED)
    requires st == Some(RELEASED) ==> HasEvent(log, h, RELEASED) || Lapsed(log, h)
    requires st == Some(HELD) ==> !HasEvent(log, h, RELEASED) && !HasEvent(log, h, RESERVED)
    requires Lapsed(log, h) ==> !HasEvent(log, h, RELEASED) && !HasEvent(log, h, RESERVED) && st != Some(HELD)
    requires !(HasEvent(log, h, RELEASED) && HasEvent(log, h, RESERVED))
    ensures st == Some(RESERVED) <==> HasEvent(log, h, RESERVED)
    ensures st == Some(RELEASED) <==> HasEvent(log, h, RELEASED) || Lapsed(log, h)
  {
    assert st.value == HELD || st.value == RELEASED || st.value == RESERVED;
  }

  lemma OneEnding(log: seq<SeatEvent>, h: Uuid)
    requires EventsOrdered(log)
    ensures !(HasEvent(log, h, RELEASED) && HasEvent(log, h, RESERVED))
  {
  }

  lemma LapsedExcludes(log: seq<SeatEvent>, h: Uuid, seat: Uuid)
    requires OwnLog(log, h, seat)
    ensures Lapsed(log, h) ==>
              !HasEvent(log, h, RELEASED) && !HasEvent(log, h, RESERVED) && HoldStatusOf(log, h, seat) != Some(HELD)
  {
    if Lapsed(log, h) {
      HeldIsLast(log, h, seat);
      LapsedIsNotLast(log, h, seat);
      forall t | 0 <= t < |log| && log[t].hold == h ensures log[t].SeatHeld? {
        LapsedHasNoEnding(log, h, t);
      }
    }
  }

  lemma EventsOnSeat(db: Db, h: Uuid)
    requires EventsFit(db) && h in db.holds
    ensures forall i | 0 <= i < |db.outbox| && db.outbox[i].hold == h :: db.outbox[i].seat == db.holds[h].seat
  {
    assert forall i | 0 <= i < |db.outbox| :: EventFits(db, db.outbox[i]);
  }

  lemma LapsedIsNotLast(log: seq<SeatEvent>, h: Uuid, seat: Uuid)
    requires EventsOrdered(log) && Lapsed(log, h)
    requires forall i | 0 <= i < |log| && log[i].hold == h :: log[i].seat == seat
    ensures !HeldLast(log, h, seat)
  {
    var i: nat, j: nat :| ReplacedBy(log, i, j) && log[i].hold == h;
    if HeldLast(log, h, seat) {
      var k := LastIndex(log, seat);
    }
  }

  /** `seats.status` is HELD exactly when one hold of the seat is active, and then only that one. */
  lemma SeatColumn(db: Db, seat: Uuid)
    requires Inv(db) && seat in db.seats
    ensures db.seats[seat].status == SEAT_HELD <==> SeatHeldBySomeone(db, seat)
    ensures forall h, k | Held(db, h) && Held(db, k) && db.holds[h].seat == seat && db.holds[k].seat == seat :: h == k
    ensures db.seats[seat].status == SEAT_RESERVED <==>
              Last(db.outbox, seat).Some? && Last(db.outbox, seat).value.SeatReserved?
  {
    LastIsLogged(db.outbox, seat);
    var last := Last(db.outbox, seat);
    if last.Some? && last.value.SeatHeld? {
      var h := last.value.hold;
      assert EventFits(db, last.value);
      EventsOnSeat(db, h);
      HeldIsLast(db.outbox, h, seat);
      assert Held(db, h);
    }
    if SeatHeldBySomeone(db, seat) {
      var h :| Held(db, h) && db.holds[h].seat == seat;
      EventsOnSeat(db, h);
      HeldIsLast(db.outbox, h, seat);
    }
  }
}

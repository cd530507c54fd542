/** What the payment service promises, over every run. */
module PayTheorems {
  import opened Base
  import opened Events
  import opened PayDb
  import PS = PayService
  import opened PayService

  ghost predicate ValidRun(s: State, ops: seq<Op>)
    decreases |ops|, 0
  {
    ops == [] || (ValidRun(s, ops[..|ops| - 1]) && PS.Enabled(Run(s, ops[..|ops| - 1]), ops[|ops| - 1]))
  }

  ghost function Run(s: State, ops: seq<Op>): State
    requires ValidRun(s, ops)
    decreases |ops|, 1
  {
    if ops == [] then s else PS.Next(Run(s, ops[..|ops| - 1]), ops[|ops| - 1])
  }

  /** A freshly migrated database and no work in memory. */
  predicate Fresh(s: State) {
    s.db.intents == map[] && s.db.inbox == map[] && s.db.outbox == [] && s.hooks == map[] && s.checkouts == map[]
        && s.replies == []
  }

  lemma {:induction false} Reachable(s: State, ops: seq<Op>)
    requires PS.Inv(s) && ValidRun(s, ops)
    ensures PS.Inv(Run(s, ops))
    decreases |ops|
  {
    if ops != [] {
      Reachable(s, ops[..|ops| - 1]);
      NextKeepsInv(Run(s, ops[..|ops| - 1]), ops[|ops| - 1]);
    }
  }

  lemma {:induction false} PrefixValid(s: State, ops: seq<Op>, k: nat)
    requires ValidRun(s, ops) && k <= |ops|
    ensures ValidRun(s, ops[..k])
    ensures k < |ops| ==> PS.Enabled(Run(s, ops[..k]), ops[k])
    decreases |ops|
  {
    if k == |ops| {
      assert ops[..k] == ops;
    } else {
      var pre := ops[..|ops| - 1];
      PrefixValid(s, pre, k);
      assert pre[..k] == ops[..k];
      if k == |ops| - 1 { assert pre == ops[..k]; }
    }
  }

  /** Along a run, rows only grow and outcomes never change. */
  lemma {:induction false} RunGrows(s: State, ops: seq<Op>, k: nat)
    requires PS.Inv(s) && ValidRun(s, ops) && k <= |ops|
    ensures ValidRun(s, ops[..k]) && Grows(Run(s, ops[..k]).db, Run(s, ops).db)
    decreases |ops|
  {
    PrefixValid(s, ops, k);
    if k == |ops| {
      assert ops[..k] == ops;
    } else {
      var pre := ops[..|ops| - 1];
      RunGrows(s, pre, k);
      assert pre[..k] == ops[..k];
      Reachable(s, pre);
      NextKeepsInv(Run(s, pre), ops[|ops| - 1]);
      GrowsTransitive(Run(s, ops[..k]).db, Run(s, pre).db, Run(s, ops).db);
    }
  }

  // ---- One recorded outcome per intent ----

  ghost predicate Outcome(log: seq<PayEvent>, x: Uuid, i: nat) {
    i < |log| && log[i].intent == x
  }

  /**
   * However webhooks, tasks, reprocessing and cancellations interleave: an intent has at most
   * one outcome event, COMPLETED is exactly one `payment.succeeded` carrying the stored amount
   * and hold, a `payment.failed` means FAILED, and an outcome once reached never changes.
   */
  lemma SingleOutcome(s: State, ops: seq<Op>, k: nat, x: Uuid)
    requires PS.Inv(s) && ValidRun(s, ops) && k <= |ops|
    requires x in Run(s, ops).db.intents
    ensures ValidRun(s, ops[..k])
    ensures var db := Run(s, ops).db;
            && (forall i: nat, j: nat | Outcome(db.outbox, x, i) && Outcome(db.outbox, x, j) :: i == j)
            && (db.intents[x].status == COMPLETED <==> Successes(db.outbox, x) == 1)
            && (forall i: nat | Outcome(db.outbox, x, i) && db.outbox[i].PaymentSucceeded? ::
                  db.outbox[i].amount == db.intents[x].amount && db.outbox[i].hold == db.intents[x].hold)
            && (forall i: nat | Outcome(db.outbox, x, i)
                && db.outbox[i].PaymentFailed? :: db.intents[x].status == FAILED)
    ensures var before := Run(s, ops[..k]).db;
            x in before.intents && before.intents[x].status != PENDING ==>
                Run(s, ops).db.intents[x] == before.intents[x]
  {
    Reachable(s, ops);
    RunGrows(s, ops, k);
    var db := Run(s, ops).db;
    forall i: nat | Outcome(db.outbox, x, i) ensures EventFits(db, db.outbox[i]) {}
  }

  // ---- Double charging ----

  /** The hold's payments that went through. */
  function CompletedFor(db: Db, hold: Uuid): set<Uuid> {
    set x | x in db.intents && db.intents[x].hold == hold && db.intents[x].status == COMPLETED
  }

  /** A success leaves its hold paid for once exactly when no other payment for it had gone through. */
  lemma ChargesOnceExactly(s: State, op: Op, x: Uuid)
    requires PS.Inv(s) && PS.Enabled(s, op) && op.Effected? && s.hooks[op.task].kind == HookSucceeded
    requires x in PendingByPsp(s.db, s.hooks[op.task].psp)
    ensures var db, db', hold := s.db, PS.Next(s, op).db, s.db.intents[x].hold;
            && CompletedFor(db', hold) == CompletedFor(db, hold) + {x} && x !in CompletedFor(db, hold)
            && (|CompletedFor(db', hold)| <= 1 <==> CompletedFor(db, hold) == {})
  {
    var db, db', hold := s.db, PS.Next(s, op).db, s.db.intents[x].hold;
    MatchesOne(db, s.hooks[op.task].psp, x);
    assert CompletedFor(db', hold) == CompletedFor(db, hold) + {x};
    assert |CompletedFor(db', hold)| == |CompletedFor(db, hold)| + 1;
  }

  // ---- Who asked for an intent ----

  /** The latest request that started checkout `c`. */
  function LatestBegin(ops: seq<Op>, c: nat): Option<nat> {
    if ops == [] then None
    else
      var n := |ops| - 1;
      if ops[n].Begin? && ops[n].checkout == c then Some(n) else LatestBegin(ops[..n], c)
  }

  /** The request whose checkout stored the intent. */
  ghost function Origin(s: State, ops: seq<Op>, x: Uuid): Option<nat>
    requires ValidRun(s, ops)
    decreases |ops|
  {
    if ops == [] then None
    else
      var n := |ops| - 1;
      if x !in Run(s, ops[..n]).db.intents && x in Run(s, ops).db.intents && ops[n].InsertIntent?
      then LatestBegin(ops[..n], ops[n].checkout)
      else Origin(s, ops[..n], x)
  }

  /** Request `k` asked for this seat, hold and user under this key. */
  predicate Named(ops: seq<Op>, k: Option<nat>, key: string, seat: Uuid, hold: Uuid, user: Uuid) {
    && k.Some? && k.value < |ops| && ops[k.value].Begin?
    && ops[k.value].key == key && ops[k.value].seat == seat && ops[k.value].hold == hold && ops[k.value].user == user
  }

  lemma NamedEarlier(ops: seq<Op>, k: Option<nat>, key: string, seat: Uuid, hold: Uuid, user: Uuid)
    requires ops != [] && Named(ops[..|ops| - 1], k, key, seat, hold, user)
    ensures Named(ops, k, key, seat, hold, user)
  {
  }

  lemma {:induction false} CheckoutAsNamed(s: State, ops: seq<Op>, c: nat)
    requires Fresh(s) && ValidRun(s, ops) && c in Run(s, ops).checkouts
    ensures var co := Run(s, ops).checkouts[c];
            Named(ops, LatestBegin(ops, c), co.key, co.seat, co.hold, co.user)
    decreases |ops|
  {
    if ops != [] {
      var n := |ops| - 1;
      if !(ops[n].Begin? && ops[n].checkout == c) {
        StageOnly(Run(s, ops[..n]), ops[n], c);
        CheckoutAsNamed(s, ops[..n], c);
        var co := Run(s, ops).checkouts[c];
        NamedEarlier(ops, LatestBegin(ops[..n], c), co.key, co.seat, co.hold, co.user);
      }
    }
  }

  /** A step changes nothing of a checkout in flight but its stage. */
  lemma StageOnly(s: State, op: Op, c: nat)
    requires PS.Enabled(s, op) && c in PS.Next(s, op).checkouts && !(op.Begin? && op.checkout == c)
    ensures c in s.checkouts && PS.Next(s, op).checkouts[c]
            == s.checkouts[c].(stage := PS.Next(s, op).checkouts[c].stage)
  {
  }

  /** A step stores at most the intent of its own checkout, and rewrites nothing but a status. */
  lemma StoresOwn(s: State, op: Op, x: Uuid)
    requires PS.Enabled(s, op) && x in PS.Next(s, op).db.intents
    ensures var row := PS.Next(s, op).db.intents[x];
            if x in s.db.intents then row == s.db.intents[x].(status := row.status)
            else && op.InsertIntent? && op.checkout in s.checkouts
                 && var co := s.checkouts[op.checkout];
                    row.key == co.key && row.seat == co.seat && row.hold == co.hold && row.user == co.user
  {
    if x in s.db.intents { NextGrows(s, op); }
  }

  /**
   * An intent is for the seat, hold and user its own checkout request named, and nothing else:
   * nobody compares them with the hold's. So it matches a hold exactly when that request did.
   */
  lemma {:induction false} IntentAsNamed(s: State, ops: seq<Op>, x: Uuid)
    requires Fresh(s) && ValidRun(s, ops) && x in Run(s, ops).db.intents
    ensures var row := Run(s, ops).db.intents[x];
            Named(ops, Origin(s, ops, x), row.key, row.seat, row.hold, row.user)
    decreases |ops|
  {
    if ops != [] {
      var n := |ops| - 1;
      var pre, row := Run(s, ops[..n]), Run(s, ops).db.intents[x];
      StoresOwn(pre, ops[n], x);
      if x in pre.db.intents {
        IntentAsNamed(s, ops[..n], x);
        NamedEarlier(ops, Origin(s, ops[..n], x), row.key, row.seat, row.hold, row.user);
      } else {
        CheckoutAsNamed(s, ops[..n], ops[n].checkout);
        NamedEarlier(ops, LatestBegin(ops[..n], ops[n].checkout), row.key, row.seat, row.hold, row.user);
      }
    }
  }

  // ---- Cancelling a seat's intents ----

  /** Every intent the statement failed has its event. */
  ghost predicate AllTold(db: Db, seat: Uuid, db': Db) {
    forall x | x in PendingBySeat(db, seat) :: exists i :: |db.outbox| <= i < |db'.outbox| && db'.outbox[i].intent == x
  }

  /** `seat.released` tells the world about every intent it failed exactly when it failed at most one. */
  lemma CancelTellsExactly(s: State, seat: Uuid, first: Uuid, eventId: Uuid)
    requires PS.Enabled(s, CancelSeat(seat, first, eventId))
    ensures var s' := PS.Next(s, CancelSeat(seat, first, eventId));
            && (forall x | x in PendingBySeat(s.db, seat) :: s'.db.intents[x].status == FAILED)
            && (AllTold(s.db, seat, s'.db) <==> PendingBySeat(s.db, seat) <= {first})
  {
    var s' := PS.Next(s, CancelSeat(seat, first, eventId));
    if PendingBySeat(s.db, seat) <= {first} && PendingBySeat(s.db, seat) != {} {
      assert s'.db.outbox[|s.db.outbox|].intent == first;
    }
    if AllTold(s.db, seat, s'.db) {
      forall x | x in PendingBySeat(s.db, seat) ensures x == first {
        var i :| |s.db.outbox| <= i < |s'.db.outbox| && s'.db.outbox[i].intent == x;
      }
    }
  }

  // ---- Acknowledged webhooks ----

  /** Step `k` of the run handled provider event `event`. */
  ghost predicate HandledAt(s: State, ops: seq<Op>, k: nat, event: string)
    requires ValidRun(s, ops)
  {
    k < |ops| && ValidRun(s, ops[..k]) && PS.Enabled(Run(s, ops[..k]), ops[k])
        && Handles(Run(s, ops[..k]), ops[k], event)
  }

  ghost predicate Handled(s: State, ops: seq<Op>, event: string)
    requires ValidRun(s, ops)
  {
    exists k: nat :: HandledAt(s, ops, k, event)
  }

  lemma HandledKept(s: State, ops: seq<Op>, event: string)
    requires ValidRun(s, ops) && ops != [] && Handled(s, ops[..|ops| - 1], event)
    ensures Handled(s, ops, event)
  {
    var pre := ops[..|ops| - 1];
    var k: nat :| HandledAt(s, pre, k, event);
    assert pre[..k] == ops[..k];
    assert HandledAt(s, ops, k, event);
  }

  /** `processed_at` is set, or a task is about to set it. */
  ghost predicate Done(s: State, event: string) {
    || (event in s.db.inbox && s.db.inbox[event].processed)
    || (exists t :: t in s.hooks && s.hooks[t].event == event && s.hooks[t].effected)
  }

  predicate Handles(s: State, op: Op, event: string) {
    op.Effected? && op.task in s.hooks && s.hooks[op.task].event == event
  }

  lemma DoneByHandling(s: State, op: Op, event: string)
    requires PS.Enabled(s, op) && Done(PS.Next(s, op), event) && !Handles(s, op, event)
    ensures Done(s, event)
  {
    var s' := PS.Next(s, op);
    if exists t :: t in s'.hooks && s'.hooks[t].event == event && s'.hooks[t].effected {
      var t :| t in s'.hooks && s'.hooks[t].event == event && s'.hooks[t].effected;
      assert t in s.hooks && s.hooks[t] == s'.hooks[t];
    } else if op.Mark? && s.hooks[op.task].event == event {
      assert op.task in s.hooks && s.hooks[op.task].effected;
    }
  }

  lemma {:induction false} DoneWasHandled(s: State, ops: seq<Op>, event: string)
    requires Fresh(s) && ValidRun(s, ops) && Done(Run(s, ops), event)
    ensures Handled(s, ops, event)
    decreases |ops|
  {
    if ops != [] {
      var n := |ops| - 1;
      var pre := ops[..n];
      if Handles(Run(s, pre), ops[n], event) {
        assert HandledAt(s, ops, n, event);
      } else {
        DoneByHandling(Run(s, pre), ops[n], event);
        DoneWasHandled(s, pre, event);
        HandledKept(s, ops, event);
      }
    }
  }

  /** Handling a success or failure takes every intent with the event's provider id out of PENDING. */
  lemma HandlingSettles(s: State, op: Op)
    requires PS.Enabled(s, op) && op.Effected? && s.hooks[op.task].kind != HookOther
    ensures forall x | x in s.db.intents && s.db.intents[x].psp == s.hooks[op.task].psp ::
              x in PS.Next(s, op).db.intents && PS.Next(s, op).db.intents[x].status != PENDING
  {
    forall x | x in s.db.intents && s.db.intents[x].psp == s.hooks[op.task].psp
      ensures PS.Next(s, op).db.intents[x].status != PENDING
    {
      assert x in PendingByPsp(s.db, s.hooks[op.task].psp) <==> s.db.intents[x].status == PENDING;
    }
  }

  lemma FreshInv(s: State)
    requires Fresh(s)
    ensures PS.Inv(s)
  {
  }

  /** Every intent of the provider id that was stored when step `k` ran has left PENDING. */
  ghost predicate SettledSince(s: State, ops: seq<Op>, k: nat, psp: string)
    requires ValidRun(s, ops)
  {
    && k <= |ops| && ValidRun(s, ops[..k])
    && var was, db := Run(s, ops[..k]).db, Run(s, ops).db;
       forall x | x in was.intents && was.intents[x].psp == psp :: x in db.intents && db.intents[x].status != PENDING
  }

  /**
   * No acknowledged webhook loses its effect. Once `processed_at` is set, some step of the run
   * handled the event; and whichever step handles a success or failure, every intent it speaks
   * of that is stored by then has left PENDING for good, whatever crashed before or since.
   */
  lemma AckedWebhookTakesEffect(s: State, ops: seq<Op>, event: string)
    requires Fresh(s) && ValidRun(s, ops) && event in Run(s, ops).db.inbox
    ensures var row := Run(s, ops).db.inbox[event];
            && (row.processed ==> Handled(s, ops, event))
            && (row.kind != HookOther ==>
                  forall k: nat | HandledAt(s, ops, k, event) :: SettledSince(s, ops, k, row.psp))
  {
    var row := Run(s, ops).db.inbox[event];
    if row.processed { DoneWasHandled(s, ops, event); }
    if row.kind != HookOther {
      forall k: nat | HandledAt(s, ops, k, event) ensures SettledSince(s, ops, k, row.psp) {
        HandledIsSettled(s, ops, event, k);
      }
    }
  }

  lemma HandledIsSettled(s: State, ops: seq<Op>, event: string, k: nat)
    requires Fresh(s) && ValidRun(s, ops) && event in Run(s, ops).db.inbox && HandledAt(s, ops, k, event)
    requires Run(s, ops).db.inbox[event].kind != HookOther
    ensures SettledSince(s, ops, k, Run(s, ops).db.inbox[event].psp)
  {
    FreshInv(s);
    Reachable(s, ops[..k]);
    RunGrows(s, ops, k);
    RunGrows(s, ops, k + 1);
    assert ops[..k + 1][..k] == ops[..k];
    var before := Run(s, ops[..k]);
    assert Run(s, ops[..k + 1]) == PS.Next(before, ops[k]);
    assert HookInv(before.db, before.hooks[ops[k].task]);
    HandlingSettles(before, ops[k]);
  }

  // ---- When an intent is still PENDING ----

  /** The step handles a success or failure of the intent's provider id, or a release of its seat. */
  predicate Decides(s: State, op: Op, i: Intent) {
    || (op.Effected? && op.task in s.hooks && s.hooks[op.task].kind != HookOther && s.hooks[op.task].psp == i.psp)
    || (op.CancelSeat? && op.seat == i.seat)
  }

  /** Step `k` of the run was such a step, and the intent was already stored. */
  ghost predicate DecidedAt(s: State, ops: seq<Op>, k: nat, x: Uuid)
    requires ValidRun(s, ops)
  {
    && k < |ops| && ValidRun(s, ops[..k])
    && var t := Run(s, ops[..k]); x in t.db.intents && Decides(t, ops[k], t.db.intents[x])
  }

  ghost predicate DecidedSinceStored(s: State, ops: seq<Op>, x: Uuid)
    requires ValidRun(s, ops)
  {
    exists k: nat :: DecidedAt(s, ops, k, x)
  }

  lemma EffectPending(db: Db, kind: HookKind, psp: string, first: Uuid, eventId: Uuid, traceOk: bool, x: Uuid)
    requires kind != HookOther && PendingByPsp(db, psp) != {} ==> first in PendingByPsp(db, psp)
    requires x in db.intents
    ensures var db' := Effect(db, kind, psp, first, eventId, traceOk);
            && x in db'.intents
            && (db'.intents[x].status == PENDING <==>
                  db.intents[x].status == PENDING && (kind == HookOther || db.intents[x].psp != psp))
  {
    assert x in PendingByPsp(db, psp) <==> Pending(db, x) && db.intents[x].psp == psp;
  }

  lemma CancelPending(db: Db, seat: Uuid, first: Uuid, eventId: Uuid, x: Uuid)
    requires (PendingBySeat(db, seat) != {} ==> first in PendingBySeat(db, seat)) && x in db.intents
    ensures var db' := Settle(db, PendingBySeat(db, seat), first, Verdict.Fail(SeatReleasedReason), eventId, true);
            && x in db'.intents
            && (db'.intents[x].status == PENDING <==> db.intents[x].status == PENDING && db.intents[x].seat != seat)
  {
    assert x in PendingBySeat(db, seat) <==> Pending(db, x) && db.intents[x].seat == seat;
  }

  lemma OneStepPending(s: State, op: Op, x: Uuid)
    requires PS.Enabled(s, op) && x in PS.Next(s, op).db.intents
    ensures PS.Next(s, op).db.intents[x].status == PENDING <==>
              x in s.db.intents ==> s.db.intents[x].status == PENDING && !Decides(s, op, s.db.intents[x])
  {
    if x in s.db.intents {
      match op
      case Effected(task, first, eventId) =>
        var h := s.hooks[task];
        EffectPending(s.db, h.kind, h.psp, first, eventId, h.source.Handler?, x);
      case CancelSeat(seat, first, eventId) => CancelPending(s.db, seat, first, eventId, x);
      case _ =>
    }
  }

  lemma DecidedLast(s: State, ops: seq<Op>, x: Uuid)
    requires ValidRun(s, ops) && ops != []
    ensures var n := |ops| - 1;
            DecidedSinceStored(s, ops, x) <==> DecidedSinceStored(s, ops[..n], x) || DecidedAt(s, ops, n, x)
  {
    var n := |ops| - 1;
    var pre := ops[..n];
    if DecidedSinceStored(s, ops, x) {
      var k: nat :| DecidedAt(s, ops, k, x);
      assert k < n ==> pre[..k] == ops[..k] && DecidedAt(s, pre, k, x);
    }
    if DecidedSinceStored(s, pre, x) {
      var k: nat :| DecidedAt(s, pre, k, x);
      assert pre[..k] == ops[..k] && DecidedAt(s, ops, k, x);
    }
  }

  /**
   * In every run an intent is still PENDING exactly when, since it was stored, nothing handled
   * a provider event about it and no release of its seat was consumed. What was handled
   * before it was stored has no effect on it.
   */
  lemma {:induction false} PendingExactly(s: State, ops: seq<Op>, x: Uuid)
    requires Fresh(s) && ValidRun(s, ops) && x in Run(s, ops).db.intents
    ensures Run(s, ops).db.intents[x].status == PENDING <==> !DecidedSinceStored(s, ops, x)
    decreases |ops|
  {
    if ops != [] {
      var n := |ops| - 1;
      var pre := ops[..n];
      OneStepPending(Run(s, pre), ops[n], x);
      DecidedLast(s, ops, x);
      if x in Run(s, pre).db.intents {
        PendingExactly(s, pre, x);
      } else {
        NothingDecided(s, pre, x);
      }
    }
  }

  lemma NothingDecided(s: State, ops: seq<Op>, x: Uuid)
    requires Fresh(s) && ValidRun(s, ops) && x !in Run(s, ops).db.intents
    ensures !DecidedSinceStored(s, ops, x)
  {
    if DecidedSinceStored(s, ops, x) {
      var k: nat :| DecidedAt(s, ops, k, x);
      FreshInv(s);
      RunGrows(s, ops, k);
      assert false;
    }
  }

  lemma Extend(s: State, ops: seq<Op>, op: Op)
    requires ValidRun(s, ops) && PS.Enabled(Run(s, ops), op)
    ensures ValidRun(s, ops + [op]) && Run(s, ops + [op]) == PS.Next(Run(s, ops), op)
  {
    assert (ops + [op])[..|ops|] == ops;
  }

  function WithCheckout(t: State, c: nat, co: Checkout): State {
    t.(checkouts := t.checkouts[c := co])
  }

  /** What `CallPsp` leaves of a checkout that found nothing under its key. */
  function AuthorizedFor(db: Db, key: string, seat: Uuid, hold: Uuid): Checkout
    requires seat in db.prices
  {
    Checkout(key, seat, hold, 9, Authorized(db.prices[seat], PspId(key) + "_secret_" + "r"))
  }

  /** A checkout of a priced seat finds nothing under its key and reads the price. */
  lemma PriceIsRead(t: State, c: nat, key: string, seat: Uuid, hold: Uuid)
    requires !KeyTaken(t.db, key) && c !in t.checkouts && seat in t.db.prices
    ensures var begin := Begin(c, key, seat, hold, 9);
            && PS.Enabled(t, begin) && PS.Enabled(PS.Next(t, begin), Lookup(c))
            && var missed := PS.Next(PS.Next(t, begin), Lookup(c));
               && PS.Enabled(missed, ReadPrice(c))
               && PS.Next(missed, ReadPrice(c))
                  == WithCheckout(t, c, Checkout(key, seat, hold, 9, Priced(t.db.prices[seat])))
  {
    var t1 := PS.Next(t, Begin(c, key, seat, hold, 9));
    assert t1 == WithCheckout(t, c, Checkout(key, seat, hold, 9, Began));
    assert PS.Next(t1, Lookup(c)) == WithCheckout(t, c, Checkout(key, seat, hold, 9, Missed));
  }

  /** A checkout of a priced seat, undisturbed as far as the provider's answer. */
  lemma PlainAuthorize(s: State, ops: seq<Op>, c: nat, key: string, seat: Uuid, hold: Uuid) returns (ops': seq<Op>)
    requires ValidRun(s, ops)
    requires !KeyTaken(Run(s, ops).db, key) && c !in Run(s, ops).checkouts && seat in Run(s, ops).db.prices
    ensures ValidRun(s, ops')
    ensures Run(s, ops') == WithCheckout(Run(s, ops), c, AuthorizedFor(Run(s, ops).db, key, seat, hold))
    ensures ops' == ops + [Begin(c, key, seat, hold, 9)] + [Lookup(c)] + [ReadPrice(c)] + [CallPsp(c, true, "r")]
  {
    PriceIsRead(Run(s, ops), c, key, seat, hold);
    ops' := ExtendThree(s, ops, Begin(c, key, seat, hold, 9), Lookup(c), ReadPrice(c));
    PspAnswers(Run(s, ops), c, key, seat, hold);
    Extend(s, ops', CallPsp(c, true, "r"));
    ops' := ops' + [CallPsp(c, true, "r")];
  }

  lemma PspAnswers(t: State, c: nat, key: string, seat: Uuid, hold: Uuid)
    requires seat in t.db.prices
    ensures var priced := WithCheckout(t, c, Checkout(key, seat, hold, 9, Priced(t.db.prices[seat])));
            && PS.Enabled(priced, CallPsp(c, true, "r"))
            && PS.Next(priced, CallPsp(c, true, "r")) == WithCheckout(t, c, AuthorizedFor(t.db, key, seat, hold))
  {
  }

  /** The row such a checkout stores. */
  function IntentFor(db: Db, key: string, seat: Uuid, hold: Uuid): Intent
    requires seat in db.prices
  {
    NewIntent(AuthorizedFor(db, key, seat, hold))
  }

  /** A checkout nobody disturbs, under a free key. */
  lemma PlainCheckout(s: State, ops: seq<Op>, key: string, seat: Uuid, hold: Uuid, x: Uuid) returns (ops': seq<Op>)
    requires ValidRun(s, ops)
    requires var t := Run(s, ops);
             !KeyTaken(t.db, key) && t.checkouts == map[] && seat in t.db.prices && x !in t.db.intents
    ensures ValidRun(s, ops') && (Uncancelled(ops) ==> Uncancelled(ops'))
    ensures var t, t' := Run(s, ops), Run(s, ops');
            t' == t.(db := t.db.(intents := t.db.intents[x := IntentFor(t.db, key, seat, hold)]), replies := t'.replies)
  {
    ops' := PlainAuthorize(s, ops, 0, key, seat, hold);
    IntentIsStored(Run(s, ops), key, seat, hold, x);
    Extend(s, ops', InsertIntent(0, x));
    ops' := ops' + [InsertIntent(0, x)];
  }

  lemma IntentIsStored(t: State, key: string, seat: Uuid, hold: Uuid, x: Uuid)
    requires !KeyTaken(t.db, key) && t.checkouts == map[] && seat in t.db.prices && x !in t.db.intents
    ensures var u := WithCheckout(t, 0, AuthorizedFor(t.db, key, seat, hold));
            && PS.Enabled(u, InsertIntent(0, x))
            && var t' := PS.Next(u, InsertIntent(0, x));
               t' == t.(db := t.db.(intents := t.db.intents[x := IntentFor(t.db, key, seat, hold)]),
                   replies := t'.replies)
  {
    assert WithCheckout(t, 0, AuthorizedFor(t.db, key, seat, hold)).checkouts - {0} == map[];
  }

  /** Nothing in it answers a released seat. */
  predicate Uncancelled(ops: seq<Op>) {
    forall i | 0 <= i < |ops| :: !ops[i].CancelSeat?
  }

  /** Received, handled without finding its intent, and marked. */
  lemma HandledTooEarly(t: State, psp: string)
    requires t.db.inbox == map[] && t.hooks == map[] && t.db.intents == map[] && t.db.outbox == []
    ensures var receive := Receive("evt", HookSucceeded, psp, 0);
            && PS.Enabled(t, receive) && PS.Enabled(PS.Next(t, receive), Effected(0, 0, 0))
            && var handled := PS.Next(PS.Next(t, receive), Effected(0, 0, 0));
               && PS.Enabled(handled, Mark(0))
               && PS.Next(handled, Mark(0))
                  == t.(db := t.db.(inbox := map["evt" := InboxRow(HookSucceeded, psp, true)]))
  {
    var s1 := PS.Next(t, Receive("evt", HookSucceeded, psp, 0));
    assert s1 == t.(db := t.db.(inbox := map["evt" := InboxRow(HookSucceeded, psp, false)]),
                    hooks := map[0 := Hook("evt", HookSucceeded, psp, false, Handler)]);
    assert PendingByPsp(s1.db, psp) == {};
    var s2 := PS.Next(s1, Effected(0, 0, 0));
    assert s2 == s1.(hooks := map[0 := Hook("evt", HookSucceeded, psp, true, Handler)]);
    assert PS.Next(s2, Mark(0)).hooks == map[];
  }

  /** The provider reports an intent it has just been asked for, before the intent is stored. */
  lemma EarlyWebhook(s: State, ops: seq<Op>, psp: string) returns (ops': seq<Op>)
    requires ValidRun(s, ops)
    requires var t := Run(s, ops); t.db.inbox == map[] && t.hooks == map[] && t.db.intents == map[] && t.db.outbox == []
    ensures ValidRun(s, ops')
    ensures var t := Run(s, ops);
            Run(s, ops') == t.(db := t.db.(inbox := map["evt" := InboxRow(HookSucceeded, psp, true)]))
  {
    HandledTooEarly(Run(s, ops), psp);
    ops' := ExtendThree(s, ops, Receive("evt", HookSucceeded, psp, 0), Effected(0, 0, 0), Mark(0));
  }

  lemma ExtendThree(s: State, ops: seq<Op>, a: Op, b: Op, c: Op) returns (ops': seq<Op>)
    requires ValidRun(s, ops) && PS.Enabled(Run(s, ops), a) && PS.Enabled(PS.Next(Run(s, ops), a), b)
    requires PS.Enabled(PS.Next(PS.Next(Run(s, ops), a), b), c)
    ensures ops' == ops + [a] + [b] + [c] && ValidRun(s, ops')
    ensures Run(s, ops') == PS.Next(PS.Next(PS.Next(Run(s, ops), a), b), c)
  {
    Extend(s, ops, a);
    Extend(s, ops + [a], b);
    Extend(s, ops + [a] + [b], c);
    ops' := ops + [a] + [b] + [c];
  }

  /**
   * The window is real: between the provider's answer and the insert, the success arrives, is
   * handled and is marked processed, and the payment it paid for ends up PENDING.
   */
  lemma EarlyWebhookIsLost(s: State, seat: Uuid, key: string) returns (ops: seq<Op>)
    requires Fresh(s) && seat in s.db.prices
    ensures ValidRun(s, ops)
    ensures var db := Run(s, ops).db;
            && "evt" in db.inbox && db.inbox["evt"] == InboxRow(HookSucceeded, PspId(key), true)
            && 1 in db.intents && db.intents[1].psp == PspId(key) && db.intents[1].status == PENDING
  {
    ops := [];
    assert ValidRun(s, ops);
    ops := PlainAuthorize(s, ops, 0, key, seat, 9);
    ops := EarlyWebhook(s, ops, PspId(key));
    Extend(s, ops, InsertIntent(0, 1));
    ops := ops + [InsertIntent(0, 1)];
  }

  // ---- Checkout linearizes per idempotency key ----

  /**
   * Overlapping checkouts under one key agree: their replies name one stored intent and repeat
   * its secret, amount and currency; at most one reply claims to have created it; the amount is
   * the price of the seat the winner asked for, and every `payment.succeeded` carries it.
   */
  lemma CheckoutLinearizes(s: State, ops: seq<Op>, i: nat, j: nat)
    requires Fresh(s) && ValidRun(s, ops)
    requires i <= j < |Run(s, ops).replies| && Run(s, ops).replies[i].key == Run(s, ops).replies[j].key
    ensures var t := Run(s, ops); var p, q := t.replies[i], t.replies[j];
            && q == p.(idempotent := q.idempotent) && (i < j ==> p.idempotent || q.idempotent)
            && (forall x | x in t.db.intents && t.db.intents[x].key == p.key :: x == p.intent)
            && p.intent in t.db.intents
            && var row := t.db.intents[p.intent];
               row.secret == p.secret && row.amount == p.amount && row.seat in s.db.prices
               && p.amount == s.db.prices[row.seat].cents && p.currency == s.db.prices[row.seat].currency
               && forall e | e in t.db.outbox && e.PaymentSucceeded? && e.intent == p.intent ::
                    e.amount == p.amount && e.currency == p.currency
  {
    FreshInv(s);
    Reachable(s, ops);
    RunGrows(s, ops, 0);
    var t := Run(s, ops);
    assert ReplyInv(t.db, t.replies[i]) && ReplyInv(t.db, t.replies[j]);
    forall e | e in t.db.outbox ensures EventFits(t.db, e) {}
  }
}

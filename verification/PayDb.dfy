/**
 * The payment database as a value: what each statement or transaction of the payment
 * service does to `payment_intents`, `webhook_inbox` and `outbox`.
 */
module PayDb {
  import opened Base
  import opened Events

  datatype IntentStatus = PENDING | COMPLETED | FAILED
  datatype Price = Price(cents: nat, currency: string)
  datatype Intent = Intent(seat: Uuid, user: Uuid, hold: Uuid, amount: nat, currency: string,
                           psp: string, key: string, secret: string, status: IntentStatus)

  datatype HookKind = HookSucceeded | HookFailed | HookOther
  datatype InboxRow = InboxRow(kind: HookKind, psp: string, processed: bool)

  /** `outbox` lists every event row ever inserted; `prices` is seeded once and only read. */
  datatype Db = Db(intents: map<Uuid, Intent>, inbox: map<string, InboxRow>, prices: map<Uuid, Price>,
                   outbox: seq<PayEvent>)

  /** The provider's id for an intent is a function of the client's idempotency key. */
  function PspId(key: string): string {
    "pi_mock_" + key
  }

  predicate Pending(db: Db, x: Uuid) {
    x in db.intents && db.intents[x].status == PENDING
  }

  /** `WHERE psp_intent_id = $1 AND status = 'PENDING'`. */
  function PendingByPsp(db: Db, psp: string): set<Uuid> {
    set x | x in db.intents && db.intents[x].status == PENDING && db.intents[x].psp == psp
  }

  /** `WHERE seat_id = $1 AND status = 'PENDING'`. */
  function PendingBySeat(db: Db, seat: Uuid): set<Uuid> {
    set x | x in db.intents && db.intents[x].status == PENDING && db.intents[x].seat == seat
  }

  ghost predicate KeyTaken(db: Db, key: string) {
    exists x :: x in db.intents && db.intents[x].key == key
  }

  datatype Verdict = Succeed | Fail(reason: FailureReason)

  function EventOf(db: Db, x: Uuid, v: Verdict, eventId: Uuid, traceOk: bool): PayEvent
    requires x in db.intents
  {
    var i := db.intents[x];
    match v
    case Succeed => PaymentSucceeded(eventId, x, i.seat, i.user, i.hold, i.amount, i.currency, i.psp, traceOk)
    case Fail(reason) => PaymentFailed(eventId, x, i.seat, i.user, i.hold, reason, traceOk)
  }

  /**
   * `markCompleted`, `markFailed` and `markFailedBySeatId`: every matching row leaves PENDING,
   * but only `first`, the first row returned, gets an event. No match rolls back.
   */
  function Settle(db: Db, rows: set<Uuid>, first: Uuid, v: Verdict, eventId: Uuid, traceOk: bool): Db
    requires rows <= db.intents.Keys
    requires rows != {} ==> first in rows
  {
    if rows == {} then db
    else
      var status := if v.Succeed? then COMPLETED else FAILED;
      db.(intents := map x | x in db.intents :: if x in rows then db.intents[x].(status := status) else db.intents[x],
          outbox := db.outbox + [EventOf(db, first, v, eventId, traceOk)])
  }

  /** The effect of one provider event: an unhandled kind does nothing. */
  function Effect(db: Db, kind: HookKind, psp: string, first: Uuid, eventId: Uuid, traceOk: bool): Db
    requires kind != HookOther && PendingByPsp(db, psp) != {} ==> first in PendingByPsp(db, psp)
  {
    match kind
    case HookSucceeded => Settle(db, PendingByPsp(db, psp), first, Succeed, eventId, traceOk)
    case HookFailed => Settle(db, PendingByPsp(db, psp), first, Fail(DeclinedReason), eventId, traceOk)
    case HookOther => db
  }

  function MarkProcessed(db: Db, event: string): Db {
    if event in db.inbox then db.(inbox := db.inbox[event := db.inbox[event].(processed := true)]) else db
  }

  // ---- What every statement keeps ----

  function Successes(log: seq<PayEvent>, x: Uuid): nat {
    if log == [] then 0
    else
      var e := log[|log| - 1];
      Successes(log[..|log| - 1], x) + if e.PaymentSucceeded? && e.intent == x then 1 else 0
  }

  predicate EventFits(db: Db, e: PayEvent) {
    && e.intent in db.intents
    && var i := db.intents[e.intent];
       && e.seat == i.seat && e.user == i.user && e.hold == i.hold
       && (e.PaymentSucceeded? ==>
             i.status == COMPLETED && e.amount == i.amount && e.currency == i.currency && e.psp == i.psp)
       && (e.PaymentFailed? ==> i.status == FAILED)
  }

  predicate EventsFit(db: Db) {
    forall i | 0 <= i < |db.outbox| :: EventFits(db, db.outbox[i])
  }

  /** No intent has two outcome events and no event id is used twice. */
  predicate EventsDistinct(log: seq<PayEvent>) {
    forall i, j | 0 <= i < j < |log| :: log[i].intent != log[j].intent && log[i].eventId != log[j].eventId
  }

  predicate Recorded(db: Db) {
    forall x | x in db.intents :: Successes(db.outbox, x) == if db.intents[x].status == COMPLETED then 1 else 0
  }

  predicate RowsFit(db: Db) {
    && (forall x | x in db.intents :: db.intents[x].psp == PspId(db.intents[x].key))
    && (forall x | x in db.intents :: db.intents[x].seat in db.prices
          && db.intents[x].amount == db.prices[db.intents[x].seat].cents
          && db.intents[x].currency == db.prices[db.intents[x].seat].currency)
    && (forall x, y | x in db.intents && y in db.intents && db.intents[x].key == db.intents[y].key :: x == y)
  }

  ghost predicate Inv(db: Db) {
    RowsFit(db) && EventsFit(db) && EventsDistinct(db.outbox) && Recorded(db)
  }

  predicate FreshEvent(db: Db, eventId: Uuid) {
    forall i | 0 <= i < |db.outbox| :: db.outbox[i].eventId != eventId
  }

  /** The provider's ids inherit uniqueness from the keys, so a provider event matches one row at most. */
  lemma PspIdsUnique(db: Db, x: Uuid, y: Uuid)
    requires RowsFit(db) && x in db.intents && y in db.intents && db.intents[x].psp == db.intents[y].psp
    ensures x == y
  {
    var p, q := db.intents[x].key, db.intents[y].key;
    assert PspId(p)[8..] == p && PspId(q)[8..] == q;
  }

  lemma MatchesOne(db: Db, psp: string, x: Uuid)
    requires RowsFit(db) && x in PendingByPsp(db, psp)
    ensures PendingByPsp(db, psp) == {x}
  {
    forall y | y in PendingByPsp(db, psp) ensures y == x { PspIdsUnique(db, x, y); }
  }

  lemma SuccessesAppended(log: seq<PayEvent>, e: PayEvent)
    ensures forall x :: Successes(log + [e], x)
                        == Successes(log, x) + if e.PaymentSucceeded? && e.intent == x then 1 else 0
  {
    assert (log + [e])[..|log|] == log;
  }

  lemma SettleKeepsEvents(db: Db, rows: set<Uuid>, first: Uuid, v: Verdict, eventId: Uuid, traceOk: bool)
    requires EventsFit(db) && EventsDistinct(db.outbox) && FreshEvent(db, eventId)
    requires rows <= db.intents.Keys && forall x | x in rows :: Pending(db, x)
    requires first in rows
    ensures EventsFit(Settle(db, rows, first, v, eventId, traceOk))
    ensures EventsDistinct(Settle(db, rows, first, v, eventId, traceOk).outbox)
  {
    var db' := Settle(db, rows, first, v, eventId, traceOk);
    forall i | 0 <= i < |db.outbox| ensures EventFits(db', db.outbox[i]) && db.outbox[i].intent !in rows {
      assert EventFits(db, db.outbox[i]);
    }
    assert EventFits(db', db'.outbox[|db.outbox|]);
  }

  lemma SettleKeepsRecorded(db: Db, rows: set<Uuid>, first: Uuid, v: Verdict, eventId: Uuid, traceOk: bool)
    requires Recorded(db)
    requires rows <= db.intents.Keys && forall x | x in rows :: Pending(db, x)
    requires first in rows && (v.Succeed? ==> rows <= {first})
    ensures Recorded(Settle(db, rows, first, v, eventId, traceOk))
  {
    SuccessesAppended(db.outbox, EventOf(db, first, v, eventId, traceOk));
  }

  lemma SettleKeepsInv(db: Db, rows: set<Uuid>, first: Uuid, v: Verdict, eventId: Uuid, traceOk: bool)
    requires Inv(db) && FreshEvent(db, eventId)
    requires rows <= db.intents.Keys && forall x | x in rows :: Pending(db, x)
    requires rows != {} ==> first in rows
    requires v.Succeed? ==> rows <= {first}
    ensures Inv(Settle(db, rows, first, v, eventId, traceOk))
  {
    if rows != {} {
      SettleKeepsEvents(db, rows, first, v, eventId, traceOk);
      SettleKeepsRecorded(db, rows, first, v, eventId, traceOk);
    }
  }

  lemma EffectKeepsInv(db: Db, kind: HookKind, psp: string, first: Uuid, eventId: Uuid, traceOk: bool)
    requires Inv(db) && FreshEvent(db, eventId)
    requires kind != HookOther && PendingByPsp(db, psp) != {} ==> first in PendingByPsp(db, psp)
    ensures Inv(Effect(db, kind, psp, first, eventId, traceOk))
  {
    if kind != HookOther && PendingByPsp(db, psp) != {} { MatchesOne(db, psp, first); }
    match kind
    case HookSucceeded => SettleKeepsInv(db, PendingByPsp(db, psp), first, Succeed, eventId, traceOk);
    case HookFailed => SettleKeepsInv(db, PendingByPsp(db, psp), first, Fail(DeclinedReason), eventId, traceOk);
    case HookOther =>
  }

  lemma {:induction false} NoEventNoSuccess(log: seq<PayEvent>, x: Uuid)
    requires forall i | 0 <= i < |log| :: log[i].intent != x
    ensures Successes(log, x) == 0
  {
    if log != [] { NoEventNoSuccess(log[..|log| - 1], x); }
  }

  lemma CreateKeepsInv(db: Db, x: Uuid, i: Intent)
    requires Inv(db) && x !in db.intents && !KeyTaken(db, i.key)
    requires i.status == PENDING && i.psp == PspId(i.key)
    requires i.seat in db.prices && i.amount == db.prices[i.seat].cents && i.currency == db.prices[i.seat].currency
    ensures Inv(db.(intents := db.intents[x := i]))
  {
    var db' := db.(intents := db.intents[x := i]);
    forall k | 0 <= k < |db.outbox| ensures EventFits(db', db.outbox[k]) && db.outbox[k].intent != x {
      assert EventFits(db, db.outbox[k]);
    }
    NoEventNoSuccess(db.outbox, x);
  }
}

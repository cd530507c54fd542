/**
 * The payment service's writers over mutable tables: the repository's transactions, the
 * webhook handler, the reprocessor's batch and a checkout that runs amid other requests.
 */
module PaymentIntentsRepository {
  import opened Base
  import opened Events
  import opened PayDb
  import opened PayService

  /** Acknowledged events nobody has marked processed. */
  function Unprocessed(db: Db): set<string> {
    set e | e in db.inbox && !db.inbox[e].processed
  }

  const BATCH: nat := 50

  /** Where the handling of one reprocessed row threw, if it did. */
  datatype Fault = NoFault | EffectThrows | MarkThrows

  datatype CheckoutResult = Replied(reply: Reply) | SeatPriceUnknown | PspUnavailable | InsertFailed

  /** The provider id is derived from the key and the amount is the seat's price. */
  predicate IntentFits(db: Db, i: Intent) {
    i.psp == PspId(i.key) && i.seat in db.prices && i.amount == db.prices[i.seat].cents
        && i.currency == db.prices[i.seat].currency
  }

  /** Exactly the pending intents of the provider id are settled: completed by a success, failed by a failure. */
  predicate Verdicts(was: Db, db: Db, kind: HookKind, psp: string) {
    && db.intents.Keys == was.intents.Keys
    && forall x | x in was.intents ::
         var i := was.intents[x];
         db.intents[x] == if i.status != PENDING || i.psp != psp || kind == HookOther then i
                          else i.(status := if kind == HookSucceeded then COMPLETED else FAILED)
  }

  class PaymentIntentsRepository {
    var intents: map<Uuid, Intent>
    var inbox: map<string, InboxRow>
    var prices: map<Uuid, Price>
    var outbox: seq<PayEvent>
    var reprocessing: bool

    function Tables(): Db
      reads this
    {
      Db(intents, inbox, prices, outbox)
    }

    constructor (prices: map<Uuid, Price>)
      ensures Tables() == Db(map[], map[], prices, [])
    {
      this.intents, this.inbox, this.prices, this.outbox, reprocessing := map[], map[], prices, [], false;
    }

    /** The shared tail of the three verdicts: update the rows, tell about the first returned. */
    method SettleRows(rows: set<Uuid>, v: Verdict, eventId: Uuid, traceOk: bool) returns (ok: bool, first: Uuid)
      requires rows <= intents.Keys
      modifies this`intents, this`outbox
      ensures ok == (rows != {}) && (ok ==> first in rows)
      ensures Tables() == Settle(old(Tables()), rows, first, v, eventId, traceOk)
      ensures forall x | x in old(intents) ::
                intents[x] == if x !in rows then old(intents)[x]
                              else old(intents)[x].(status := if v.Succeed? then COMPLETED else FAILED)
    {
      first := 0;
      if rows == {} {
        return false, first;
      }
      first :| first in rows;
      var event := EventOf(Tables(), first, v, eventId, traceOk);
      var status := if v.Succeed? then COMPLETED else FAILED;
      intents := map x | x in intents :: if x in rows then intents[x].(status := status) else intents[x];
      outbox := outbox + [event];
      return true, first;
    }

    /** `markCompleted`: the matching row is COMPLETED and one `payment.succeeded` repeats it; no match, no change. */
    method MarkCompleted(psp: string, eventId: Uuid, traceOk: bool) returns (ok: bool, first: Uuid)
      modifies this`intents, this`outbox
      ensures ok == (PendingByPsp(old(Tables()), psp) != {}) && (ok ==> first in PendingByPsp(old(Tables()), psp))
      ensures Tables() == Effect(old(Tables()), HookSucceeded, psp, first, eventId, traceOk)
      ensures Verdicts(old(Tables()), Tables(), HookSucceeded, psp) && (!ok ==> Tables() == old(Tables()))
      ensures ok ==>
                var i := old(intents)[first];
                outbox == old(outbox) + [PaymentSucceeded(eventId, first, i.seat, i.user, i.hold, i.amount, i.currency,
                                                          psp, traceOk)]
    {
      ok, first := SettleRows(PendingByPsp(Tables(), psp), Succeed, eventId, traceOk);
    }

    /** `markFailed`: the matching row is FAILED and one `payment.failed` gives the decline; no match, no change. */
    method MarkFailed(psp: string, eventId: Uuid, traceOk: bool) returns (ok: bool, first: Uuid)
      modifies this`intents, this`outbox
      ensures ok == (PendingByPsp(old(Tables()), psp) != {}) && (ok ==> first in PendingByPsp(old(Tables()), psp))
      ensures Tables() == Effect(old(Tables()), HookFailed, psp, first, eventId, traceOk)
      ensures Verdicts(old(Tables()), Tables(), HookFailed, psp) && (!ok ==> Tables() == old(Tables()))
      ensures ok ==>
                var i := old(intents)[first];
                outbox == old(outbox) + [PaymentFailed(eventId, first, i.seat, i.user, i.hold, DeclinedReason, traceOk)]
    {
      ok, first := SettleRows(PendingByPsp(Tables(), psp), Verdict.Fail(DeclinedReason), eventId, traceOk);
    }

    /**
     * `markFailedBySeatId`, as the `seat.released` consumer calls it: every pending row of the seat
     * is FAILED, whatever its hold, and one `payment.failed` speaks of one of them.
     */
    method MarkFailedBySeatId(seat: Uuid, eventId: Uuid) returns (ok: bool, first: Uuid)
      modifies this`intents, this`outbox
      ensures ok == (PendingBySeat(old(Tables()), seat) != {}) && (ok ==> first in PendingBySeat(old(Tables()), seat))
      ensures Tables() == Settle(old(Tables()), PendingBySeat(old(Tables()), seat), first,
              Verdict.Fail(SeatReleasedReason), eventId, true)
      ensures intents.Keys == old(intents).Keys && (!ok ==> Tables() == old(Tables()))
      ensures forall x | x in old(intents) ::
                intents[x] == if old(intents)[x].status == PENDING && old(intents)[x].seat == seat
                              then old(intents)[x].(status := FAILED) else old(intents)[x]
      ensures ok ==>
                var i := old(intents)[first];
                outbox
                == old(outbox) + [PaymentFailed(eventId, first, i.seat, i.user, i.hold, SeatReleasedReason, true)]
    {
      ok, first := SettleRows(PendingBySeat(Tables(), seat), Verdict.Fail(SeatReleasedReason), eventId, true);
    }

    /** `insertWebhookInbox`: a repeated provider event is recognised and dropped. */
    method InsertWebhookInbox(event: string, kind: HookKind, psp: string) returns (inserted: bool)
      modifies this`inbox
      ensures inserted == (event !in old(inbox))
      ensures inbox == if inserted then old(inbox)[event := InboxRow(kind, psp, false)] else old(inbox)
    {
      if event in inbox {
        return false;
      }
      inbox := inbox[event := InboxRow(kind, psp, false)];
      return true;
    }

    /** What a provider event of this kind does to the intents. */
    method ApplyEffect(kind: HookKind, psp: string, eventId: Uuid, traceOk: bool) returns (first: Uuid)
      modifies this`intents, this`outbox
      ensures kind != HookOther && PendingByPsp(old(Tables()), psp) != {} ==> first in PendingByPsp(old(Tables()), psp)
      ensures Tables() == Effect(old(Tables()), kind, psp, first, eventId, traceOk)
      ensures Verdicts(old(Tables()), Tables(), kind, psp) && inbox == old(inbox)
    {
      first := 0;
      match kind {
        case HookSucceeded =>
          var _, f := MarkCompleted(psp, eventId, traceOk);
          first := f;
        case HookFailed =>
          var _, f := MarkFailed(psp, eventId, traceOk);
          first := f;
        case HookOther =>
      }
    }

    /** `processEvent`: the effect of the event's kind, then the processed mark. */
    method ProcessEvent(event: string, kind: HookKind, psp: string, eventId: Uuid, traceOk: bool) returns (first: Uuid)
      modifies this`intents, this`outbox, this`inbox
      ensures kind != HookOther && PendingByPsp(old(Tables()), psp) != {} ==> first in PendingByPsp(old(Tables()), psp)
      ensures Tables() == MarkProcessed(Effect(old(Tables()), kind, psp, first, eventId, traceOk), event)
      ensures Verdicts(old(Tables()), Tables(), kind, psp)
      ensures inbox.Keys == old(inbox).Keys
              && forall e | e in inbox ::
                   inbox[e] == if e == event then old(inbox)[e].(processed := true) else old(inbox)[e]
    {
      first := ApplyEffect(kind, psp, eventId, traceOk);
      if event in inbox {
        inbox := inbox[event := inbox[event].(processed := true)];
      }
    }

    /**
     * `webhook` from the inbox insert on, for an event whose signature and age were accepted. A
     * repeated event changes nothing; a new one is acknowledged, other requests run, and then
     * it settles what is pending by then, so every intent stored by the time it arrived.
     */
    method Webhook(event: string, kind: HookKind, psp: string, eventId: Uuid)
      returns (deduplicated: bool, ghost handledAt: Db)
      requires RowsFit(Tables())
      modifies this
      ensures deduplicated == (event in old(inbox))
      ensures deduplicated ==> Tables() == old(Tables())
      ensures !deduplicated ==>
                && event in inbox && inbox[event] == InboxRow(kind, psp, true) && Grows(old(Tables()), Tables())
                && Settled(old(Tables()), Tables(), event)
                && Grows(old(Tables()), handledAt) && Verdicts(handledAt, Tables(), kind, psp)
    {
      handledAt := Tables();
      var inserted := InsertWebhookInbox(event, kind, psp);
      if !inserted {
        return true, handledAt;
      }
      ghost var before, received := old(Tables()), Tables();
      handledAt := HandleLater(event, kind, psp, eventId);
      GrowsTransitive(before, received, handledAt);
      GrowsTransitive(before, received, Tables());
      SettledSince(before, received, Tables(), event);
      return false, handledAt;
    }

    /** The deferred part of `webhook`: other requests run first. */
    method HandleLater(event: string, kind: HookKind, psp: string, eventId: Uuid) returns (ghost handledAt: Db)
      requires RowsFit(Tables()) && event in inbox && inbox[event] == InboxRow(kind, psp, false)
      modifies this
      ensures event in inbox && inbox[event] == InboxRow(kind, psp, true)
      ensures Grows(old(Tables()), handledAt) && Verdicts(handledAt, Tables(), kind, psp)
      ensures Grows(old(Tables()), Tables()) && Settled(old(Tables()), Tables(), event)
    {
      ghost var received := Tables();
      Elsewhere();
      handledAt := Tables();
      var first := ProcessEvent(event, kind, psp, eventId, true);
      HandledSettles(handledAt, event, kind, psp, first, eventId);
      GrowsTransitive(received, handledAt, Tables());
      SettledSince(received, handledAt, Tables(), event);
    }

    /**
     * The reprocessor's `tick`, undisturbed. A row whose handling throws is logged and left for
     * a later tick, and the loop goes on: exactly the rows handled without a fault stop being
     * unprocessed, every row whose effect was reached has had it, each pending intent gets the
     * verdict of the first such row about it, and every event emitted is unreadable downstream
     * because its trace id is not a UUID.
     */
    method ReprocessTick(rows: seq<string>, eventIds: seq<Uuid>, faults: seq<Fault>)
      requires TakesBatch(Tables(), rows) && |eventIds| == |faults| == |rows|
      modifies this`intents, this`outbox, this`inbox, this`reprocessing
      ensures old(reprocessing) ==> Tables() == old(Tables())
      ensures !old(reprocessing) ==> Progress(old(Tables()), Tables(), rows, faults, |rows|)
                                     && Told(old(Tables()), Tables(), rows, faults, |rows|)
      ensures reprocessing == old(reprocessing)
    {
      if reprocessing {
        return;
      }
      reprocessing := true;
      ghost var before := Tables();
      for i := 0 to |rows|
        invariant Progress(before, Tables(), rows, faults, i) && Told(before, Tables(), rows, faults, i)
        invariant reprocessing
      {
        ghost var was := Tables();
        NextRow(Unprocessed(before), Unprocessed(was), rows, faults, i);
        Reprocess(rows[i], eventIds[i], faults[i]);
        ProgressMade(before, was, Tables(), rows, faults, i);
        ToldMore(before, was, Tables(), rows, faults, i);
      }
      reprocessing := false;
    }

    /** `reprocess`, up to the statement that throws. */
    method Reprocess(event: string, eventId: Uuid, fault: Fault)
      requires event in Unprocessed(Tables())
      modifies this`intents, this`outbox, this`inbox
      ensures Reprocessed(old(Tables()), Tables(), event, fault)
      ensures if fault == EffectThrows then Tables() == old(Tables())
              else Verdicts(old(Tables()), Tables(), old(inbox)[event].kind, old(inbox)[event].psp)
    {
      if fault == EffectThrows {
        return;
      }
      var row := inbox[event];
      ghost var was := Tables();
      var first := ApplyEffect(row.kind, row.psp, eventId, false);
      EffectSettles(was, event, first, eventId);
      if fault == NoFault {
        inbox := inbox[event := row.(processed := true)];
      }
    }

    /** Other requests and workers of the service run here; all a checkout may rely on is what they all keep. */
    method Elsewhere()
      requires RowsFit(Tables())
      modifies this
      ensures RowsFit(Tables()) && Grows(old(Tables()), Tables())
    {
    }

    /**
     * `createIntent`: the unique key decides which of two racing inserts wins. Unless the id
     * itself was taken, the key has a row afterwards, and it keeps having only one.
     */
    method CreateIntent(id: Uuid, intent: Intent) returns (ok: bool)
      modifies this`intents
      ensures ok == (id !in old(intents) && !KeyTaken(old(Tables()), intent.key))
      ensures intents == if ok then old(intents)[id := intent] else old(intents)
      ensures id !in old(intents) ==> KeyTaken(Tables(), intent.key)
      ensures RowsFit(old(Tables())) && IntentFits(old(Tables()), intent) ==> RowsFit(Tables())
    {
      if id in intents || exists x :: x in intents && intents[x].key == intent.key {
        return false;
      }
      intents := intents[id := intent];
      assert intents[id].key == intent.key;
      return true;
    }

    /** `findByIdempotencyKey`. */
    method FindByIdempotencyKey(key: string) returns (row: Option<Uuid>)
      ensures row.Some? <==> KeyTaken(Tables(), key)
      ensures row.Some? ==> row.value in intents && intents[row.value].key == key
    {
      if exists x :: x in intents && intents[x].key == key {
        var x :| x in intents && intents[x].key == key;
        return Some(x);
      }
      return None;
    }

    /** The insert and, when it conflicts, the second look: the tail of `checkout`. */
    method InsertOrRefetch(id: Uuid, intent: Intent) returns (result: CheckoutResult)
      requires RowsFit(Tables())
      requires IntentFits(Tables(), intent)
      modifies this
      ensures RowsFit(Tables()) && Grows(old(Tables()), Tables())
      ensures result.Replied? ==> result.reply.key == intent.key && ReplyInv(Tables(), result.reply)
      ensures result.Replied? && !result.reply.idempotent ==>
                !KeyTaken(old(Tables()), intent.key) && result.reply.intent == id && intents[id] == intent
      ensures KeyTaken(old(Tables()), intent.key) ==> result.Replied? && result.reply.idempotent
      ensures id !in old(intents) && !KeyTaken(old(Tables()), intent.key) ==>
                result == Replied(Reply(intent.key, id, intent.secret, intent.amount, intent.currency, false))
      ensures !result.Replied? ==> result == InsertFailed && id in old(intents)
    {
      var ok := CreateIntent(id, intent);
      if ok {
        return Replied(Reply(intent.key, id, intent.secret, intent.amount, intent.currency, false));
      }
      Elsewhere();
      var existing := FindByIdempotencyKey(intent.key);
      if existing.None? {
        return InsertFailed;
      }
      var i := intents[existing.value];
      return Replied(Reply(i.key, existing.value, i.secret, i.amount, i.currency, true));
    }

    /**
     * `checkout`, interrupted at every await. Whatever happened meanwhile, a reply repeats the
     * one row stored under the key at the price of its seat, and claims to have created it
     * only if nobody had before; an insert fails without a reply only on a reused row id.
     */
    method Checkout(key: string, seat: Uuid, hold: Uuid, user: Uuid, pspOk: bool, rand: string, newId: Uuid)
      returns (result: CheckoutResult)
      requires RowsFit(Tables())
      modifies this
      ensures RowsFit(Tables()) && Grows(old(Tables()), Tables())
      ensures result.Replied? ==>
                && result.reply.key == key && ReplyInv(Tables(), result.reply)
                && result.reply.amount == prices[intents[result.reply.intent].seat].cents
      ensures result.Replied? && !result.reply.idempotent ==>
                && !KeyTaken(old(Tables()), key) && pspOk && result.reply.intent == newId
                && seat in prices
                && intents[newId] == Intent(seat, user, hold, prices[seat].cents, prices[seat].currency,
                                            "pi_mock_" + key, key, "pi_mock_" + key + "_secret_" + rand, PENDING)
      ensures KeyTaken(old(Tables()), key) ==> result.Replied? && result.reply.idempotent
      ensures result.SeatPriceUnknown? ==> seat !in prices
      ensures result.PspUnavailable? ==> !pspOk
      ensures result.InsertFailed? ==> newId in intents
    {
      var existing := FindByIdempotencyKey(key);
      if existing.Some? {
        var i := intents[existing.value];
        return Replied(Reply(i.key, existing.value, i.secret, i.amount, i.currency, true));
      }
      Elsewhere();
      if seat !in prices {
        return SeatPriceUnknown;
      }
      var price := prices[seat];
      Elsewhere();
      if !pspOk {
        return PspUnavailable;
      }
      var secret := PspId(key) + "_secret_" + rand;
      var intent := Intent(seat, user, hold, price.cents, price.currency, PspId(key), key, secret, PENDING);
      result := InsertOrRefetch(newId, intent);
    }
  }

  predicate Distinct(rows: seq<string>) {
    forall i, j | 0 <= i < j < |rows| :: rows[i] != rows[j]
  }

  /** The rows among the first `i` that were handled without a fault. */
  function Marked(rows: seq<string>, faults: seq<Fault>, i: nat): set<string>
    requires i <= |rows| == |faults|
  {
    set k | 0 <= k < i && faults[k] == NoFault :: rows[k]
  }

  /** The first `i` rows of the batch have been gone through, and nothing else. */
  predicate Progress(before: Db, db: Db, rows: seq<string>, faults: seq<Fault>, i: nat)
    requires i <= |rows| == |faults|
  {
    && Grows(before, db) && Unreadable(before, db)
    && Left(Unprocessed(before), Unprocessed(db), rows, faults, i)
    && (forall k | 0 <= k < i && faults[k] != EffectThrows :: Settled(before, db, rows[k]))
  }

  /** Exactly the rows handled without a fault are gone; without any fault, that is one each time. */
  predicate Left(before: set<string>, left: set<string>, rows: seq<string>, faults: seq<Fault>, i: nat)
    requires i <= |rows| == |faults|
  {
    && left == before - Marked(rows, faults, i)
    && ((forall k | 0 <= k < i :: faults[k] == NoFault) ==> |left| + i == |before|)
  }

  /** The first verdict on the provider id among the first `i` rows whose effect was reached. */
  function FirstVerdict(db: Db, rows: seq<string>, faults: seq<Fault>, i: nat, psp: string): HookKind
    requires i <= |rows| == |faults| && forall k | 0 <= k < |rows| :: rows[k] in db.inbox
  {
    if i == 0 then HookOther
    else
      var earlier, row := FirstVerdict(db, rows, faults, i - 1, psp), db.inbox[rows[i - 1]];
      if earlier != HookOther then earlier
      else if faults[i - 1] != EffectThrows && row.psp == psp then row.kind else HookOther
  }

  /** Each intent has got the first verdict about it, if it was pending. */
  predicate Told(before: Db, db: Db, rows: seq<string>, faults: seq<Fault>, i: nat)
    requires i <= |rows| == |faults|
  {
    && (forall k | 0 <= k < |rows| :: rows[k] in before.inbox) && db.intents.Keys == before.intents.Keys
    && forall x | x in before.intents ::
         var row := before.intents[x];
         var verdict := FirstVerdict(before, rows, faults, i, row.psp);
         db.intents[x] == if row.status != PENDING || verdict == HookOther then row
                          else row.(status := if verdict == HookSucceeded then COMPLETED else FAILED)
  }

  lemma ToldMore(before: Db, was: Db, db: Db, rows: seq<string>, faults: seq<Fault>, i: nat)
    requires i < |rows| == |faults| && Told(before, was, rows, faults, i) && Grows(before, was)
    requires rows[i] in was.inbox
             && if faults[i] == EffectThrows then db == was
                else Verdicts(was, db, was.inbox[rows[i]].kind, was.inbox[rows[i]].psp)
    ensures Told(before, db, rows, faults, i + 1)
  {
    assert was.inbox[rows[i]].kind == before.inbox[rows[i]].kind && was.inbox[rows[i]].psp == before.inbox[rows[i]].psp;
  }

  /** No event appended since can be read downstream. */
  predicate Unreadable(before: Db, db: Db) {
    forall k | |before.outbox| <= k < |db.outbox| :: !db.outbox[k].traceOk
  }

  lemma NextRow(before: set<string>, was: set<string>, rows: seq<string>, faults: seq<Fault>, i: nat)
    requires i < |rows| == |faults| && Distinct(rows) && rows[i] in before && Left(before, was, rows, faults, i)
    ensures rows[i] in was
  {
  }

  /** Every intent the event speaks of that existed before has left PENDING. */
  predicate Settled(before: Db, db: Db, e: string) {
    && e in db.inbox
    && (db.inbox[e].kind != HookOther ==>
          forall x | x in before.intents && before.intents[x].psp == db.inbox[e].psp ::
            x in db.intents && db.intents[x].status != PENDING)
  }

  /** What going through one row does. */
  predicate Reprocessed(was: Db, db: Db, e: string, fault: Fault) {
    && Grows(was, db)
    && Unprocessed(db) == Unprocessed(was) - (if fault == NoFault then {e} else {})
    && (fault != EffectThrows ==> Settled(was, db, e)) && Unreadable(was, db)
  }

  lemma EffectSettles(was: Db, e: string, first: Uuid, eventId: Uuid)
    requires e in Unprocessed(was)
    requires var row := was.inbox[e];
             row.kind != HookOther && PendingByPsp(was, row.psp) != {} ==> first in PendingByPsp(was, row.psp)
    ensures var db := Effect(was, was.inbox[e].kind, was.inbox[e].psp, first, eventId, false);
            db.inbox == was.inbox && Grows(was, db) && Settled(was, db, e) && Unreadable(was, db)
  {
    var row := was.inbox[e];
    var done := Effect(was, row.kind, row.psp, first, eventId, false);
    if row.kind != HookOther {
      SettleGrows(was, PendingByPsp(was, row.psp), first,
                  if row.kind == HookSucceeded then Succeed else Verdict.Fail(DeclinedReason), eventId, false);
      forall x | x in was.intents && was.intents[x].psp == row.psp ensures done.intents[x].status != PENDING {
        assert x in PendingByPsp(was, row.psp) <==> was.intents[x].status == PENDING;
      }
    }
    assert done.inbox == was.inbox;
  }

  lemma ProgressMade(before: Db, was: Db, db: Db, rows: seq<string>, faults: seq<Fault>, i: nat)
    requires i < |rows| == |faults| && Progress(before, was, rows, faults, i) && rows[i] in Unprocessed(was)
    requires Reprocessed(was, db, rows[i], faults[i])
    ensures Progress(before, db, rows, faults, i + 1)
  {
    GrowsTransitive(before, was, db);
    SettledMore(before, was, db, rows, faults, i);
    LeftAfter(Unprocessed(before), Unprocessed(was), Unprocessed(db), rows, faults, i);
    StillUnreadable(before, was, db);
  }

  lemma StillUnreadable(before: Db, was: Db, db: Db)
    requires Unreadable(before, was) && Unreadable(was, db) && before.outbox <= was.outbox <= db.outbox
    ensures Unreadable(before, db)
  {
    assert forall k | |before.outbox| <= k < |was.outbox| :: db.outbox[k] == was.outbox[k];
  }

  lemma LeftAfter(before: set<string>, was: set<string>, left: set<string>, rows: seq<string>, faults: seq<Fault>,
                  i: nat)
    requires i < |rows| == |faults| && rows[i] in was && Left(before, was, rows, faults, i)
    requires left == was - if faults[i] == NoFault then {rows[i]} else {}
    ensures Left(before, left, rows, faults, i + 1)
  {
    assert Marked(rows, faults, i + 1) == Marked(rows, faults, i) + if faults[i] == NoFault then {rows[i]} else {};
  }

  lemma SettledMore(before: Db, was: Db, db: Db, rows: seq<string>, faults: seq<Fault>, i: nat)
    requires i < |rows| == |faults| && Grows(before, was) && Grows(was, db)
    requires faults[i] != EffectThrows ==> Settled(was, db, rows[i])
    requires forall k | 0 <= k < i && faults[k] != EffectThrows :: Settled(before, was, rows[k])
    ensures forall k | 0 <= k < i + 1 && faults[k] != EffectThrows :: Settled(before, db, rows[k])
  {
    forall k | 0 <= k <= i && faults[k] != EffectThrows ensures Settled(before, db, rows[k]) {
      if k < i { SettledKept(before, was, db, rows[k]); } else { SettledSince(before, was, db, rows[i]); }
    }
  }

  lemma HandledSettles(was: Db, e: string, kind: HookKind, psp: string, first: Uuid, eventId: Uuid)
    requires e in was.inbox && was.inbox[e].kind == kind && was.inbox[e].psp == psp
    requires kind != HookOther && PendingByPsp(was, psp) != {} ==> first in PendingByPsp(was, psp)
    ensures var db := MarkProcessed(Effect(was, kind, psp, first, eventId, true), e);
            Grows(was, db) && Settled(was, db, e) && e in db.inbox && db.inbox[e] == was.inbox[e].(processed := true)
  {
    var done := Effect(was, kind, psp, first, eventId, true);
    if kind != HookOther {
      var v := if kind == HookSucceeded then Succeed else Verdict.Fail(DeclinedReason);
      SettleGrows(was, PendingByPsp(was, psp), first, v, eventId, true);
      forall x | x in was.intents && was.intents[x].psp == psp ensures done.intents[x].status != PENDING {
        assert x in PendingByPsp(was, psp) <==> was.intents[x].status == PENDING;
      }
    }
    assert done.inbox == was.inbox;
  }

  lemma SettledKept(before: Db, was: Db, db: Db, e: string)
    requires Settled(before, was, e) && Grows(was, db)
    ensures Settled(before, db, e)
  {
  }

  lemma SettledSince(before: Db, was: Db, db: Db, e: string)
    requires Grows(before, was) && Settled(was, db, e)
    ensures Settled(before, db, e)
  {
  }

  /** What the reprocessor's SELECT may return: min(50, n) of the n unprocessed events. */
  predicate TakesBatch(db: Db, rows: seq<string>) {
    && (forall i | 0 <= i < |rows| :: rows[i] in Unprocessed(db))
    && Distinct(rows)
    && |rows| == if |Unprocessed(db)| < BATCH then |Unprocessed(db)| else BATCH
  }

  /** One undisturbed tick in which nothing throws. */
  predicate Ticked(before: Db, db: Db, rows: seq<string>, faults: seq<Fault>) {
    && TakesBatch(before, rows) && |faults| == |rows| && (forall k | 0 <= k < |faults| :: faults[k] == NoFault)
    && Progress(before, db, rows, faults, |rows|)
  }

  predicate SettledOrLeft(before: Db, db: Db, e: string) {
    e in Unprocessed(db) || Settled(before, db, e)
  }

  lemma TickSettles(before: Db, was: Db, db: Db, rows: seq<string>, faults: seq<Fault>, e: string)
    requires Grows(before, was) && SettledOrLeft(before, was, e) && Ticked(was, db, rows, faults)
    ensures SettledOrLeft(before, db, e)
  {
    if Settled(before, was, e) {
      SettledKept(before, was, db, e);
    } else if e !in Unprocessed(db) {
      var k :| 0 <= k < |rows| && rows[k] == e;
      SettledSince(before, was, db, rows[k]);
    }
  }

  /**
   * The backlog drains: `k` ticks in a row leave n - 50 * k of n events, and once nothing is
   * left, which takes ceil(n / 50) ticks, every one of them has had its effect.
   */
  lemma {:induction false} TicksDrain(dbs: seq<Db>, batches: seq<seq<string>>, faults: seq<seq<Fault>>, k: nat)
    requires |dbs| == |batches| + 1 && |faults| == |batches| && k <= |batches|
    requires forall i | 0 <= i < |batches| :: Ticked(dbs[i], dbs[i + 1], batches[i], faults[i])
    ensures var n := |Unprocessed(dbs[0])|; |Unprocessed(dbs[k])| == if n <= k * 50 then 0 else n - k * 50
    ensures Grows(dbs[0], dbs[k])
    ensures forall e | e in Unprocessed(dbs[0]) :: SettledOrLeft(dbs[0], dbs[k], e)
    ensures k == (|Unprocessed(dbs[0])| + 49) / 50 ==>
              Unprocessed(dbs[k]) == {} && forall e | e in Unprocessed(dbs[0]) :: Settled(dbs[0], dbs[k], e)
  {
    if k > 0 {
      TicksDrain(dbs, batches, faults, k - 1);
      OneTickMore(dbs[0], dbs[k - 1], dbs[k], batches[k - 1], faults[k - 1]);
    }
  }

  /** One more tick takes min(50, n) of what is left, and settles what it takes. */
  lemma OneTickMore(before: Db, was: Db, db: Db, rows: seq<string>, faults: seq<Fault>)
    requires Ticked(was, db, rows, faults) && Grows(before, was)
    requires forall e | e in Unprocessed(before) :: SettledOrLeft(before, was, e)
    ensures Grows(before, db) && forall e | e in Unprocessed(before) :: SettledOrLeft(before, db, e)
    ensures |Unprocessed(db)| + (if |Unprocessed(was)| < BATCH then |Unprocessed(was)| else BATCH) == |Unprocessed(was)|
  {
    GrowsTransitive(before, was, db);
    forall e | e in Unprocessed(before) ensures SettledOrLeft(before, db, e) {
      TickSettles(before, was, db, rows, faults, e);
    }
  }
}

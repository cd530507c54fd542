/**
 * The payment service as a labelled transition system. Checkouts and webhook tasks live in
 * memory between database statements, so any number of them interleave; a crash drops any
 * of them. Runs grow at the end, which lets a theorem speak of the moment a step was taken.
 */
module PayService {
  import opened Base
  import opened Events
  import opened PayDb

  /** Whose task it is: the deferred handler's, or that of a replica's reprocessor. */
  datatype Source = Handler | Reprocessor(replica: nat)

  /**
   * An in-memory webhook task: the deferred handler, or one row of a reprocessor's batch. A
   * reprocessor has no event twice in memory: a batch has no row twice, and while a tick runs,
   * or hangs, the next ones return at once.
   */
  datatype Hook = Hook(event: string, kind: HookKind, psp: string, effected: bool, source: Source)

  datatype Stage =
    | Began
    | Missed                                  // no intent under the key yet
    | Priced(price: Price)
    | Authorized(price: Price, secret: string)
    | Conflicted                              // the insert hit the unique key

  datatype Checkout = Checkout(key: string, seat: Uuid, hold: Uuid, user: Uuid, stage: Stage)

  datatype Reply = Reply(key: string, intent: Uuid, secret: string, amount: nat, currency: string, idempotent: bool)

  datatype State = State(db: Db, hooks: map<nat, Hook>, checkouts: map<nat, Checkout>, replies: seq<Reply>)

  datatype Op =
    | Receive(event: string, kind: HookKind, psp: string, task: nat)
    | Reread(event: string, task: nat, replica: nat)
    | Effected(task: nat, first: Uuid, eventId: Uuid)
    | Mark(task: nat)
    | CancelSeat(seat: Uuid, first: Uuid, eventId: Uuid)
    | Begin(checkout: nat, key: string, seat: Uuid, hold: Uuid, user: Uuid)
    | Lookup(checkout: nat)
    | ReadPrice(checkout: nat)
    | CallPsp(checkout: nat, ok: bool, rand: string)
    | InsertIntent(checkout: nat, intent: Uuid)
    | Refetch(checkout: nat)
    | Crash(lostHooks: set<nat>, lostCheckouts: set<nat>)

  predicate Enabled(s: State, op: Op) {
    match op
    case Receive(_, _, _, task) => task !in s.hooks
    case Reread(event, task, replica) =>
      && event in s.db.inbox && !s.db.inbox[event].processed && task !in s.hooks
      && forall t | t in s.hooks :: s.hooks[t].event == event ==> s.hooks[t].source != Reprocessor(replica)
    case Effected(task, first, eventId) =>
      && task in s.hooks && !s.hooks[task].effected && FreshEvent(s.db, eventId)
      && (PendingByPsp(s.db, s.hooks[task].psp) != {} ==> first in PendingByPsp(s.db, s.hooks[task].psp))
    case Mark(task) => task in s.hooks && s.hooks[task].effected
    case CancelSeat(seat, first, eventId) =>
      && FreshEvent(s.db, eventId)
      && (PendingBySeat(s.db, seat) != {} ==> first in PendingBySeat(s.db, seat))
    case Begin(c, _, _, _, _) => c !in s.checkouts
    case Lookup(c) => c in s.checkouts && s.checkouts[c].stage == Began
    case ReadPrice(c) => c in s.checkouts && s.checkouts[c].stage == Missed
    case CallPsp(c, _, _) => c in s.checkouts && s.checkouts[c].stage.Priced?
    case InsertIntent(c, x) => c in s.checkouts && s.checkouts[c].stage.Authorized? && x !in s.db.intents
    case Refetch(c) => c in s.checkouts && s.checkouts[c].stage == Conflicted
    case Crash(_, _) => true
  }

  function Advance(s: State, c: nat, stage: Stage): State
    requires c in s.checkouts
  {
    s.(checkouts := s.checkouts[c := s.checkouts[c].(stage := stage)])
  }

  function Fail(s: State, c: nat): State {
    s.(checkouts := s.checkouts - {c})
  }

  function ReplyWith(s: State, c: nat, x: Uuid, idempotent: bool): State
    requires x in s.db.intents
  {
    var i := s.db.intents[x];
    s.(checkouts := s.checkouts - {c},
       replies := s.replies + [Reply(i.key, x, i.secret, i.amount, i.currency, idempotent)])
  }

  ghost function RowOf(db: Db, key: string): Uuid
    requires KeyTaken(db, key)
    ensures RowOf(db, key) in db.intents && db.intents[RowOf(db, key)].key == key
  {
    var x :| x in db.intents && db.intents[x].key == key;
    x
  }

  function NewIntent(co: Checkout): Intent
    requires co.stage.Authorized?
  {
    Intent(co.seat, co.user, co.hold, co.stage.price.cents, co.stage.price.currency,
           PspId(co.key), co.key, co.stage.secret, PENDING)
  }

  ghost function Next(s: State, op: Op): State
    requires Enabled(s, op)
  {
    match op
    case Receive(event, kind, psp, task) =>
      if event in s.db.inbox then s
      else s.(db := s.db.(inbox := s.db.inbox[event := InboxRow(kind, psp, false)]),
              hooks := s.hooks[task := Hook(event, kind, psp, false, Handler)])
    case Reread(event, task, replica) =>
      var row := s.db.inbox[event];
      s.(hooks := s.hooks[task := Hook(event, row.kind, row.psp, false, Reprocessor(replica))])
    case Effected(task, first, eventId) =>
      var h := s.hooks[task];
      s.(db := Effect(s.db, h.kind, h.psp, first, eventId, h.source.Handler?),
         hooks := s.hooks[task := h.(effected := true)])
    case Mark(task) => s.(db := MarkProcessed(s.db, s.hooks[task].event), hooks := s.hooks - {task})
    case CancelSeat(seat, first, eventId) =>
      s.(db := Settle(s.db, PendingBySeat(s.db, seat), first, Verdict.Fail(SeatReleasedReason), eventId, true))
    case Begin(c, key, seat, hold, user) => s.(checkouts := s.checkouts[c := Checkout(key, seat, hold, user, Began)])
    case Lookup(c) =>
      var key := s.checkouts[c].key;
      if KeyTaken(s.db, key) then ReplyWith(s, c, RowOf(s.db, key), true) else Advance(s, c, Missed)
    case ReadPrice(c) =>
      var seat := s.checkouts[c].seat;
      if seat in s.db.prices then Advance(s, c, Priced(s.db.prices[seat])) else Fail(s, c)
    case CallPsp(c, ok, rand) =>
      var co := s.checkouts[c];
      if ok then Advance(s, c, Authorized(co.stage.price, PspId(co.key) + "_secret_" + rand)) else Fail(s, c)
    case InsertIntent(c, x) =>
      var co := s.checkouts[c];
      if KeyTaken(s.db, co.key) then Advance(s, c, Conflicted)
      else ReplyWith(s.(db := s.db.(intents := s.db.intents[x := NewIntent(co)])), c, x, false)
    case Refetch(c) =>
      var key := s.checkouts[c].key;
      if KeyTaken(s.db, key) then ReplyWith(s, c, RowOf(s.db, key), true) else Fail(s, c)
    case Crash(lostHooks, lostCheckouts) =>
      s.(hooks := s.hooks - lostHooks, checkouts := s.checkouts - lostCheckouts)
  }

  // ---- What every interleaving keeps ----

  predicate CheckoutInv(db: Db, co: Checkout) {
    (co.stage.Priced? || co.stage.Authorized?) ==> co.seat in db.prices && co.stage.price == db.prices[co.seat]
  }

  predicate ReplyInv(db: Db, r: Reply) {
    && r.intent in db.intents
    && var i := db.intents[r.intent];
       r.key == i.key && r.secret == i.secret && r.amount == i.amount && r.currency == i.currency
  }

  predicate HookInv(db: Db, h: Hook) {
    && h.event in db.inbox && db.inbox[h.event].kind == h.kind && db.inbox[h.event].psp == h.psp
  }

  /** Every reply repeats a stored intent; of one key's replies at most one claims to have created it. */
  ghost predicate RepliesInv(db: Db, replies: seq<Reply>) {
    && (forall i | 0 <= i < |replies| :: ReplyInv(db, replies[i]))
    && (forall i, j | 0 <= i < j < |replies| && replies[i].key == replies[j].key ::
          replies[i].idempotent || replies[j].idempotent)
  }

  ghost predicate Inv(s: State) {
    && PayDb.Inv(s.db)
    && (forall c | c in s.checkouts :: CheckoutInv(s.db, s.checkouts[c]))
    && (forall t | t in s.hooks :: HookInv(s.db, s.hooks[t]))
    && RepliesInv(s.db, s.replies)
  }

  /** Rows are never deleted, and only `status` and `processed` are ever rewritten; no status returns to PENDING. */
  predicate Grows(a: Db, b: Db) {
    && a.prices == b.prices && a.outbox <= b.outbox
    && (forall x | x in a.intents :: x in b.intents && b.intents[x] == a.intents[x].(status := b.intents[x].status)
          && (a.intents[x].status != PENDING ==> b.intents[x] == a.intents[x]))
    && (forall e | e in a.inbox :: e in b.inbox && b.inbox[e] == a.inbox[e].(processed := b.inbox[e].processed)
          && (a.inbox[e].processed ==> b.inbox[e].processed))
  }

  lemma GrowsTransitive(a: Db, b: Db, c: Db)
    requires Grows(a, b) && Grows(b, c)
    ensures Grows(a, c)
  {
  }

  lemma SettleGrows(db: Db, rows: set<Uuid>, first: Uuid, v: Verdict, eventId: Uuid, traceOk: bool)
    requires rows <= db.intents.Keys && forall x | x in rows :: Pending(db, x)
    requires rows != {} ==> first in rows
    ensures Grows(db, Settle(db, rows, first, v, eventId, traceOk))
  {
  }

  lemma EffectGrows(db: Db, h: Hook, first: Uuid, eventId: Uuid)
    requires h.kind != HookOther && PendingByPsp(db, h.psp) != {} ==> first in PendingByPsp(db, h.psp)
    ensures Grows(db, Effect(db, h.kind, h.psp, first, eventId, h.source.Handler?))
  {
    if h.kind != HookOther {
      var v := if h.kind == HookSucceeded then Succeed else Verdict.Fail(DeclinedReason);
      SettleGrows(db, PendingByPsp(db, h.psp), first, v, eventId, h.source.Handler?);
    }
  }

  lemma NextGrows(s: State, op: Op)
    requires Enabled(s, op)
    ensures Grows(s.db, Next(s, op).db)
  {
    match op
    case Effected(task, first, eventId) => EffectGrows(s.db, s.hooks[task], first, eventId);
    case CancelSeat(seat, first, eventId) =>
      SettleGrows(s.db, PendingBySeat(s.db, seat), first, Verdict.Fail(SeatReleasedReason), eventId, true);
    case Receive(_, _, _, _) =>
    case Reread(_, _, _) =>
    case Mark(_) =>
    case Begin(_, _, _, _, _) =>
    case Lookup(_) =>
    case ReadPrice(_) =>
    case CallPsp(_, _, _) =>
    case InsertIntent(_, _) =>
    case Refetch(_) =>
    case Crash(_, _) =>
  }

  lemma NextKeepsDb(s: State, op: Op)
    requires Inv(s) && Enabled(s, op)
    ensures PayDb.Inv(Next(s, op).db)
  {
    match op
    case Effected(task, first, eventId) =>
      EffectKeepsInv(s.db, s.hooks[task].kind, s.hooks[task].psp, first, eventId, s.hooks[task].source.Handler?);
    case CancelSeat(seat, first, eventId) =>
      SettleKeepsInv(s.db, PendingBySeat(s.db, seat), first, Verdict.Fail(SeatReleasedReason), eventId, true);
    case InsertIntent(c, x) =>
      var co := s.checkouts[c];
      assert CheckoutInv(s.db, co);
      if !KeyTaken(s.db, co.key) { CreateKeepsInv(s.db, x, NewIntent(co)); }
    case Receive(_, _, _, _) =>
    case Reread(_, _, _) =>
    case Mark(_) =>
    case Begin(_, _, _, _, _) =>
    case Lookup(_) =>
    case ReadPrice(_) =>
    case CallPsp(_, _, _) =>
    case Refetch(_) =>
    case Crash(_, _) =>
  }

  /** A reply repeats a stored row, and only the reply that stored it says so. */
  lemma NewReply(s: State, op: Op)
    requires Inv(s) && Enabled(s, op)
    ensures var s' := Next(s, op);
            && (s'.replies == s.replies
                || (|s'.replies| == |s.replies| + 1 && s.replies <= s'.replies
                    && var r := s'.replies[|s.replies|];
                       ReplyInv(s'.db, r) && (!r.idempotent ==> !KeyTaken(s.db, r.key))))
  {
  }

  lemma RepliesGrow(db: Db, replies: seq<Reply>, db': Db, replies': seq<Reply>)
    requires RepliesInv(db, replies) && Grows(db, db')
    requires replies' == replies || (|replies'| == |replies| + 1 && replies <= replies'
              && ReplyInv(db', replies'[|replies|])
              && (!replies'[|replies|].idempotent ==> !KeyTaken(db, replies'[|replies|].key)))
    ensures RepliesInv(db', replies')
  {
    forall i | 0 <= i < |replies| ensures ReplyInv(db', replies'[i]) && KeyTaken(db, replies'[i].key) {
      assert replies'[i] == replies[i] && ReplyInv(db, replies[i]);
      assert db.intents[replies[i].intent].key == replies[i].key;
    }
  }

  lemma CheckoutsKept(s: State, op: Op, c: nat)
    requires (c in s.checkouts ==> CheckoutInv(s.db, s.checkouts[c])) && Enabled(s, op)
    requires Grows(s.db, Next(s, op).db) && c in Next(s, op).checkouts
    ensures CheckoutInv(Next(s, op).db, Next(s, op).checkouts[c])
  {
  }

  lemma HooksKept(s: State, op: Op, t: nat)
    requires (t in s.hooks ==> HookInv(s.db, s.hooks[t])) && Enabled(s, op)
    requires Grows(s.db, Next(s, op).db) && t in Next(s, op).hooks
    ensures HookInv(Next(s, op).db, Next(s, op).hooks[t])
  {
  }

  lemma NextKeepsInv(s: State, op: Op)
    requires Inv(s) && Enabled(s, op)
    ensures Inv(Next(s, op)) && Grows(s.db, Next(s, op).db)
  {
    NextGrows(s, op);
    NextKeepsDb(s, op);
    NewReply(s, op);
    RepliesGrow(s.db, s.replies, Next(s, op).db, Next(s, op).replies);
    forall c | c in Next(s, op).checkouts { CheckoutsKept(s, op, c); }
    forall t | t in Next(s, op).hooks { HooksKept(s, op, t); }
  }
}

/**
 * The compensation loop ends. `payment.failed` releases a hold, `seat.released` cancels
 * intents, and each tells the other again; a weighted sum of what is still undecided falls
 * with every step the two services take on their own.
 */
module SagaTermination {
  import opened Base
  import opened Events
  import SD = SeatDb
  import SL = SeatLedger
  import SR = SeatRaces
  import PD = PayDb
  import PS = PayService
  import PT = PayTheorems
  import OB = Outbox
  import OR = OutboxRetries
  import RT = RelayTermination
  import opened Saga
  import opened SagaTheorems
  import SN = SagaRuns

  // ---- What the services do on their own ----

  /** The payment service's own work, apart from what the relay and the queues do. */
  predicate OwnWork(work: PS.Op, replicas: nat) {
    !work.Receive? && !work.Begin? && !work.CancelSeat? && !work.Crash? && (work.Reread? ==> work.replica < replicas)
  }

  /**
   * Steps no user, provider or operator has to ask for, no crash and no redelivery: the timers,
   * consumers and tasks of this many replicas, recovery and rereading of what another replica
   * is still busy with included.
   */
  predicate Own(a: Act, replicas: nat) {
    match a
    case SeatWork(op, _) => op.OpSweep? && op.batch != []
    case PayWork(work, _) => OwnWork(work, replicas)
    case SeatRelay(step, _) => RT.ByWorkers(step, replicas)
    case PayRelay(step, _) => RT.ByWorkers(step, replicas)
    case DeliverPayment(_, _, ack) => ack
    case DeliverRelease(_, _, _, _, ack) => ack
  }

  /** Whatever is claimed or reread is in the hands of one of the replicas. */
  predicate Crewed(s: State, replicas: nat) {
    OR.Staffed(s.seatBox, replicas) && OR.Staffed(s.payBox, replicas) && ReadersBounded(s.pay.hooks, replicas)
  }

  predicate ReadersBounded(hooks: map<nat, PS.Hook>, replicas: nat) {
    forall t | t in hooks && hooks[t].source.Reprocessor? :: hooks[t].source.replica < replicas
  }

  // ---- Weights ----

  function ActiveHolds(db: SD.Db): set<Uuid> {
    set h | h in db.holds && db.holds[h].status == SD.HELD
  }

  function OpenIntents(db: PD.Db): set<Uuid> {
    set x | x in db.intents && db.intents[x].status == PD.PENDING
  }

  function Unhandled(hooks: map<nat, PS.Hook>): set<nat> {
    set t | t in hooks && !hooks[t].effected
  }

  /** The replicas whose reprocessors have the event in memory. */
  function Readers(hooks: map<nat, PS.Hook>, event: string): set<nat> {
    set t | t in hooks && hooks[t].event == event && hooks[t].source.Reprocessor? :: hooks[t].source.replica
  }

  function FreeReaders(hooks: map<nat, PS.Hook>, event: string, replicas: nat): nat {
    if |Readers(hooks, event)| <= replicas then replicas - |Readers(hooks, event)| else 0
  }

  /** How often each unprocessed event can still be reread. */
  function Unread(inbox: map<string, PD.InboxRow>, hooks: map<nat, PS.Hook>, replicas: nat): map<string, nat> {
    map e | e in inbox && !inbox[e].processed :: FreeReaders(hooks, e, replicas)
  }

  /** An active hold or pending intent can append one event, which is a new outbox row. */
  function Decision(replicas: nat): nat {
    RT.NewRow(replicas) + 1
  }

  /** A checkout can still store an intent. */
  function StageWeight(stage: PS.Stage, replicas: nat): nat {
    match stage
    case Began => Decision(replicas) + 5
    case Missed => Decision(replicas) + 4
    case Priced(_) => Decision(replicas) + 3
    case Authorized(_, _) => Decision(replicas) + 2
    case Conflicted => 1
  }

  function Stages(checkouts: map<nat, PS.Checkout>, replicas: nat): map<nat, nat> {
    map c | c in checkouts :: StageWeight(checkouts[c].stage, replicas)
  }

  ghost function SeatMeasure(db: SD.Db, box: OB.Box<SeatEvent>, replicas: nat): nat {
    Times(|ActiveHolds(db)|, Decision(replicas)) + RT.BoxWeight(box, replicas)
  }

  /** What is in memory or may be reread: each task has two steps, and rereading is one more. */
  ghost function TaskMeasure(p: PS.State, replicas: nat): nat {
    |p.hooks| + |Unhandled(p.hooks)| + 3 * Sum(Unread(p.db.inbox, p.hooks, replicas))
  }

  /** What the payment service can still do, apart from the events it can append. */
  ghost function WorkMeasure(p: PS.State, replicas: nat): nat {
    Sum(Stages(p.checkouts, replicas)) + TaskMeasure(p, replicas)
  }

  ghost function PayMeasure(p: PS.State, box: OB.Box<PayEvent>, replicas: nat): nat {
    Times(|OpenIntents(p.db)|, Decision(replicas)) + WorkMeasure(p, replicas) + RT.BoxWeight(box, replicas)
  }

  ghost function Measure(s: State, replicas: nat): nat {
    SeatMeasure(s.seat, s.seatBox, replicas) + PayMeasure(s.pay, s.payBox, replicas) + |s.toSeat| + |s.toPay|
  }

  // ---- The two databases: every appended event pays with something decided ----

  lemma PaymentPays(db: SD.Db, ev: PayEvent, now: int)
    ensures var db' := SD.HandlePayment(db, ev, now);
            && db.outbox <= db'.outbox
            && |ActiveHolds(db')| + (|db'.outbox| - |db.outbox|) == |ActiveHolds(db)|
  {
    var db' := SD.HandlePayment(db, ev, now);
    if db' == db {
    } else {
      assert ActiveHolds(db') == ActiveHolds(db) - {ev.hold};
    }
  }

  lemma {:induction false} SweepPays(db: SD.Db, batch: seq<Uuid>, now: int)
    requires SL.Constraints(db) && SD.SweepBatch(db, batch, now)
    ensures var db' := SD.Sweep(db, batch, now);
            && db.outbox <= db'.outbox && |db'.outbox| == |db.outbox| + |batch|
            && |ActiveHolds(db')| + |batch| == |ActiveHolds(db)|
  {
    if batch == [] {
      assert SD.ReleaseAll(db, batch).holds == db.holds;
      assert ActiveHolds(SD.Sweep(db, batch, now)) == ActiveHolds(db);
    } else {
      var rest, h := batch[..|batch| - 1], batch[|batch| - 1];
      SL.SweepUnfolds(db, batch, now);
      SweepPays(db, rest, now);
      SR.SweepKeepsEnded(db, rest, now);
      ReleasePays(SD.Sweep(db, rest, now), h, now);
    }
  }

  lemma ReleasePays(db: SD.Db, h: Uuid, now: int)
    requires SD.Held(db, h)
    ensures var db' := SD.ReleaseHold(db, h, SweeperReason, now);
            && db.outbox <= db'.outbox && |db'.outbox| == |db.outbox| + 1 && |ActiveHolds(db')| + 1 == |ActiveHolds(db)|
  {
    assert ActiveHolds(SD.ReleaseHold(db, h, SweeperReason, now)) == ActiveHolds(db) - {h};
  }

  lemma SettlePays(db: PD.Db, rows: set<Uuid>, first: Uuid, v: PD.Verdict, eventId: Uuid, traceOk: bool)
    requires rows <= db.intents.Keys && (forall x | x in rows :: PD.Pending(db, x)) && (rows != {} ==> first in rows)
    ensures var db' := PD.Settle(db, rows, first, v, eventId, traceOk);
            && db.outbox <= db'.outbox
            && |OpenIntents(db')| + (|db'.outbox| - |db.outbox|) <= |OpenIntents(db)|
  {
    if rows != {} {
      var db' := PD.Settle(db, rows, first, v, eventId, traceOk);
      assert OpenIntents(db') <= OpenIntents(db) - {first};
      SubsetSize(OpenIntents(db'), OpenIntents(db) - {first});
    }
  }

  lemma {:induction false} SubsetSize<T>(a: set<T>, b: set<T>)
    requires a <= b
    ensures |a| <= |b|
  {
    if a != {} {
      var x :| x in a;
      SubsetSize(a - {x}, b - {x});
    }
  }

  lemma EffectPays(p: PS.State, work: PS.Op)
    requires PS.Enabled(p, work) && work.Effected?
    ensures var p' := PS.Next(p, work);
            && p.db.outbox <= p'.db.outbox
            && |OpenIntents(p'.db)| + (|p'.db.outbox| - |p.db.outbox|) <= |OpenIntents(p.db)|
  {
    var h := p.hooks[work.task];
    var rows := PD.PendingByPsp(p.db, h.psp);
    SettlePays(p.db, rows, work.first, PD.Succeed, work.eventId, h.source.Handler?);
    SettlePays(p.db, rows, work.first, PD.Fail(DeclinedReason), work.eventId, h.source.Handler?);
  }

  // ---- Webhook tasks ----

  lemma ReadersAre(hooks: map<nat, PS.Hook>, event: string, replicas: nat)
    requires ReadersBounded(hooks, replicas)
    ensures |Readers(hooks, event)| <= replicas
  {
    OR.AtMostAll(Readers(hooks, event), replicas);
  }

  lemma SameReaders(hooks: map<nat, PS.Hook>, hooks': map<nat, PS.Hook>, event: string)
    requires forall t | t in hooks && hooks[t].event == event ::
               t in hooks' && hooks'[t].event == event && hooks'[t].source == hooks[t].source
    requires forall t | t in hooks' && hooks'[t].event == event :: t in hooks && hooks[t].event == event
    ensures Readers(hooks', event) == Readers(hooks, event)
  {
    forall r | r in Readers(hooks, event) ensures r in Readers(hooks', event) {
      var t :| t in hooks && hooks[t].event == event && hooks[t].source == PS.Reprocessor(r);
      assert hooks'[t].source == PS.Reprocessor(r);
    }
    forall r | r in Readers(hooks', event) ensures r in Readers(hooks, event) {
      var t :| t in hooks' && hooks'[t].event == event && hooks'[t].source == PS.Reprocessor(r);
      assert hooks[t].source == PS.Reprocessor(r);
    }
  }

  lemma EffectMoves(p: PS.State, work: PS.Op, replicas: nat)
    requires PS.Enabled(p, work) && work.Effected?
    ensures TaskMeasure(PS.Next(p, work), replicas) + 1 <= TaskMeasure(p, replicas)
  {
    var p' := PS.Next(p, work);
    TaskEffected(p.hooks, work.task);
    assert p'.hooks == p.hooks[work.task := p.hooks[work.task].(effected := true)];
    forall e ensures Readers(p'.hooks, e) == Readers(p.hooks, e) { SameReaders(p.hooks, p'.hooks, e); }
    assert p'.db.inbox == p.db.inbox;
    assert Unread(p'.db.inbox, p'.hooks, replicas) == Unread(p.db.inbox, p.hooks, replicas);
  }

  lemma TaskEffected(hooks: map<nat, PS.Hook>, task: nat)
    requires task in hooks && !hooks[task].effected
    ensures var hooks' := hooks[task := hooks[task].(effected := true)];
            |hooks'| == |hooks| && |Unhandled(hooks')| + 1 == |Unhandled(hooks)|
  {
    var hooks' := hooks[task := hooks[task].(effected := true)];
    assert hooks'.Keys == hooks.Keys && Unhandled(hooks') == Unhandled(hooks) - {task};
  }

  lemma MarkMoves(p: PS.State, work: PS.Op, replicas: nat)
    requires PS.Enabled(p, work) && work.Mark?
    ensures TaskMeasure(PS.Next(p, work), replicas) + 1 <= TaskMeasure(p, replicas)
  {
    var hooks, task := p.hooks, work.task;
    assert PS.Next(p, work).hooks == hooks - {task};
    assert Unhandled(hooks - {task}) == Unhandled(hooks) && |hooks - {task}| + 1 == |hooks| by {
      assert (hooks - {task}).Keys == hooks.Keys - {task};
    }
    MarkedIsRead(p.db.inbox, PS.Next(p, work).db.inbox, hooks, task, replicas);
  }

  lemma MarkedIsRead(inbox: map<string, PD.InboxRow>, inbox': map<string, PD.InboxRow>, hooks: map<nat, PS.Hook>,
                     task: nat, replicas: nat)
    requires task in hooks
    requires var e := hooks[task].event;
             inbox' == if e in inbox then inbox[e := inbox[e].(processed := true)] else inbox
    ensures Sum(Unread(inbox', hooks - {task}, replicas)) <= Sum(Unread(inbox, hooks, replicas))
  {
    var e, unread := hooks[task].event, Unread(inbox, hooks, replicas);
    forall f | f != e ensures Readers(hooks - {task}, f) == Readers(hooks, f) { SameReaders(hooks, hooks - {task}, f); }
    assert Unread(inbox', hooks - {task}, replicas) == unread - {e};
    if e in unread { SumRemove(unread, e); } else { assert unread - {e} == unread; }
  }

  lemma RereadMoves(p: PS.State, work: PS.Op, replicas: nat)
    requires PS.Enabled(p, work) && work.Reread? && work.replica < replicas && ReadersBounded(p.hooks, replicas)
    ensures TaskMeasure(PS.Next(p, work), replicas) + 1 <= TaskMeasure(p, replicas)
  {
    var row := p.db.inbox[work.event];
    var hook := PS.Hook(work.event, row.kind, row.psp, false, PS.Reprocessor(work.replica));
    assert PS.Next(p, work) == p.(hooks := p.hooks[work.task := hook]);
    TaskAdded(p.hooks, work.task, hook);
    RereadIsSpent(p.db.inbox, p.hooks, work.task, hook, replicas);
  }

  lemma RereadIsSpent(inbox: map<string, PD.InboxRow>, hooks: map<nat, PS.Hook>, task: nat, hook: PS.Hook,
                      replicas: nat)
    requires task !in hooks && hook.source.Reprocessor? && hook.source.replica < replicas
            && ReadersBounded(hooks, replicas)
    requires forall t | t in hooks && hooks[t].event == hook.event :: hooks[t].source != hook.source
    requires hook.event in inbox && !inbox[hook.event].processed
    ensures Sum(Unread(inbox, hooks[task := hook], replicas)) + 1 == Sum(Unread(inbox, hooks, replicas))
  {
    var e, hooks', unread := hook.event, hooks[task := hook], Unread(inbox, hooks, replicas);
    OneMoreReader(hooks, task, hook, replicas);
    forall f | f != e ensures Readers(hooks', f) == Readers(hooks, f) { SameReaders(hooks, hooks', f); }
    assert Unread(inbox, hooks', replicas) == unread[e := FreeReaders(hooks', e, replicas)];
    SumUpdate(unread, e, FreeReaders(hooks', e, replicas));
  }

  lemma OneMoreReader(hooks: map<nat, PS.Hook>, task: nat, hook: PS.Hook, replicas: nat)
    requires task !in hooks && hook.source.Reprocessor? && hook.source.replica < replicas
            && ReadersBounded(hooks, replicas)
    requires forall t | t in hooks && hooks[t].event == hook.event :: hooks[t].source != hook.source
    ensures FreeReaders(hooks[task := hook], hook.event, replicas) + 1 == FreeReaders(hooks, hook.event, replicas)
  {
    var hooks', e, r := hooks[task := hook], hook.event, hook.source.replica;
    assert r in Readers(hooks', e) by { assert hooks'[task].source.replica == r; }
    forall q | q in Readers(hooks, e) ensures q in Readers(hooks', e) {
      var t :| t in hooks && hooks[t].event == e && hooks[t].source == PS.Reprocessor(q);
      assert hooks'[t].source == PS.Reprocessor(q);
    }
    assert Readers(hooks', e) == Readers(hooks, e) + {r};
    assert r !in Readers(hooks, e);
    ReadersAre(hooks', e, replicas);
  }

  lemma TaskAdded(hooks: map<nat, PS.Hook>, task: nat, hook: PS.Hook)
    requires task !in hooks && !hook.effected
    ensures var hooks' := hooks[task := hook];
            |hooks'| == |hooks| + 1 && |Unhandled(hooks')| == |Unhandled(hooks)| + 1
  {
    assert Unhandled(hooks[task := hook]) == Unhandled(hooks) + {task};
  }

  // ---- Checkouts in flight ----

  predicate CheckoutWork(work: PS.Op) {
    work.Lookup? || work.ReadPrice? || work.CallPsp? || work.InsertIntent? || work.Refetch?
  }

  /** A step of a checkout in flight ends it, perhaps storing its intent, or moves it to a lighter stage. */
  lemma CheckoutMoves(p: PS.State, work: PS.Op, replicas: nat)
    requires PS.Enabled(p, work) && CheckoutWork(work)
    ensures var p', c := PS.Next(p, work), work.checkout;
            && c in p.checkouts && p'.db.outbox == p.db.outbox && p'.db.inbox == p.db.inbox && p'.hooks == p.hooks
            && if c in p'.checkouts
               then p'.db == p.db && p'.checkouts == p.checkouts[c := p'.checkouts[c]]
                    && StageWeight(p'.checkouts[c].stage, replicas) < StageWeight(p.checkouts[c].stage, replicas)
               else p'.checkouts == p.checkouts - {c}
                    && (p'.db == p.db
                        || (work.InsertIntent? && OpenIntents(p'.db) == OpenIntents(p.db) + {work.intent}
                            && StageWeight(p.checkouts[c].stage, replicas) == Decision(replicas) + 2))
  {
  }

  lemma CheckoutPays(p: PS.State, work: PS.Op, replicas: nat)
    requires PS.Enabled(p, work) && CheckoutWork(work)
    ensures var p', d := PS.Next(p, work), Decision(replicas);
            Times(|OpenIntents(p'.db)|, d) + WorkMeasure(p', replicas) + 1
            <= Times(|OpenIntents(p.db)|, d) + WorkMeasure(p, replicas)
  {
    CheckoutMoves(p, work, replicas);
    var p' := PS.Next(p, work);
    StagesFall(p.checkouts, p'.checkouts, work.checkout, replicas);
    if p'.db != p.db {
      OneMoreOpen(OpenIntents(p.db), OpenIntents(p'.db), work.intent, Decision(replicas));
    }
  }

  lemma OneMoreOpen(open: set<Uuid>, open': set<Uuid>, x: Uuid, d: nat)
    requires open' == open + {x}
    ensures Times(|open'|, d) <= Times(|open|, d) + d
  {
    if x in open { assert open' == open; } else { assert |open'| == |open| + 1; }
  }

  lemma StagesFall(before: map<nat, PS.Checkout>, checkouts: map<nat, PS.Checkout>, c: nat, replicas: nat)
    requires c in before
    requires checkouts == if c in checkouts then before[c := checkouts[c]] else before - {c}
    ensures Sum(Stages(checkouts, replicas)) + StageWeight(before[c].stage, replicas)
            == Sum(Stages(before, replicas)) + if c in checkouts then StageWeight(checkouts[c].stage, replicas) else 0
  {
    var stages := Stages(before, replicas);
    SumRemove(stages, c);
    if c in checkouts {
      assert Stages(checkouts, replicas) == stages[c := StageWeight(checkouts[c].stage, replicas)];
      SumUpdate(stages, c, StageWeight(checkouts[c].stage, replicas));
    } else {
      assert Stages(checkouts, replicas) == stages - {c};
    }
  }

  // ---- Every own step falls ----

  /** What a decision frees pays for the event it appends, and for one thing more. */
  lemma DecisionPays(before: nat, after: nat, appended: nat, replicas: nat)
    requires after + appended <= before
    ensures Times(after, Decision(replicas)) + Times(appended, RT.NewRow(replicas)) + appended
            <= Times(before, Decision(replicas))
  {
    TimesSum(after, appended, Decision(replicas));
    TimesAtMost(after + appended, before, Decision(replicas));
    TimesOne(appended, RT.NewRow(replicas));
  }

  lemma SeatFalls(db: SD.Db, box: OB.Box<SeatEvent>, db': SD.Db, now: int, n: nat, replicas: nat)
    requires OB.Inv(box) && db.outbox <= db'.outbox
    requires n == |db'.outbox| - |db.outbox| && |ActiveHolds(db')| + n == |ActiveHolds(db)|
    ensures var box' := OB.InsertAll(box, db'.outbox[|db.outbox|..], now);
            SeatMeasure(db', box', replicas) + n <= SeatMeasure(db, box, replicas)
  {
    RT.InsertWeighs(box, db'.outbox[|db.outbox|..], now, replicas);
    DecisionPays(|ActiveHolds(db)|, |ActiveHolds(db')|, n, replicas);
  }

  lemma PayFalls(p: PS.State, box: OB.Box<PayEvent>, p': PS.State, now: int, n: nat, replicas: nat)
    requires OB.Inv(box) && p.db.outbox <= p'.db.outbox
    requires |OpenIntents(p'.db)| + (|p'.db.outbox| - |p.db.outbox|) <= |OpenIntents(p.db)|
    requires WorkMeasure(p', replicas) + n <= WorkMeasure(p, replicas)
    ensures var box' := OB.InsertAll(box, p'.db.outbox[|p.db.outbox|..], now);
            PayMeasure(p', box', replicas) + n <= PayMeasure(p, box, replicas)
  {
    RT.InsertWeighs(box, p'.db.outbox[|p.db.outbox|..], now, replicas);
    DecisionPays(|OpenIntents(p.db)|, |OpenIntents(p'.db)|, |p'.db.outbox| - |p.db.outbox|, replicas);
  }

  lemma SweepFalls(s: State, batch: seq<Uuid>, at: int, now: int, replicas: nat)
    requires OB.Inv(s.seatBox) && SL.Constraints(s.seat) && SD.SweepBatch(s.seat, batch, at)
    ensures var s' := SeatTx(s, SD.OpSweep(batch, at), now);
            SeatMeasure(s'.seat, s'.seatBox, replicas) + |batch| <= SeatMeasure(s.seat, s.seatBox, replicas)
  {
    SweepPays(s.seat, batch, at);
    SeatFalls(s.seat, s.seatBox, SD.Sweep(s.seat, batch, at), now, |batch|, replicas);
  }

  lemma PaymentFalls(s: State, ev: PayEvent, now: int, replicas: nat)
    requires OB.Inv(s.seatBox)
    ensures var s' := SeatTx(s, SD.OpPayment(ev, now), now);
            SeatMeasure(s'.seat, s'.seatBox, replicas) <= SeatMeasure(s.seat, s.seatBox, replicas)
  {
    PaymentPays(s.seat, ev, now);
    var seat' := SD.HandlePayment(s.seat, ev, now);
    SeatFalls(s.seat, s.seatBox, seat', now, |seat'.outbox| - |s.seat.outbox|, replicas);
  }

  lemma TaskFalls(s: State, work: PS.Op, now: int, replicas: nat)
    requires OB.Inv(s.payBox) && PS.Enabled(s.pay, work) && OwnWork(work, replicas)
            && ReadersBounded(s.pay.hooks, replicas)
    requires !CheckoutWork(work)
    ensures var s' := PayTx(s, work, now);
            PayMeasure(s'.pay, s'.payBox, replicas) + 1 <= PayMeasure(s.pay, s.payBox, replicas)
  {
    if work.Effected? {
      EffectMoves(s.pay, work, replicas);
      EffectPays(s.pay, work);
    } else if work.Mark? {
      MarkMoves(s.pay, work, replicas);
    } else {
      RereadMoves(s.pay, work, replicas);
    }
    PayFalls(s.pay, s.payBox, PS.Next(s.pay, work), now, 1, replicas);
  }

  lemma CheckoutFalls(s: State, work: PS.Op, now: int, replicas: nat)
    requires PS.Enabled(s.pay, work) && CheckoutWork(work)
    ensures var s' := PayTx(s, work, now);
            PayMeasure(s'.pay, s'.payBox, replicas) + 1 <= PayMeasure(s.pay, s.payBox, replicas)
  {
    CheckoutMoves(s.pay, work, replicas);
    CheckoutPays(s.pay, work, replicas);
    assert PayTx(s, work, now).payBox == s.payBox;
  }

  lemma CancelFalls(s: State, op: PS.Op, now: int, replicas: nat)
    requires OB.Inv(s.payBox) && PS.Enabled(s.pay, op) && op.CancelSeat?
    ensures var s' := PayTx(s, op, now);
            PayMeasure(s'.pay, s'.payBox, replicas) <= PayMeasure(s.pay, s.payBox, replicas)
  {
    var rows := PD.PendingBySeat(s.pay.db, op.seat);
    SettlePays(s.pay.db, rows, op.first, PD.Fail(SeatReleasedReason), op.eventId, true);
    PayFalls(s.pay, s.payBox, PS.Next(s.pay, op), now, 0, replicas);
  }

  lemma SeatRelayFalls(s: State, step: OB.Step, arrives: bool, replicas: nat)
    requires OB.Inv(s.seatBox) && OR.Staffed(s.seatBox, replicas)
    requires Saga.Enabled(s, SeatRelay(step, arrives)) && RT.ByWorkers(step, replicas)
    ensures Measure(Saga.Next(s, SeatRelay(step, arrives)), replicas) < Measure(s, replicas)
  {
    RT.RelayFalls(s.seatBox, step, replicas);
    assert |Routed(Sent(s.seatBox, step, arrives))| <= if step.Publish? then 1 else 0;
  }

  lemma PayRelayFalls(s: State, step: OB.Step, arrives: bool, replicas: nat)
    requires OB.Inv(s.payBox) && OR.Staffed(s.payBox, replicas)
    requires Saga.Enabled(s, PayRelay(step, arrives)) && RT.ByWorkers(step, replicas)
    ensures Measure(Saga.Next(s, PayRelay(step, arrives)), replicas) < Measure(s, replicas)
  {
    RT.RelayFalls(s.payBox, step, replicas);
    assert |Sent(s.payBox, step, arrives)| <= if step.Publish? then 1 else 0;
  }

  lemma DeliveryFalls(s: State, a: Act, replicas: nat)
    requires OB.Inv(s.seatBox) && OB.Inv(s.payBox) && Saga.Enabled(s, a) && Own(a, replicas)
    requires a.DeliverPayment? || a.DeliverRelease?
    ensures Measure(Saga.Next(s, a), replicas) < Measure(s, replicas)
  {
    match a
    case DeliverPayment(ev, now, ack) =>
      PaymentFalls(s, ev, now, replicas);
      assert |s.toSeat - multiset{ev}| + 1 == |s.toSeat|;
    case DeliverRelease(msg, first, eventId, now, ack) =>
      CancelFalls(s, PS.CancelSeat(msg.seat, first, eventId), now, replicas);
      assert |s.toPay - multiset{msg}| + 1 == |s.toPay|;
    case _ =>
  }

  /** Every step the services take on their own lowers the measure. */
  lemma StepFalls(s: State, a: Act, replicas: nat)
    requires Saga.Inv(s) && Crewed(s, replicas) && Saga.Enabled(s, a) && Own(a, replicas)
    ensures Measure(Saga.Next(s, a), replicas) < Measure(s, replicas)
  {
    match a
    case SeatWork(op, now) => SweepFalls(s, op.batch, op.now, now, replicas);
    case PayWork(work, now) =>
      if CheckoutWork(work) { CheckoutFalls(s, work, now, replicas); } else { TaskFalls(s, work, now, replicas); }
    case SeatRelay(step, arrives) => SeatRelayFalls(s, step, arrives, replicas);
    case PayRelay(step, arrives) => PayRelayFalls(s, step, arrives, replicas);
    case _ => DeliveryFalls(s, a, replicas);
  }

  /** Only replicas there are claim and reread; anybody may do anything else. */
  predicate ByReplicas(a: Act, replicas: nat) {
    match a
    case SeatRelay(Claim(_, worker, _), _) => worker < replicas
    case PayRelay(Claim(_, worker, _), _) => worker < replicas
    case PayWork(Reread(_, _, replica), _) => replica < replicas
    case _ => true
  }

  lemma ReadersStay(p: PS.State, op: PS.Op, replicas: nat)
    requires PS.Enabled(p, op) && ReadersBounded(p.hooks, replicas) && (op.Reread? ==> op.replica < replicas)
    ensures ReadersBounded(PS.Next(p, op).hooks, replicas)
  {
  }

  lemma RelayStays<E>(box: OB.Box<E>, step: OB.Step, replicas: nat)
    requires OR.Staffed(box, replicas) && OB.Enabled(box, step) && (step.Claim? ==> step.worker < replicas)
    ensures OR.Staffed(OB.Next(box, step), replicas)
  {
  }

  lemma PayTxStays(s: State, op: PS.Op, now: int, replicas: nat)
    requires OB.Inv(s.payBox) && Crewed(s, replicas) && PS.Enabled(s.pay, op) && (op.Reread? ==> op.replica < replicas)
    ensures Crewed(PayTx(s, op, now), replicas)
  {
    ReadersStay(s.pay, op, replicas);
    InsertStaffs(s.payBox, PS.Next(s.pay, op).db.outbox, |s.pay.db.outbox|, now, replicas);
  }

  lemma SeatTxStays(s: State, op: SD.Op, now: int, replicas: nat)
    requires OB.Inv(s.seatBox) && Crewed(s, replicas) && SD.Enabled(s.seat, op)
    ensures Crewed(SeatTx(s, op, now), replicas)
  {
    InsertStaffs(s.seatBox, SD.Step(s.seat, op).outbox, |s.seat.outbox|, now, replicas);
  }

  /** What is in the replicas' hands stays there, whatever happens around them. */
  lemma StaysCrewed(s: State, a: Act, replicas: nat)
    requires BoxesInv(s) && Crewed(s, replicas) && Saga.Enabled(s, a) && ByReplicas(a, replicas)
    ensures Crewed(Saga.Next(s, a), replicas)
  {
    match a
    case SeatWork(op, now) => SeatTxStays(s, op, now, replicas);
    case DeliverPayment(ev, now, _) => SeatTxStays(s, SD.OpPayment(ev, now), now, replicas);
    case PayWork(op, now) => PayTxStays(s, op, now, replicas);
    case DeliverRelease(msg, first, eventId, now, _) =>
      PayTxStays(s, PS.CancelSeat(msg.seat, first, eventId), now, replicas);
    case SeatRelay(step, _) => RelayStays(s.seatBox, step, replicas);
    case PayRelay(step, _) => RelayStays(s.payBox, step, replicas);
  }

  lemma InsertStaffs<E>(box: OB.Box<E>, log: seq<E>, from: nat, now: int, replicas: nat)
    requires OB.Inv(box) && OR.Staffed(box, replicas)
    ensures from <= |log| ==> OR.Staffed(OB.InsertAll(box, log[from..], now), replicas)
  {
    if from <= |log| { OB.InsertAllKeepsInv(box, log[from..], now); }
  }

  /** A run of own steps only. */
  ghost predicate OwnRun(s: State, acts: seq<Act>, replicas: nat)
    decreases |acts|
  {
    acts == [] || (Saga.Enabled(s, acts[0]) && Own(acts[0], replicas)
        && OwnRun(Saga.Next(s, acts[0]), acts[1..], replicas))
  }

  lemma OneStepLess(s: State, a: Act, replicas: nat)
    requires Saga.Inv(s) && Crewed(s, replicas) && Saga.Enabled(s, a) && Own(a, replicas)
    ensures var t := Saga.Next(s, a);
            Saga.Inv(t) && Crewed(t, replicas) && Measure(t, replicas) < Measure(s, replicas)
  {
    StepFalls(s, a, replicas);
    StaysCrewed(s, a, replicas);
    StepKeepsInv(s, a);
  }

  /**
   * With no new holds, checkouts or webhooks, no crash and no redelivery, any number of replicas
   * of both services together take at most `Measure` more steps, whatever their order: retries,
   * recoveries, rereadings, in-flight checkouts and compensation all end. And a run that cannot
   * go on except by sweeping has drained everything.
   */
  lemma {:induction false} CompensationTerminates(s: State, acts: seq<Act>, replicas: nat)
    requires Saga.Inv(s) && Crewed(s, replicas) && OwnRun(s, acts, replicas)
    ensures |acts| <= Measure(s, replicas)
    ensures ValidRun(s, acts) && (replicas > 0 && Idle(Run(s, acts), replicas) ==> Drained(Run(s, acts)))
    decreases |acts|
  {
    if acts == [] {
      if replicas > 0 { IdleExactly(s, replicas); }
    } else {
      OneStepLess(s, acts[0], replicas);
      CompensationTerminates(Saga.Next(s, acts[0]), acts[1..], replicas);
    }
  }

  // ---- Where it stops ----

  /** Nothing is left that the services would do on their own, whatever the clock. */
  ghost predicate Quiescent(s: State, replicas: nat) {
    forall a: Act :: Own(a, replicas) ==> !Saga.Enabled(s, a)
  }

  /** Nothing is left but, perhaps, holds the sweeper will find when they expire. */
  ghost predicate Idle(s: State, replicas: nat) {
    forall a: Act :: Own(a, replicas) && !a.SeatWork? ==> !Saga.Enabled(s, a)
  }

  predicate Drained(s: State) {
    && s.toSeat == multiset{} && s.toPay == multiset{}
    && s.pay.hooks == map[] && s.pay.checkouts == map[]
    && (forall e | e in s.pay.db.inbox :: s.pay.db.inbox[e].processed)
    && RT.AtRest(s.seatBox) && RT.AtRest(s.payBox)
  }

  lemma NewEventId(db: PD.Db) returns (eventId: Uuid)
    ensures PD.FreshEvent(db, eventId)
  {
    var used := set e | e in db.outbox :: e.eventId;
    eventId := Bound(used);
    assert forall i | 0 <= i < |db.outbox| :: db.outbox[i].eventId in used;
  }

  lemma HookLeft(p: PS.State, task: nat) returns (work: PS.Op)
    requires task in p.hooks
    ensures PS.Enabled(p, work) && (work.Effected? || work.Mark?)
  {
    if p.hooks[task].effected {
      work := PS.Mark(task);
    } else {
      var eventId := NewEventId(p.db);
      var first: Uuid := 0;
      var rows := PD.PendingByPsp(p.db, p.hooks[task].psp);
      if rows != {} { first :| first in rows; }
      work := PS.Effected(task, first, eventId);
    }
  }

  lemma CheckoutLeft(p: PS.State, c: nat) returns (work: PS.Op)
    requires c in p.checkouts
    ensures PS.Enabled(p, work) && CheckoutWork(work)
  {
    match p.checkouts[c].stage
    case Began => work := PS.Lookup(c);
    case Missed => work := PS.ReadPrice(c);
    case Priced(_) => work := PS.CallPsp(c, true, "");
    case Authorized(_, _) =>
      var x := Bound(p.db.intents.Keys);
      work := PS.InsertIntent(c, x);
    case Conflicted => work := PS.Refetch(c);
  }

  lemma ReleaseLeft(s: State, msg: SeatEvent) returns (a: Act)
    requires msg in s.toPay
    ensures a.DeliverRelease? && a.ack && Saga.Enabled(s, a)
  {
    var eventId := NewEventId(s.pay.db);
    var first: Uuid := 0;
    var rows := PD.PendingBySeat(s.pay.db, msg.seat);
    if rows != {} { first :| first in rows; }
    a := DeliverRelease(msg, first, eventId, 0, true);
  }

  lemma PayLeft(s: State, replicas: nat) returns (a: Act)
    requires replicas > 0
    requires s.pay.hooks != map[] || s.pay.checkouts != map[]
             || exists e :: e in s.pay.db.inbox && !s.pay.db.inbox[e].processed
    ensures a.PayWork? && Own(a, replicas) && Saga.Enabled(s, a)
  {
    var work: PS.Op;
    if s.pay.hooks != map[] {
      var task :| task in s.pay.hooks;
      work := HookLeft(s.pay, task);
    } else if s.pay.checkouts != map[] {
      var c :| c in s.pay.checkouts;
      work := CheckoutLeft(s.pay, c);
    } else {
      var e :| e in s.pay.db.inbox && !s.pay.db.inbox[e].processed;
      work := PS.Reread(e, 0, 0);
    }
    a := PayWork(work, 0);
  }

  /** Unless everything is drained, some own step is due. */
  lemma StepLeft(s: State, replicas: nat) returns (a: Act)
    requires replicas > 0 && !Drained(s)
    ensures Own(a, replicas) && !a.SeatWork? && Saga.Enabled(s, a)
  {
    if s.toSeat != multiset{} {
      var ev :| ev in s.toSeat;
      a := DeliverPayment(ev, 0, true);
    } else if s.toPay != multiset{} {
      var msg :| msg in s.toPay;
      a := ReleaseLeft(s, msg);
    } else if !RT.AtRest(s.seatBox) {
      var step := RT.WorkLeft(s.seatBox, replicas);
      a := SeatRelay(step, true);
    } else if !RT.AtRest(s.payBox) {
      var step := RT.WorkLeft(s.payBox, replicas);
      a := PayRelay(step, true);
    } else {
      a := PayLeft(s, replicas);
    }
  }

  /**
   * The services have nothing left to do but sweep exactly when queues, tasks, checkouts and
   * unprocessed provider events are gone and every outbox row that is left is DEAD.
   */
  lemma IdleExactly(s: State, replicas: nat)
    requires replicas > 0
    ensures Idle(s, replicas) <==> Drained(s)
  {
    if !Drained(s) {
      var a := StepLeft(s, replicas);
      assert Own(a, replicas) && !a.SeatWork? && Saga.Enabled(s, a);
    } else {
      forall a: Act | Own(a, replicas) && !a.SeatWork? ensures !Saga.Enabled(s, a) { DrainedRefuses(s, a, replicas); }
    }
  }

  lemma DrainedRefuses(s: State, a: Act, replicas: nat)
    requires Drained(s) && Own(a, replicas) && !a.SeatWork?
    ensures !Saga.Enabled(s, a)
  {
  }

  /** And for good, whatever the clock, exactly when in addition no hold is active. */
  lemma QuiescentExactly(s: State, replicas: nat)
    requires replicas > 0
    ensures Quiescent(s, replicas) <==> Drained(s) && forall h :: !SD.Held(s.seat, h)
  {
    IdleExactly(s, replicas);
    if h :| SD.Held(s.seat, h) {
      var sweep := SeatWork(SD.OpSweep([h], s.seat.holds[h].heldUntil + 1), 0);
      assert Own(sweep, replicas) && Saga.Enabled(s, sweep);
    } else if Drained(s) {
      forall a: Act | Own(a, replicas) ensures !Saga.Enabled(s, a) {
        if a.SeatWork? {
          NothingToSweep(s, a.op);
        }
      }
    } else {
      var a := StepLeft(s, replicas);
      assert Own(a, replicas) && Saga.Enabled(s, a);
    }
  }

  lemma NothingToSweep(s: State, op: SD.Op)
    requires op.OpSweep? && op.batch != [] && forall h :: !SD.Held(s.seat, h)
    ensures !SD.Enabled(s.seat, op)
  {
    assert !SD.Held(s.seat, op.batch[0]);
  }

  /** A run of own steps, none of them a sweep, after which everything is drained. */
  ghost predicate DrainsBy(s: State, acts: seq<Act>, replicas: nat) {
    OwnRun(s, acts, replicas) && (forall i | 0 <= i < |acts| :: !acts[i].SeatWork?) && ValidRun(s, acts)
        && Drained(Run(s, acts))
  }

  lemma DrainsFirst(s: State, a: Act, rest: seq<Act>, replicas: nat)
    requires Saga.Enabled(s, a) && Own(a, replicas) && !a.SeatWork? && DrainsBy(Saga.Next(s, a), rest, replicas)
    ensures DrainsBy(s, [a] + rest, replicas)
  {
    assert ([a] + rest)[1..] == rest;
  }

  /** From every state they can reach the services fall idle on their own, without waiting for any hold to expire. */
  lemma {:induction false} AlwaysDrains(s: State, replicas: nat) returns (acts: seq<Act>)
    requires Saga.Inv(s) && Crewed(s, replicas) && replicas > 0
    ensures DrainsBy(s, acts, replicas)
    decreases Measure(s, replicas)
  {
    if Drained(s) {
      acts := [];
    } else {
      var a := StepLeft(s, replicas);
      OneStepLess(s, a, replicas);
      acts := AlwaysDrains(Saga.Next(s, a), replicas);
      DrainsFirst(s, a, acts, replicas);
      acts := [a] + acts;
    }
  }

  /** Every state is in the hands of some number of replicas. */
  lemma SomeCrew(s: State) returns (replicas: nat)
    ensures replicas > 0 && Crewed(s, replicas)
  {
    var seatWorkers := set t | t in s.seatBox.jobs :: t.worker;
    var payWorkers := set t | t in s.payBox.jobs :: t.worker;
    var readers := set t | t in s.pay.hooks && s.pay.hooks[t].source.Reprocessor? :: s.pay.hooks[t].source.replica;
    replicas := Bound(seatWorkers + payWorkers + readers + {0});
    forall t | t in s.seatBox.jobs ensures t.worker < replicas { assert t.worker in seatWorkers; }
    forall t | t in s.payBox.jobs ensures t.worker < replicas { assert t.worker in payWorkers; }
    forall t | t in s.pay.hooks && s.pay.hooks[t].source.Reprocessor? ensures s.pay.hooks[t].source.replica < replicas {
      assert s.pay.hooks[t].source.replica in readers;
    }
  }

  /**
   * Where the services fall idle, every payment decided with a readable trace id has ended its
   * hold, unless its event was given up on: then it sits in a DEAD row.
   */
  lemma IdleIsSettled(s: State, acts: seq<Act>, i: nat, replicas: nat)
    requires Fresh(s) && ValidRun(s, acts) && replicas > 0
    ensures var t := Run(s, acts);
            Idle(t, replicas) && i < |t.pay.db.outbox| && t.pay.db.outbox[i].traceOk
            && SD.Held(t.seat, t.pay.db.outbox[i].hold) ==>
              && i in t.payBox.table && t.payBox.table[i].payload == t.pay.db.outbox[i]
              && t.payBox.table[i].state == OB.Dead
  {
    DecidedPaymentsArrive(s, acts, i);
    IdleExactly(Run(s, acts), replicas);
  }

  /**
   * Where the services fall idle, every webhook ever acknowledged has been handled, and a
   * success or failure has settled every intent of its provider id that was stored by then.
   */
  lemma IdleHandledAll(s: State, acts: seq<Act>, event: string, replicas: nat)
    requires Fresh(s) && ValidRun(s, acts) && replicas > 0 && Idle(Run(s, acts), replicas)
    requires event in Run(s, acts).pay.db.inbox
    ensures var ops, row := SN.PayOps(acts), Run(s, acts).pay.db.inbox[event];
            && SN.PayReaches(s.pay, ops, Run(s, acts).pay) && PT.Handled(s.pay, ops, event)
            && (row.kind != PD.HookOther ==>
                  forall k: nat | PT.HandledAt(s.pay, ops, k, event) :: PT.SettledSince(s.pay, ops, k, row.psp))
  {
    IdleExactly(Run(s, acts), replicas);
    SN.PayRunOf(s, acts);
    PT.AckedWebhookTakesEffect(s.pay, SN.PayOps(acts), event);
  }
}

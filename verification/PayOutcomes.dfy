/**
 * Why an intent is what it is: every outcome, event, row and reply of the payment service
 * traced back to the requests of the run that caused it.
 */
module PayOutcomes {
  import opened Base
  import opened Events
  import opened PayDb
  import PS = PayService
  import opened PayService
  import opened PayTheorems

  // ---- What the provider reported ----

  /** The first request of the run that reported the provider event; repetitions do not count. */
  function FirstReport(ops: seq<Op>, event: string): Option<nat> {
    if ops == [] then None
    else
      var n := |ops| - 1;
      var earlier := FirstReport(ops[..n], event);
      if earlier.Some? then earlier
      else if ops[n].Receive? && ops[n].event == event then Some(n) else None
  }

  predicate ReportedAs(ops: seq<Op>, event: string, kind: HookKind, psp: string) {
    && var r := FirstReport(ops, event);
       r.Some? && r.value < |ops| && ops[r.value].Receive? && ops[r.value].kind == kind && ops[r.value].psp == psp
  }

  /** A step stores at most the event it receives, and never changes what one was stored as. */
  lemma OneStepReports(s: State, op: Op, event: string)
    requires PS.Enabled(s, op)
    ensures var inbox' := PS.Next(s, op).db.inbox;
            && (event in inbox' <==> event in s.db.inbox || (op.Receive? && op.event == event))
            && (event in inbox' ==>
                  if event in s.db.inbox
                  then inbox'[event].kind == s.db.inbox[event].kind && inbox'[event].psp == s.db.inbox[event].psp
                  else inbox'[event].kind == op.kind && inbox'[event].psp == op.psp)
  {
    NextGrows(s, op);
  }

  lemma ReportKept(ops: seq<Op>, event: string, kind: HookKind, psp: string)
    requires ops != [] && ReportedAs(ops[..|ops| - 1], event, kind, psp)
    ensures ReportedAs(ops, event, kind, psp)
  {
  }

  /** The inbox holds exactly the events reported, each as it was reported first. */
  lemma {:induction false} InboxAsReported(s: State, ops: seq<Op>, event: string)
    requires Fresh(s) && ValidRun(s, ops)
    ensures event in Run(s, ops).db.inbox <==> FirstReport(ops, event).Some?
    ensures event in Run(s, ops).db.inbox ==>
              var row := Run(s, ops).db.inbox[event]; ReportedAs(ops, event, row.kind, row.psp)
    decreases |ops|
  {
    if ops != [] {
      var n := |ops| - 1;
      var was := Run(s, ops[..n]);
      InboxAsReported(s, ops[..n], event);
      OneStepReports(was, ops[n], event);
      if event in was.db.inbox { ReportKept(ops, event, was.db.inbox[event].kind, was.db.inbox[event].psp); }
    }
  }

  /** Step `d` handles an event that was reported as this kind, about this provider id. */
  ghost predicate HandlesReport(s: State, ops: seq<Op>, d: nat, kind: HookKind, psp: string)
    requires ValidRun(s, ops)
  {
    && d < |ops| && ops[d].Effected? && ValidRun(s, ops[..d])
    && var hooks := Run(s, ops[..d]).hooks;
       ops[d].task in hooks && ReportedAs(ops[..d], hooks[ops[d].task].event, kind, psp)
  }

  /** A task handles the event it names as that event was reported. */
  lemma HandledAsReported(s: State, ops: seq<Op>, n: nat, kind: HookKind, psp: string)
    requires Fresh(s) && ValidRun(s, ops) && n < |ops| && ops[n].Effected? && ValidRun(s, ops[..n])
    requires ops[n].task in Run(s, ops[..n]).hooks
    ensures var h := Run(s, ops[..n]).hooks[ops[n].task];
            HandlesReport(s, ops, n, kind, psp) <==> h.kind == kind && h.psp == psp
  {
    FreshInv(s);
    Reachable(s, ops[..n]);
    var t := Run(s, ops[..n]);
    assert HookInv(t.db, t.hooks[ops[n].task]);
    InboxAsReported(s, ops[..n], t.hooks[ops[n].task].event);
  }

  lemma HandlesKept(s: State, ops: seq<Op>, d: nat, kind: HookKind, psp: string)
    requires ValidRun(s, ops) && ops != [] && d < |ops| - 1
    ensures HandlesReport(s, ops, d, kind, psp) <==> HandlesReport(s, ops[..|ops| - 1], d, kind, psp)
  {
    assert ops[..|ops| - 1][..d] == ops[..d];
  }

  // ---- The step that decides an intent ----

  /** The first step, since the intent was stored, that handled a verdict about it or a release of its seat. */
  ghost function Decider(s: State, ops: seq<Op>, x: Uuid): Option<nat>
    requires ValidRun(s, ops)
    decreases |ops|
  {
    if ops == [] then None
    else
      var n := |ops| - 1;
      var was, earlier := Run(s, ops[..n]), Decider(s, ops[..n], x);
      if earlier.Some? then earlier
      else if x in was.db.intents && Decides(was, ops[n], was.db.intents[x]) then Some(n) else None
  }

  lemma {:induction false} DeciderStands(s: State, ops: seq<Op>, x: Uuid)
    requires PS.Inv(s) && ValidRun(s, ops)
    ensures var d := Decider(s, ops, x);
            d.Some? ==> d.value < |ops| && x in Run(s, ops).db.intents
                        && (ops[d.value].Effected? || ops[d.value].CancelSeat?)
    decreases |ops|
  {
    if ops != [] {
      var n := |ops| - 1;
      DeciderStands(s, ops[..n], x);
      NextGrows(Run(s, ops[..n]), ops[n]);
    }
  }

  lemma OneStepOutcome(s: State, op: Op, x: Uuid)
    requires PS.Enabled(s, op) && x in s.db.intents
    ensures var i := s.db.intents[x];
            && x in PS.Next(s, op).db.intents
            && PS.Next(s, op).db.intents[x].status ==
                 if i.status != PENDING || !Decides(s, op, i) then i.status
                 else if op.Effected? && s.hooks[op.task].kind == HookSucceeded then COMPLETED
                 else FAILED
  {
    NextGrows(s, op);
    OneStepPending(s, op, x);
  }

  /** Step `d` consumes a release of the seat. */
  predicate ConsumesRelease(ops: seq<Op>, d: nat, seat: Uuid) {
    d < |ops| && ops[d].CancelSeat? && ops[d].seat == seat
  }

  /** What step `d` makes of a pending intent. */
  ghost predicate DecidesAs(s: State, ops: seq<Op>, d: nat, i: Intent, status: IntentStatus)
    requires ValidRun(s, ops)
  {
    match status
    case PENDING => false
    case COMPLETED => HandlesReport(s, ops, d, HookSucceeded, i.psp)
    case FAILED => HandlesReport(s, ops, d, HookFailed, i.psp) || ConsumesRelease(ops, d, i.seat)
  }

  /** The step just taken decides an intent the way its kind says, and no other. */
  lemma LastDecides(s: State, ops: seq<Op>, x: Uuid)
    requires Fresh(s) && ValidRun(s, ops) && ops != []
    requires x in Run(s, ops[..|ops| - 1]).db.intents
    ensures var n := |ops| - 1; var was := Run(s, ops[..n]);
            && x in Run(s, ops).db.intents
            && var i := Run(s, ops).db.intents[x];
               && was.db.intents[x] == i.(status := was.db.intents[x].status)
               && (was.db.intents[x].status == PENDING && Decides(was, ops[n], i) ==> DecidesAs(s, ops, n, i, i.status))
               && (was.db.intents[x].status != PENDING || !Decides(was, ops[n], i) ==> i == was.db.intents[x])
  {
    var n := |ops| - 1;
    var was := Run(s, ops[..n]);
    NextGrows(was, ops[n]);
    OneStepOutcome(was, ops[n], x);
    if ops[n].Effected? {
      HandledAsReported(s, ops, n, HookSucceeded, was.db.intents[x].psp);
      HandledAsReported(s, ops, n, HookFailed, was.db.intents[x].psp);
    }
  }

  /**
   * Over every run an intent has the outcome of the first step, since it was stored, that
   * handled a verdict about it or a release of its seat: COMPLETED exactly if that step handled
   * an event first reported as a success of its provider id, FAILED exactly if it handled one
   * first reported as a failure or consumed the release, PENDING exactly if there is none yet.
   */
  lemma {:induction false} OutcomeExactly(s: State, ops: seq<Op>, x: Uuid)
    requires Fresh(s) && ValidRun(s, ops) && x in Run(s, ops).db.intents
    ensures var i, d := Run(s, ops).db.intents[x], Decider(s, ops, x);
            && (i.status == PENDING <==> d == None)
            && (i.status == COMPLETED <==> d.Some? && HandlesReport(s, ops, d.value, HookSucceeded, i.psp))
            && (i.status == FAILED <==>
                  && d.Some?
                  && (HandlesReport(s, ops, d.value, HookFailed, i.psp) || ConsumesRelease(ops, d.value, i.seat)))
    decreases |ops|
  {
    FreshInv(s);
    DeciderStands(s, ops, x);
    OutcomeIsDecided(s, ops, x);
    var i, d := Run(s, ops).db.intents[x], Decider(s, ops, x);
    if d.Some? { OneVerdict(s, ops, d.value, i); }
  }

  /** A step decides one way at most. */
  lemma OneVerdict(s: State, ops: seq<Op>, d: nat, i: Intent)
    requires ValidRun(s, ops)
    ensures !(DecidesAs(s, ops, d, i, COMPLETED) && DecidesAs(s, ops, d, i, FAILED))
  {
  }

  lemma {:induction false} OutcomeIsDecided(s: State, ops: seq<Op>, x: Uuid)
    requires Fresh(s) && ValidRun(s, ops) && x in Run(s, ops).db.intents
    ensures var i, d := Run(s, ops).db.intents[x], Decider(s, ops, x);
            if d == None then i.status == PENDING else DecidesAs(s, ops, d.value, i, i.status)
    decreases |ops|
  {
    if ops != [] {
      var n := |ops| - 1;
      var was := Run(s, ops[..n]);
      FreshInv(s);
      DeciderStands(s, ops[..n], x);
      if x in was.db.intents {
        OutcomeIsDecided(s, ops[..n], x);
        LastDecides(s, ops, x);
        var earlier := Decider(s, ops[..n], x);
        if earlier.Some? { VerdictKept(s, ops, earlier.value, was.db.intents[x], was.db.intents[x].status); }
      } else {
        OneStepPending(was, ops[n], x);
      }
    }
  }

  lemma VerdictKept(s: State, ops: seq<Op>, d: nat, i: Intent, status: IntentStatus)
    requires ValidRun(s, ops) && ops != [] && DecidesAs(s, ops[..|ops| - 1], d, i, status)
    ensures d < |ops| - 1 && DecidesAs(s, ops, d, i, status)
  {
    assert d < |ops| - 1;
    HandlesKept(s, ops, d, HookSucceeded, i.psp);
    HandlesKept(s, ops, d, HookFailed, i.psp);
  }

  /** Of the steps that decide an intent already stored, `Decider` is the first. */
  lemma {:induction false} DeciderIsFirst(s: State, ops: seq<Op>, x: Uuid)
    requires Fresh(s) && ValidRun(s, ops)
    ensures var d := Decider(s, ops, x);
            if d == None then forall j: nat :: !DecidedAt(s, ops, j, x)
            else DecidedAt(s, ops, d.value, x) && forall j: nat | j < d.value :: !DecidedAt(s, ops, j, x)
    decreases |ops|
  {
    if ops != [] {
      var n := |ops| - 1;
      DeciderIsFirst(s, ops[..n], x);
      forall j: nat | j < n ensures DecidedAt(s, ops, j, x) <==> DecidedAt(s, ops[..n], j, x) {
        PrefixValid(s, ops, j);
        assert ops[..n][..j] == ops[..j];
      }
    }
  }

  // ---- What is told about it ----

  /** The event says what step `d` made of its intent, and is readable unless a reprocessor took the step. */
  ghost predicate TellsWhy(s: State, ops: seq<Op>, d: nat, i: Intent, e: PayEvent)
    requires ValidRun(s, ops)
  {
    && (e.PaymentSucceeded? <==> HandlesReport(s, ops, d, HookSucceeded, i.psp))
    && (e.PaymentFailed? && e.reason == DeclinedReason <==> HandlesReport(s, ops, d, HookFailed, i.psp))
    && (e.PaymentFailed? && e.reason == SeatReleasedReason <==> ConsumesRelease(ops, d, i.seat))
    && (e.traceOk <==> ConsumesRelease(ops, d, i.seat) || ByHandler(s, ops, d))
  }

  /** Step `d` was taken by the task of a webhook's own handler, and not by a reprocessor. */
  ghost predicate ByHandler(s: State, ops: seq<Op>, d: nat)
    requires ValidRun(s, ops)
  {
    && d < |ops| && ops[d].Effected? && ValidRun(s, ops[..d])
    && var hooks := Run(s, ops[..d]).hooks; ops[d].task in hooks && hooks[ops[d].task].source == Handler
  }

  /** At most one event is appended by a step, about a pending intent that the step decides. */
  lemma OneStepTells(s: State, op: Op)
    requires PS.Enabled(s, op)
    ensures var log, log' := s.db.outbox, PS.Next(s, op).db.outbox;
            || log' == log
            || (|log'| == |log| + 1 && log <= log' && var e := log'[|log|];
                && Pending(s.db, e.intent) && Decides(s, op, s.db.intents[e.intent])
                && (e.PaymentSucceeded? <==> op.Effected? && s.hooks[op.task].kind == HookSucceeded)
                && (e.PaymentFailed? ==> (e.reason == SeatReleasedReason <==> op.CancelSeat?))
                && (e.traceOk <==> op.CancelSeat? || s.hooks[op.task].source == Handler))
  {
  }

  lemma LastTells(s: State, ops: seq<Op>, k: nat)
    requires Fresh(s) && ValidRun(s, ops) && ops != []
    requires |Run(s, ops[..|ops| - 1]).db.outbox| <= k < |Run(s, ops).db.outbox|
    ensures var n := |ops| - 1; var was, e := Run(s, ops[..n]), Run(s, ops).db.outbox[k];
            && Pending(was.db, e.intent) && Decides(was, ops[n], was.db.intents[e.intent])
            && TellsWhy(s, ops, n, was.db.intents[e.intent], e)
  {
    var n := |ops| - 1;
    var was, e := Run(s, ops[..n]), Run(s, ops).db.outbox[k];
    OneStepTells(was, ops[n]);
    if ops[n].Effected? {
      HandledAsReported(s, ops, n, HookSucceeded, was.db.intents[e.intent].psp);
      HandledAsReported(s, ops, n, HookFailed, was.db.intents[e.intent].psp);
    }
  }

  /** The event's intent was decided, and the event says by what. */
  ghost predicate Explained(s: State, ops: seq<Op>, e: PayEvent)
    requires ValidRun(s, ops)
  {
    && e.intent in Run(s, ops).db.intents && Decider(s, ops, e.intent).Some?
    && TellsWhy(s, ops, Decider(s, ops, e.intent).value, Run(s, ops).db.intents[e.intent], e)
  }

  lemma ExplainedKept(s: State, ops: seq<Op>, e: PayEvent)
    requires Fresh(s) && ValidRun(s, ops) && ops != [] && Explained(s, ops[..|ops| - 1], e)
    ensures Explained(s, ops, e)
  {
    var n := |ops| - 1;
    var d, i := Decider(s, ops[..n], e.intent).value, Run(s, ops[..n]).db.intents[e.intent];
    FreshInv(s);
    NextGrows(Run(s, ops[..n]), ops[n]);
    DeciderStands(s, ops[..n], e.intent);
    WhyKept(s, ops, d, i, e);
    SameReasons(s, ops, d, i, Run(s, ops).db.intents[e.intent], e);
  }

  lemma NewExplained(s: State, ops: seq<Op>, e: PayEvent)
    requires Fresh(s) && ValidRun(s, ops) && ops != []
    requires var n := |ops| - 1; var was := Run(s, ops[..n]);
             && Pending(was.db, e.intent) && Decides(was, ops[n], was.db.intents[e.intent])
             && TellsWhy(s, ops, n, was.db.intents[e.intent], e)
    ensures Explained(s, ops, e)
  {
    var n := |ops| - 1;
    var was := Run(s, ops[..n]);
    NextGrows(was, ops[n]);
    OutcomeExactly(s, ops[..n], e.intent);
    SameReasons(s, ops, n, was.db.intents[e.intent], Run(s, ops).db.intents[e.intent], e);
  }

  /**
   * Every event in the log is about an intent that a step decided, and says what that step
   * was: a success, a decline or a release; readable exactly unless a reprocessor took it.
   */
  lemma {:induction false} EventsTellWhy(s: State, ops: seq<Op>, k: nat)
    requires Fresh(s) && ValidRun(s, ops) && k < |Run(s, ops).db.outbox|
    ensures Explained(s, ops, Run(s, ops).db.outbox[k])
    decreases |ops|
  {
    if ops != [] {
      var was, e := Run(s, ops[..|ops| - 1]), Run(s, ops).db.outbox[k];
      if k < |was.db.outbox| {
        NextGrows(was, ops[|ops| - 1]);
        EventsTellWhy(s, ops[..|ops| - 1], k);
        ExplainedKept(s, ops, e);
      } else {
        LastTells(s, ops, k);
        NewExplained(s, ops, e);
      }
    }
  }

  lemma SameReasons(s: State, ops: seq<Op>, d: nat, i: Intent, j: Intent, e: PayEvent)
    requires ValidRun(s, ops) && TellsWhy(s, ops, d, i, e) && j.psp == i.psp && j.seat == i.seat
    ensures TellsWhy(s, ops, d, j, e)
  {
  }

  lemma WhyKept(s: State, ops: seq<Op>, d: nat, i: Intent, e: PayEvent)
    requires ValidRun(s, ops) && ops != [] && d < |ops| - 1 && TellsWhy(s, ops[..|ops| - 1], d, i, e)
    ensures TellsWhy(s, ops, d, i, e)
  {
    HandlesKept(s, ops, d, HookSucceeded, i.psp);
    HandlesKept(s, ops, d, HookFailed, i.psp);
    assert ops[..|ops| - 1][..d] == ops[..d];
  }

  // ---- What a checkout asks of the provider ----

  /** Step `k` was the provider's acceptance of a checkout under the key, answered with the secret. */
  ghost predicate AcceptedAt(s: State, ops: seq<Op>, k: nat, key: string, secret: string)
    requires ValidRun(s, ops)
  {
    && k < |ops| && ops[k].CallPsp? && ops[k].ok && ValidRun(s, ops[..k])
    && var checkouts := Run(s, ops[..k]).checkouts;
       && ops[k].checkout in checkouts && checkouts[ops[k].checkout].key == key
       && secret == "pi_mock_" + key + "_secret_" + ops[k].rand
  }

  ghost predicate Accepted(s: State, ops: seq<Op>, key: string, secret: string)
    requires ValidRun(s, ops)
  {
    exists k: nat :: AcceptedAt(s, ops, k, key, secret)
  }

  lemma AcceptedKept(s: State, ops: seq<Op>, key: string, secret: string)
    requires ValidRun(s, ops) && ops != [] && Accepted(s, ops[..|ops| - 1], key, secret)
    ensures Accepted(s, ops, key, secret)
  {
    var k: nat :| AcceptedAt(s, ops[..|ops| - 1], k, key, secret);
    assert ops[..|ops| - 1][..k] == ops[..k];
    assert AcceptedAt(s, ops, k, key, secret);
  }

  /** A step authorizes at most the checkout whose provider call it is, and only if accepted. */
  lemma OneStepAuthorizes(s: State, op: Op, c: nat)
    requires PS.Enabled(s, op) && c in PS.Next(s, op).checkouts && PS.Next(s, op).checkouts[c].stage.Authorized?
    ensures var co := PS.Next(s, op).checkouts[c];
            || (c in s.checkouts && s.checkouts[c] == co)
            || (op.CallPsp? && op.ok && op.checkout == c && c in s.checkouts && s.checkouts[c].key == co.key
                && co.stage.secret == "pi_mock_" + co.key + "_secret_" + op.rand)
  {
  }

  lemma {:induction false} AuthorizedWasAccepted(s: State, ops: seq<Op>, c: nat)
    requires Fresh(s) && ValidRun(s, ops)
    requires c in Run(s, ops).checkouts && Run(s, ops).checkouts[c].stage.Authorized?
    ensures var co := Run(s, ops).checkouts[c]; Accepted(s, ops, co.key, co.stage.secret)
    decreases |ops|
  {
    if ops != [] {
      var n := |ops| - 1;
      var was, co := Run(s, ops[..n]), Run(s, ops).checkouts[c];
      OneStepAuthorizes(was, ops[n], c);
      if c in was.checkouts && was.checkouts[c] == co {
        AuthorizedWasAccepted(s, ops[..n], c);
        AcceptedKept(s, ops, co.key, co.stage.secret);
      } else {
        assert AcceptedAt(s, ops, n, co.key, co.stage.secret);
      }
    }
  }

  lemma OneStepStores(s: State, op: Op, x: Uuid)
    requires PS.Enabled(s, op) && x in PS.Next(s, op).db.intents && x !in s.db.intents
    ensures var row := PS.Next(s, op).db.intents[x];
            && op.InsertIntent? && op.intent == x && s.checkouts[op.checkout].stage.Authorized?
            && row.key == s.checkouts[op.checkout].key && row.secret == s.checkouts[op.checkout].stage.secret
            && PS.Next(s, op).replies
               == s.replies + [Reply(row.key, x, row.secret, row.amount, row.currency, false)]
  {
  }

  /** No intent is stored unless the provider accepted its key, and its secret is the provider's answer. */
  lemma {:induction false} StoredWasAccepted(s: State, ops: seq<Op>, x: Uuid)
    requires Fresh(s) && ValidRun(s, ops) && x in Run(s, ops).db.intents
    ensures var row := Run(s, ops).db.intents[x]; Accepted(s, ops, row.key, row.secret)
    decreases |ops|
  {
    if ops != [] {
      var n := |ops| - 1;
      var was, row := Run(s, ops[..n]), Run(s, ops).db.intents[x];
      if x in was.db.intents {
        NextGrows(was, ops[n]);
        StoredWasAccepted(s, ops[..n], x);
      } else {
        OneStepStores(was, ops[n], x);
        AuthorizedWasAccepted(s, ops[..n], ops[n].checkout);
      }
      AcceptedKept(s, ops, row.key, row.secret);
    }
  }

  /** Reply `i` says that its request stored intent `x`. */
  predicate Creates(replies: seq<Reply>, i: nat, x: Uuid) {
    i < |replies| && replies[i].intent == x && !replies[i].idempotent
  }

  lemma RepliesStay(s: State, op: Op)
    requires PS.Enabled(s, op)
    ensures s.replies <= PS.Next(s, op).replies
  {
  }

  /** Every stored intent is answered as new exactly once: by the request that stored it. */
  lemma {:induction false} CreatedOnce(s: State, ops: seq<Op>, x: Uuid)
    requires Fresh(s) && ValidRun(s, ops) && x in Run(s, ops).db.intents
    ensures exists i: nat :: Creates(Run(s, ops).replies, i, x)
    ensures forall i: nat, j: nat | Creates(Run(s, ops).replies, i, x) && Creates(Run(s, ops).replies, j, x) :: i == j
    decreases |ops|
  {
    FreshInv(s);
    Reachable(s, ops);
    var t := Run(s, ops);
    forall i: nat, j: nat | Creates(t.replies, i, x) && Creates(t.replies, j, x) ensures i == j {
      assert ReplyInv(t.db, t.replies[i]) && ReplyInv(t.db, t.replies[j]);
    }
    if ops != [] {
      var n := |ops| - 1;
      var was := Run(s, ops[..n]);
      RepliesStay(was, ops[n]);
      if x in was.db.intents {
        CreatedOnce(s, ops[..n], x);
        var i: nat :| Creates(was.replies, i, x);
        assert Creates(t.replies, i, x);
      } else {
        OneStepStores(was, ops[n], x);
        assert Creates(t.replies, |was.replies|, x);
      }
    }
  }

  /** The request ends with a reply that repeats the key's row. */
  ghost predicate Answers(s: State, s': State, c: nat)
    requires c in s.checkouts
  {
    && c !in s'.checkouts && |s'.replies| == |s.replies| + 1 && s.replies <= s'.replies && s'.db == s.db
    && var r := s'.replies[|s.replies|];
       r.key == s.checkouts[c].key && r.idempotent && r.intent in s.db.intents && ReplyInv(s.db, r)
  }

  lemma OneStepConflicts(s: State, op: Op, c: nat)
    requires PS.Enabled(s, op) && c in PS.Next(s, op).checkouts && PS.Next(s, op).checkouts[c].stage == Conflicted
    ensures var co := PS.Next(s, op).checkouts[c];
            || (c in s.checkouts && s.checkouts[c] == co)
            || (c in s.checkouts && s.checkouts[c].key == co.key && KeyTaken(s.db, co.key))
  {
  }

  lemma TakenStays(s: State, op: Op, key: string)
    requires PS.Enabled(s, op) && KeyTaken(s.db, key)
    ensures KeyTaken(PS.Next(s, op).db, key)
  {
    NextGrows(s, op);
    var x :| x in s.db.intents && s.db.intents[x].key == key;
    assert x in PS.Next(s, op).db.intents && PS.Next(s, op).db.intents[x].key == key;
  }

  lemma {:induction false} ConflictMeansTaken(s: State, ops: seq<Op>, c: nat)
    requires Fresh(s) && ValidRun(s, ops)
    requires c in Run(s, ops).checkouts && Run(s, ops).checkouts[c].stage == Conflicted
    ensures KeyTaken(Run(s, ops).db, Run(s, ops).checkouts[c].key)
    decreases |ops|
  {
    if ops != [] {
      var n := |ops| - 1;
      var was, co := Run(s, ops[..n]), Run(s, ops).checkouts[c];
      OneStepConflicts(was, ops[n], c);
      if c in was.checkouts && was.checkouts[c] == co { ConflictMeansTaken(s, ops[..n], c); }
      TakenStays(was, ops[n], co.key);
    }
  }

  /**
   * Losing a race is no error: in every run the second look of a checkout whose insert hit the
   * unique key, and the first look of one whose key has a row, is answered with that row.
   */
  lemma LoserIsAnswered(s: State, ops: seq<Op>, c: nat)
    requires Fresh(s) && ValidRun(s, ops) && c in Run(s, ops).checkouts
    ensures var t := Run(s, ops);
            && (t.checkouts[c].stage == Conflicted ==>
                  PS.Enabled(t, Refetch(c)) && Answers(t, PS.Next(t, Refetch(c)), c))
            && (t.checkouts[c].stage == Began && KeyTaken(t.db, t.checkouts[c].key) ==>
                  PS.Enabled(t, Lookup(c)) && Answers(t, PS.Next(t, Lookup(c)), c))
  {
    if Run(s, ops).checkouts[c].stage == Conflicted { ConflictMeansTaken(s, ops, c); }
  }

  /** The key has its row, and no checkout under it has got past the first look. */
  ghost predicate OnlyRetries(s: State, key: string) {
    && KeyTaken(s.db, key)
    && forall c | c in s.checkouts && s.checkouts[c].key == key :: s.checkouts[c].stage == Began
  }

  lemma OneStepRetries(s: State, op: Op, key: string)
    requires PS.Enabled(s, op) && OnlyRetries(s, key)
    ensures OnlyRetries(PS.Next(s, op), key)
    ensures op.CallPsp? ==> s.checkouts[op.checkout].key != key
  {
    TakenStays(s, op, key);
  }

  /**
   * A repeated checkout is never charged again: once a key has its row, whoever checks out under
   * it and however often, the provider is not called for it.
   */
  lemma {:induction false} RetryNeverCalls(s: State, ops: seq<Op>, key: string, k: nat)
    requires ValidRun(s, ops) && OnlyRetries(s, key) && k <= |ops|
    ensures ValidRun(s, ops[..k]) && OnlyRetries(Run(s, ops[..k]), key)
    ensures k < |ops| && ops[k].CallPsp? ==>
              var t := Run(s, ops[..k]); ops[k].checkout in t.checkouts && t.checkouts[ops[k].checkout].key != key
    decreases k
  {
    PrefixValid(s, ops, k);
    if k > 0 {
      RetryNeverCalls(s, ops, key, k - 1);
      PrefixValid(s, ops, k - 1);
      assert ops[..k][..k - 1] == ops[..k - 1];
      OneStepRetries(Run(s, ops[..k - 1]), ops[k - 1], key);
    }
    if k < |ops| { OneStepRetries(Run(s, ops[..k]), ops[k], key); }
  }
}

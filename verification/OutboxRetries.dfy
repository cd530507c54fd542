/** The retry schedule of one row over every run, and how a stale replica can undo a DEAD verdict. */
module OutboxRetries {
  import opened Base
  import opened Outbox

  /** Milliseconds scheduled between the first attempt and attempt `n + 1`. */
  function TotalWait(n: nat): nat {
    if n == 0 then 0 else TotalWait(n - 1) + Backoff(n)
  }

  lemma WaitTable()
    ensures [Backoff(1), Backoff(2), Backoff(3), Backoff(4), Backoff(5), Backoff(6), Backoff(7), Backoff(8), Backoff(9)]
            == [2000, 4000, 8000, 16000, 32000, 64000, 128000, 256000, 256000]
    ensures TotalWait(MAX_ATTEMPTS - 1) == 766000
  {
    assert Pow2(4) == 16 && Pow2(6) == 64 && Pow2(8) == 256;
    assert TotalWait(3) == 14000 && TotalWait(6) == 126000;
  }

  // ---- Every publication is charged, once ----

  /** Replica `job` holds row `id`. */
  predicate Holds<E>(b: Box<E>, job: Ticket, id: nat) {
    job in b.jobs && job.row == id
  }

  /**
   * Row `id` is stored unless it is still to come, and while a replica holds it, it is the only
   * one, read the row's attempts as they are, and has no confirmation.
   */
  ghost predicate Alone<E>(b: Box<E>, id: nat) {
    && (id in b.table <==> id < |b.appended|)
    && (forall i, j | Holds(b, i, id) && Holds(b, j, id) :: i == j)
    && (forall j | Holds(b, j, id) ::
          id in b.table && b.table[id].state == Processing && b.table[id].attempts == b.jobs[j].attempts
          && b.jobs[j].outcome != Confirmed)
  }

  /** What a row's worker, whatever other rows go through, may not do: crash, be recovered from, succeed. */
  predicate Failing<E>(b: Box<E>, m: Move<E>, id: nat)
    requires m.Work? ==> Enabled(b, m.step)
  {
    m.Work? ==>
      match m.step
      case Recover(i, _) => i != id
      case Crash(lost) => forall j | j in lost :: !Holds(b, j, id)
      case Publish(job, ok) => ok ==> !Holds(b, job, id)
      case Claim(_, _, _) => true
      case Record(_, _) => true
  }

  ghost predicate FailingRun<E>(b: Box<E>, ms: seq<Move<E>>, id: nat)
    requires ValidRun(b, ms)
    decreases |ms|
  {
    ms == [] || (Failing(b, ms[0], id) && FailingRun(Do(b, ms[0]), ms[1..], id))
  }

  predicate Publishes<E>(b: Box<E>, m: Move<E>, id: nat) {
    m.Work? && m.step.Publish? && Holds(b, m.step.job, id)
  }

  /** How often the run publishes the row. */
  ghost function Tries<E>(b: Box<E>, ms: seq<Move<E>>, id: nat): nat
    requires ValidRun(b, ms)
    decreases |ms|
  {
    if ms == [] then 0
    else (if Publishes(b, ms[0], id) then 1 else 0) + Tries(Do(b, ms[0]), ms[1..], id)
  }

  ghost predicate VerdictDue<E>(b: Box<E>, id: nat) {
    exists j :: Holds(b, j, id) && b.jobs[j].outcome == Unconfirmed
  }

  /** Attempts on record and the one about to be. */
  ghost function Charged<E>(b: Box<E>, id: nat): nat {
    (if id in b.table then b.table[id].attempts else 0) + if VerdictDue(b, id) then 1 else 0
  }

  lemma OneMoveCharges<E>(b: Box<E>, m: Move<E>, id: nat)
    requires Alone(b, id) && (m.Work? ==> Enabled(b, m.step)) && Failing(b, m, id)
    ensures Alone(Do(b, m), id)
    ensures Charged(Do(b, m), id) == Charged(b, id) + if Publishes(b, m, id) then 1 else 0
  {
    var b' := Do(b, m);
    forall j | Holds(b', j, id) ensures j in b.jobs ==> Holds(b, j, id) {}
    if m.Add? || m.step.Recover? || m.step.Claim? {
      assert forall j | Holds(b, j, id) :: Holds(b', j, id) && b'.jobs[j] == b.jobs[j];
    } else if m.step.Crash? {
      assert forall j | Holds(b, j, id) :: Holds(b', j, id) && b'.jobs[j] == b.jobs[j];
    } else {
      assert forall j | Holds(b, j, id) && j != m.step.job :: Holds(b', j, id) && b'.jobs[j] == b.jobs[j];
      assert m.step.Publish? && Holds(b, m.step.job, id) ==> Holds(b', m.step.job, id);
    }
  }

  /**
   * A row whose publication never succeeds, in any run in which its worker neither crashes nor
   * is recovered from, whatever any replica does to other rows: each publication is charged
   * exactly once. A new row is published exactly ten times when it is DEAD and never more.
   */
  lemma {:induction false} PublishedExactly<E>(b: Box<E>, ms: seq<Move<E>>, id: nat)
    requires Inv(b) && Alone(b, id) && ValidRun(b, ms) && FailingRun(b, ms, id)
    ensures var b' := Run(b, ms);
            && Alone(b', id) && Charged(b, id) + Tries(b, ms, id) == Charged(b', id) <= MAX_ATTEMPTS
            && (id in b'.table && b'.table[id].state == Dead ==> Charged(b, id) + Tries(b, ms, id) == MAX_ATTEMPTS)
    decreases |ms|
  {
    if ms == [] {
      ChargedBounds(b, id);
    } else {
      OneMoveCharges(b, ms[0], id);
      DoKeepsInv(b, ms[0]);
      PublishedExactly(Do(b, ms[0]), ms[1..], id);
    }
  }

  lemma DoKeepsInv<E>(b: Box<E>, m: Move<E>)
    requires Inv(b) && (m.Work? ==> Enabled(b, m.step))
    ensures Inv(Do(b, m))
  {
    match m
    case Add(e, now) => InsertKeepsInv(b, e, now);
    case Work(s) => NextKeepsInv(b, s);
  }

  lemma ChargedBounds<E>(b: Box<E>, id: nat)
    requires Inv(b) && Alone(b, id)
    ensures Charged(b, id) <= MAX_ATTEMPTS
    ensures id in b.table && b.table[id].state == Dead ==> Charged(b, id) == MAX_ATTEMPTS
  {
    assert id in b.table ==> RowInv(b, id);
    if VerdictDue(b, id) {
      var j :| Holds(b, j, id) && b.jobs[j].outcome == Unconfirmed;
      assert JobInv(b, j);
    }
  }

  // ---- And no sooner than scheduled ----

  predicate Claims<E>(m: Move<E>, id: nat) {
    m.Work? && m.step.Claim? && m.step.id == id
  }

  lemma {:induction false} WaitsUnclaimed<E>(b: Box<E>, ms: seq<Move<E>>, id: nat)
    requires Alone(b, id) && id in b.table && b.table[id].state != Processing
    requires ValidRun(b, ms) && FailingRun(b, ms, id) && forall i | 0 <= i < |ms| :: !Claims(ms[i], id)
    ensures id in Run(b, ms).table && Run(b, ms).table[id] == b.table[id] && Alone(Run(b, ms), id)
    decreases |ms|
  {
    if ms != [] {
      OneMoveCharges(b, ms[0], id);
      WaitsUnclaimed(Do(b, ms[0]), ms[1..], id);
    }
  }

  /** After the k-th failure is recorded, the row can next be claimed from exactly `Backoff(k)` later on. */
  lemma RetryWaits<E>(b: Box<E>, job: Ticket, recordedAt: int, ms: seq<Move<E>>, next: nat, claimedAt: int)
    requires Enabled(b, Record(job, recordedAt)) && Alone(b, job.row) && b.jobs[job].attempts + 1 < MAX_ATTEMPTS
    requires var b1, id := Next(b, Record(job, recordedAt)), job.row;
             ValidRun(b1, ms) && FailingRun(b1, ms, id) && forall i | 0 <= i < |ms| :: !Claims(ms[i], id)
    ensures Enabled(Run(Next(b, Record(job, recordedAt)), ms), Claim(job.row, next, claimedAt))
            <==> claimedAt >= recordedAt + Backoff(b.jobs[job].attempts + 1)
  {
    assert Holds(b, job, job.row);
    OneMoveCharges(b, Work(Record(job, recordedAt)), job.row);
    WaitsUnclaimed(Next(b, Record(job, recordedAt)), ms, job.row);
    var c := Run(Next(b, Record(job, recordedAt)), ms);
    assert Ticket(next, job.row) in c.jobs ==> Holds(c, Ticket(next, job.row), job.row);
  }

  /** A new row can be claimed from the moment it is inserted. */
  lemma NewRowIsDue<E>(b: Box<E>, e: E, now: int, worker: nat, claimedAt: int)
    requires Inv(b)
    ensures Enabled(Insert(b, e, now), Claim(|b.appended|, worker, claimedAt)) <==> claimedAt >= now
  {
    assert Ticket(worker, |b.appended|) in b.jobs ==> JobInv(b, Ticket(worker, |b.appended|));
  }

  /** The clock after a move; the steps that read none leave it. */
  function ClockAfter<E>(m: Move<E>, clock: int): int {
    match m
    case Add(_, now) => now
    case Work(Recover(_, now)) => now
    case Work(Claim(_, _, now)) => now
    case Work(Record(_, now)) => now
    case Work(_) => clock
  }

  /** The clock never runs backwards. */
  predicate Timely<E>(ms: seq<Move<E>>, clock: int) {
    ms == [] || (clock <= ClockAfter(ms[0], clock) && Timely(ms[1..], ClockAfter(ms[0], clock)))
  }

  function FinalClock<E>(ms: seq<Move<E>>, clock: int): int {
    if ms == [] then clock else FinalClock(ms[1..], ClockAfter(ms[0], clock))
  }

  /** No attempt has started before its share of the schedule has passed since `due`. */
  predicate OnSchedule<E>(b: Box<E>, id: nat, due: int, clock: int) {
    id in b.table &&
    var r := b.table[id];
    match r.state
    case Pending => r.nextAt >= due + TotalWait(r.attempts)
    case Processing => clock >= due + TotalWait(r.attempts)
    case Dead => r.attempts > 0 && clock >= due + TotalWait(r.attempts - 1)
  }

  /** A failing row changes only when it is claimed, being due, or when its worker records the failure. */
  lemma RowMoves<E>(b: Box<E>, m: Move<E>, id: nat)
    requires Alone(b, id) && (m.Work? ==> Enabled(b, m.step)) && Failing(b, m, id) && id in b.table
    ensures id in Do(b, m).table
    ensures var r, r' := b.table[id], Do(b, m).table[id];
            || r' == r
            || (Claims(m, id) && Due(r, m.step.now) && r' == r.(state := Processing))
            || (m.Work? && m.step.Record? && r.state == Processing && r' == Retried(r, r.attempts + 1, m.step.now))
  {
  }

  lemma RetriedOnSchedule<E>(r: Row<E>, due: int, clock: int, now: int)
    requires clock >= due + TotalWait(r.attempts) && now >= clock && r.attempts < MAX_ATTEMPTS
    ensures var r' := Retried(r, r.attempts + 1, now);
            if r'.state == Dead then now >= due + TotalWait(r'.attempts - 1)
            else r'.nextAt >= due + TotalWait(r'.attempts)
  {
    assert TotalWait(r.attempts + 1) == TotalWait(r.attempts) + Backoff(r.attempts + 1);
  }

  lemma OneMoveOnSchedule<E>(b: Box<E>, m: Move<E>, id: nat, due: int, clock: int)
    requires Inv(b) && Alone(b, id) && (m.Work? ==> Enabled(b, m.step)) && Failing(b, m, id)
    requires OnSchedule(b, id, due, clock) && clock <= ClockAfter(m, clock)
    ensures OnSchedule(Do(b, m), id, due, ClockAfter(m, clock))
  {
    RowMoves(b, m, id);
    if Do(b, m).table[id] != b.table[id] && !Claims(m, id) {
      assert RowInv(b, id);
      RetriedOnSchedule(b.table[id], due, clock, m.step.now);
    }
  }

  /** The tenth attempt, and so DEAD, comes at least 766 s after a new row fell due. */
  lemma {:induction false} NeverSooner<E>(b: Box<E>, ms: seq<Move<E>>, id: nat, due: int, clock: int)
    requires Inv(b) && Alone(b, id) && ValidRun(b, ms) && FailingRun(b, ms, id)
    requires Timely(ms, clock) && OnSchedule(b, id, due, clock)
    ensures var b', r := Run(b, ms), FinalClock(ms, clock);
            && OnSchedule(b', id, due, r)
            && (b'.table[id].state == Dead
                || (b'.table[id].state == Processing && b'.table[id].attempts == MAX_ATTEMPTS - 1) ==>
                  r >= due + 766000)
    decreases |ms|
  {
    if ms == [] {
      assert RowInv(b, id);
      WaitTable();
    } else {
      OneMoveOnSchedule(b, ms[0], id, due, clock);
      OneMoveCharges(b, ms[0], id);
      DoKeepsInv(b, ms[0]);
      NeverSooner(Do(b, ms[0]), ms[1..], id, due, ClockAfter(ms[0], clock));
    }
  }

  // ---- When a slow worker can be overtaken ----

  /** The row is in the hands of this worker alone, and fell due at `due`. */
  ghost predicate HeldSince<E>(b: Box<E>, job: Ticket, due: int) {
    && job in b.jobs && (forall j | Holds(b, j, job.row) :: j == job)
    && (job.row in b.table ==> b.table[job.row].state == Processing && b.table[job.row].nextAt == due)
    && job.row < |b.appended|
  }

  /** The worker records no verdict on the row, and does not crash. */
  predicate Silent<E>(m: Move<E>, job: Ticket) {
    m.Work? ==> (m.step.Record? ==> m.step.job != job) && (m.step.Crash? ==> job !in m.step.lost)
  }

  /** While nobody recovers it the row stays in the worker's hands, and it is recovered only five minutes past due. */
  lemma OneMoveOvertakes<E>(b: Box<E>, m: Move<E>, job: Ticket, due: int)
    requires HeldSince(b, job, due) && (m.Work? ==> Enabled(b, m.step)) && Silent(m, job)
    ensures !Claims(m, job.row)
    ensures HeldSince(Do(b, m), job, due) || (m.Work? && m.step.Recover? && m.step.now > due + 300000)
  {
    var b' := Do(b, m);
    forall j | Holds(b', j, job.row) ensures j == job {
      assert j in b.jobs ==> Holds(b, j, job.row);
    }
    if m.Work? && m.step.Record? { assert m.step.job.row == job.row ==> Holds(b, m.step.job, job.row); }
  }

  lemma {:induction false} LaterOnly<E>(ms: seq<Move<E>>, clock: int, id: nat, k: nat)
    requires Timely(ms, clock) && k < |ms| && Claims(ms[k], id)
    ensures ms[k].step.now >= clock
    decreases k
  {
    if k > 0 { LaterOnly(ms[1..], ClockAfter(ms[0], clock), id, k - 1); }
  }

  lemma {:induction false} HeldUntilLate<E>(b: Box<E>, ms: seq<Move<E>>, job: Ticket, due: int, clock: int, k: nat)
    requires HeldSince(b, job, due) && ValidRun(b, ms) && Timely(ms, clock)
    requires forall i | 0 <= i < |ms| :: Silent(ms[i], job)
    requires k < |ms| && Claims(ms[k], job.row)
    ensures ms[k].step.now > due + 300000
    decreases k
  {
    OneMoveOvertakes(b, ms[0], job, due);
    if HeldSince(Do(b, ms[0]), job, due) {
      HeldUntilLate(Do(b, ms[0]), ms[1..], job, due, ClockAfter(ms[0], clock), k - 1);
    } else {
      LaterOnly(ms[1..], ClockAfter(ms[0], clock), job.row, k - 1);
    }
  }

  /**
   * Over every run, while the clock does not run back: a row claimed by a worker that then
   * neither records nor crashes is claimed by another only more than 300000 ms after it fell due.
   */
  lemma OvertakenLate<E>(b: Box<E>, id: nat, worker: nat, now: int, ms: seq<Move<E>>, k: nat)
    requires Inv(b) && Enabled(b, Claim(id, worker, now)) && forall j :: !Holds(b, j, id)
    requires ValidRun(Next(b, Claim(id, worker, now)), ms) && Timely(ms, now)
    requires forall i | 0 <= i < |ms| :: Silent(ms[i], Ticket(worker, id))
    requires k < |ms| && Claims(ms[k], id)
    ensures ms[k].step.now > b.table[id].nextAt + 300000
  {
    var claimed := Next(b, Claim(id, worker, now));
    assert RowInv(b, id);
    forall j | Holds(claimed, j, id) ensures j == Ticket(worker, id) {
      assert j in b.jobs ==> Holds(b, j, id);
    }
    HeldUntilLate(claimed, ms, Ticket(worker, id), b.table[id].nextAt, now, k);
  }

  // ---- How often a hung worker can be overtaken ----

  /** The workers that hold the row. */
  function Holders<E>(b: Box<E>, id: nat): set<nat> {
    set t | t in b.jobs && t.row == id :: t.worker
  }

  /** There are `workers` replicas. */
  predicate Staffed<E>(b: Box<E>, workers: nat) {
    forall t | t in b.jobs :: t.worker < workers
  }

  /** A claim by one of them, and no verdict on the row nor a crash of its holders. */
  predicate Overtakes<E>(b: Box<E>, m: Move<E>, id: nat, workers: nat)
    requires m.Work? ==> Enabled(b, m.step)
  {
    m.Work? ==>
      match m.step
      case Claim(_, worker, _) => worker < workers
      case Record(job, _) => job.row != id
      case Crash(lost) => forall t | t in lost :: !Holds(b, t, id)
      case Publish(_, _) => true
      case Recover(_, _) => true
  }

  ghost predicate OvertakingRun<E>(b: Box<E>, ms: seq<Move<E>>, id: nat, workers: nat)
    requires ValidRun(b, ms)
    decreases |ms|
  {
    ms == [] || (Overtakes(b, ms[0], id, workers) && OvertakingRun(Do(b, ms[0]), ms[1..], id, workers))
  }

  function ClaimsOf<E>(ms: seq<Move<E>>, id: nat): nat {
    if ms == [] then 0 else (if Claims(ms[0], id) then 1 else 0) + ClaimsOf(ms[1..], id)
  }

  lemma OneMoveHolders<E>(b: Box<E>, m: Move<E>, id: nat, workers: nat)
    requires Staffed(b, workers) && (m.Work? ==> Enabled(b, m.step)) && Overtakes(b, m, id, workers)
    ensures Staffed(Do(b, m), workers)
    ensures |Holders(Do(b, m), id)| == |Holders(b, id)| + if Claims(m, id) then 1 else 0
  {
    var b' := Do(b, m);
    forall w | w in Holders(b, id) ensures w in Holders(b', id) {
      assert Holds(b, Ticket(w, id), id) && Ticket(w, id) in b'.jobs;
    }
    forall w | w in Holders(b', id) ensures w in Holders(b, id) || (Claims(m, id) && w == m.step.worker) {
      assert Ticket(w, id) in b'.jobs;
      assert Ticket(w, id) in b.jobs ==> w in Holders(b, id);
    }
    if Claims(m, id) {
      assert Ticket(m.step.worker, id) in b'.jobs;
      assert Holders(b', id) == Holders(b, id) + {m.step.worker};
    } else {
      assert Holders(b', id) == Holders(b, id);
    }
  }

  lemma {:induction false} AtMostAll(ws: set<nat>, workers: nat)
    requires forall w | w in ws :: w < workers
    ensures |ws| <= workers
  {
    if workers > 0 {
      AtMostAll(ws - {workers - 1}, workers - 1);
      assert ws <= (ws - {workers - 1}) + {workers - 1};
      if workers - 1 in ws {
        assert |ws| == |ws - {workers - 1}| + 1;
      } else {
        assert ws - {workers - 1} == ws;
      }
    } else {
      assert ws == {};
    }
  }

  /**
   * Recovery takes a row away from a worker that is merely slow, but each overtaking claim takes
   * another worker: without a verdict or a crash, claims and holders before make holders after.
   */
  lemma {:induction false} OvertakenExactly<E>(b: Box<E>, ms: seq<Move<E>>, id: nat, workers: nat)
    requires Staffed(b, workers) && ValidRun(b, ms) && OvertakingRun(b, ms, id, workers)
    ensures Staffed(Run(b, ms), workers)
    ensures |Holders(b, id)| + ClaimsOf(ms, id) == |Holders(Run(b, ms), id)| <= workers
    decreases |ms|
  {
    if ms == [] {
      forall w | w in Holders(b, id) ensures w < workers { assert Ticket(w, id) in b.jobs; }
      AtMostAll(Holders(b, id), workers);
    } else {
      OneMoveHolders(b, ms[0], id, workers);
      OvertakenExactly(Do(b, ms[0]), ms[1..], id, workers);
    }
  }

  lemma Start<E>(b: Box<E>, m: Move<E>, ms: seq<Move<E>>)
    requires (m.Work? ==> Enabled(b, m.step)) && ValidRun(Do(b, m), ms)
    ensures ValidRun(b, [m] + ms) && Run(b, [m] + ms) == Run(Do(b, m), ms)
  {
    assert ([m] + ms)[1..] == ms;
  }

  /** Workers `from`, `from` + 1, ... claim the row one after another, each hanging until it is recovered from. */
  lemma {:induction false} EachOvertakes<E>(b: Box<E>, id: nat, from: nat, workers: nat) returns (ms: seq<Move<E>>)
    requires id in b.table && b.table[id].state == Pending && from <= workers
    requires forall t | t in b.jobs :: t.worker < from
    ensures ValidRun(b, ms) && OvertakingRun(b, ms, id, workers) && ClaimsOf(ms, id) == workers - from
    ensures Run(b, ms).confirmed == b.confirmed && forall i | 0 <= i < |ms| :: ms[i].Work?
    decreases workers - from
  {
    ms := [];
    if from < workers {
      var at := b.table[id].nextAt;
      var claim, recover: Move<E> := Work(Claim(id, from, at)), Work(Recover(id, at + STUCK_MS + 1));
      var b1 := Do(b, claim);
      var b2 := Do(b1, recover);
      ms := EachOvertakes(b2, id, from + 1, workers);
      OneMoreOvertakes(b1, recover, ms, id, workers);
      ms := [recover] + ms;
      OneMoreOvertakes(b, claim, ms, id, workers);
      ms := [claim] + ms;
    }
  }

  lemma OneMoreOvertakes<E>(b: Box<E>, m: Move<E>, ms: seq<Move<E>>, id: nat, workers: nat)
    requires (m.Work? ==> Enabled(b, m.step)) && Overtakes(b, m, id, workers)
    requires ValidRun(Do(b, m), ms) && OvertakingRun(Do(b, m), ms, id, workers)
    ensures ValidRun(b, [m] + ms) && OvertakingRun(b, [m] + ms, id, workers) && Run(b, [m] + ms) == Run(Do(b, m), ms)
    ensures ClaimsOf([m] + ms, id) == ClaimsOf(ms, id) + if Claims(m, id) then 1 else 0
  {
    assert ([m] + ms)[1..] == ms;
  }

  /** The bound is attained: from an empty outbox every worker can come to hold the first row, unpublished. */
  lemma OvertakenByAll<E>(e: E, workers: nat) returns (ms: seq<Move<E>>)
    ensures var empty: Box<E> := Box(map[], [], map[], {});
            && Staffed(empty, workers) && ValidRun(empty, ms) && OvertakingRun(empty, ms, 0, workers)
            && ClaimsOf(ms, 0) == workers == |Holders(Run(empty, ms), 0)| && Run(empty, ms).confirmed == {}
  {
    var empty: Box<E> := Box(map[], [], map[], {});
    ms := EachOvertakes(Insert(empty, e, 0), 0, 0, workers);
    OneMoreOvertakes(empty, Add(e, 0), ms, 0, workers);
    ms := [Add(e, 0)] + ms;
    assert Holders(empty, 0) == {};
    OvertakenExactly(empty, ms, 0, workers);
  }

  // ---- DEAD is not final ----

  /** A replica that claimed the row before recovery re-queued it, and is not yet done. */
  predicate OverwritesDead<E>(b: Box<E>, s: Step, id: nat)
    requires Enabled(b, s)
  {
    s.Record? && s.job.row == id
    && (b.jobs[s.job].outcome == Confirmed || b.jobs[s.job].attempts + 1 < MAX_ATTEMPTS)
  }

  /** A DEAD row stays DEAD through a step exactly when the step is not such a replica's verdict. */
  lemma DeadStaysExactly<E>(b: Box<E>, s: Step, id: nat)
    requires Inv(b) && Enabled(b, s) && id in b.table && b.table[id].state == Dead
    ensures (id in Next(b, s).table && Next(b, s).table[id].state == Dead) <==> !OverwritesDead(b, s, id)
  {
    assert RowInv(b, id);
    if s.Record? { assert JobInv(b, s.job); }
  }

  /** A replica attempts a due row as soon as it falls due, and fails, until the row is DEAD. */
  lemma {:induction false} FailsOut<E>(b: Box<E>, id: nat, worker: nat, n: nat) returns (ms: seq<Move<E>>)
    requires id in b.table && b.table[id].state == Pending && Ticket(worker, id) !in b.jobs
    requires n > 0 && b.table[id].attempts + n == MAX_ATTEMPTS
    ensures ValidRun(b, ms) && Run(b, ms).jobs == b.jobs
    ensures id in Run(b, ms).table && Run(b, ms).table[id].state == Dead
    decreases n
  {
    var t, r := b.table[id].nextAt, b.table[id];
    var job := Ticket(worker, id);
    var b1 := Next(b, Claim(id, worker, t));
    var b2 := Next(b1, Publish(job, false));
    var b3 := Next(b2, Record(job, t));
    assert b3.jobs == b.jobs;
    ms := [];
    assert ValidRun(b3, ms);
    if n > 1 {
      ms := FailsOut(b3, id, worker, n - 1);
    }
    Start(b2, Work(Record(job, t)), ms);
    ms := [Work(Record(job, t))] + ms;
    Start(b1, Work(Publish(job, false)), ms);
    ms := [Work(Publish(job, false))] + ms;
    Start(b, Work(Claim(id, worker, t)), ms);
    ms := [Work(Claim(id, worker, t))] + ms;
  }

  /** From an empty outbox: a slow replica brings a DEAD row back to PENDING with one attempt on record. */
  lemma DeadRevived<E>(e: E) returns (toDead: seq<Move<E>>, after: seq<Move<E>>)
    ensures var empty: Box<E> := Box(map[], [], map[], {});
            && ValidRun(empty, toDead)
            && var dead := Run(empty, toDead);
               && 0 in dead.table && dead.table[0].state == Dead && ValidRun(dead, after)
               && var revived := Run(dead, after);
                  0 in revived.table && revived.table[0].state == Pending && revived.table[0].attempts == 1
  {
    var empty: Box<E> := Box(map[], [], map[], {});
    var b1 := Insert(empty, e, 0);
    var b2 := Next(b1, Claim(0, 0, 0));
    var b3 := Next(b2, Recover(0, 300001));
    toDead := FailsOut(b3, 0, 1, MAX_ATTEMPTS);
    var dead := Run(b3, toDead);
    Start(b2, Work(Recover(0, 300001)), toDead);
    toDead := [Work(Recover(0, 300001))] + toDead;
    Start(b1, Work(Claim(0, 0, 0)), toDead);
    toDead := [Work(Claim(0, 0, 0))] + toDead;
    Start(empty, Add(e, 0), toDead);
    toDead := [Add(e, 0)] + toDead;
    assert dead.jobs == map[Ticket(0, 0) := Job(e, 0, Unpublished)];
    after := SlowReplicaRecords(dead, e);
  }

  lemma SlowReplicaRecords<E>(dead: Box<E>, e: E) returns (ms: seq<Move<E>>)
    requires 0 in dead.table && dead.jobs == map[Ticket(0, 0) := Job(e, 0, Unpublished)]
    ensures ValidRun(dead, ms)
    ensures var revived := Run(dead, ms);
            0 in revived.table && revived.table[0].state == Pending && revived.table[0].attempts == 1
  {
    var failed := Next(dead, Publish(Ticket(0, 0), false));
    var revived := Next(failed, Record(Ticket(0, 0), 1200000));
    ms := [];
    assert ValidRun(revived, ms);
    Start(failed, Work(Record(Ticket(0, 0), 1200000)), ms);
    ms := [Work(Record(Ticket(0, 0), 1200000))] + ms;
    Start(dead, Work(Publish(Ticket(0, 0), false)), ms);
    ms := [Work(Publish(Ticket(0, 0), false))] + ms;
  }
}

/**
 * An outbox relayed by a fixed number of workers, left alone, comes to rest: recovery of rows
 * a worker still holds included, every step but a crash lowers a weight.
 */
module RelayTermination {
  import opened Base
  import opened Outbox
  import opened OutboxRetries

  /**
   * What one more attempt at a row with this many on record can still cost: a claim, a
   * publication with its message, a record, and each worker claiming the row it leaves.
   */
  function AttemptWeight(attempts: nat, workers: nat): (w: nat)
    ensures w >= 6
    decreases MAX_ATTEMPTS - attempts
  {
    if attempts + 1 >= MAX_ATTEMPTS then 6 else Times(workers, AttemptWeight(attempts + 1, workers) + 2) + 6
  }

  /** How many workers could still come to claim the row. */
  function Free<E>(b: Box<E>, id: nat, workers: nat): nat {
    if |Holders(b, id)| <= workers then workers - |Holders(b, id)| else 0
  }

  function RowWeight<E>(b: Box<E>, id: nat, workers: nat): nat
    requires id in b.table
  {
    var r := b.table[id];
    match r.state
    case Pending => Times(Free(b, id, workers), AttemptWeight(r.attempts, workers) + 2)
    case Processing => Times(Free(b, id, workers), AttemptWeight(r.attempts, workers) + 2) + 1
    case Dead => 0
  }

  function JobWeight<E>(j: Job<E>, workers: nat): nat {
    AttemptWeight(j.attempts, workers) - if j.outcome == Unpublished then 0 else 2
  }

  function Rows<E>(b: Box<E>, workers: nat): map<nat, nat> {
    map id | id in b.table :: RowWeight(b, id, workers)
  }

  function Jobs<E>(b: Box<E>, workers: nat): map<Ticket, nat> {
    map job | job in b.jobs :: JobWeight(b.jobs[job], workers)
  }

  ghost function BoxWeight<E>(b: Box<E>, workers: nat): nat {
    Sum(Rows(b, workers)) + Sum(Jobs(b, workers))
  }

  /** What a new row weighs. */
  function NewRow(workers: nat): nat {
    Times(workers, AttemptWeight(0, workers) + 2)
  }

  /** Any step but a crash, by one of the workers. */
  predicate ByWorkers(s: Step, workers: nat) {
    !s.Crash? && (s.Claim? ==> s.worker < workers)
  }

  /** Rows other than the one a step is about weigh the same. */
  lemma SameRow<E>(b: Box<E>, b': Box<E>, id: nat, workers: nat)
    requires id in b.table && id in b'.table && b'.table[id] == b.table[id]
    requires forall t: Ticket | t.row == id :: t in b.jobs <==> t in b'.jobs
    ensures RowWeight(b', id, workers) == RowWeight(b, id, workers)
  {
    SameHolders(b, b', id);
  }

  lemma SameHolders<E>(b: Box<E>, b': Box<E>, id: nat)
    requires forall t: Ticket | t.row == id :: t in b.jobs <==> t in b'.jobs
    ensures Holders(b', id) == Holders(b, id)
  {
    forall w ensures w in Holders(b', id) <==> w in Holders(b, id) {
      assert Ticket(w, id) in b.jobs <==> Ticket(w, id) in b'.jobs;
    }
  }

  lemma HoldersBounded<E>(b: Box<E>, id: nat, workers: nat)
    requires Staffed(b, workers)
    ensures |Holders(b, id)| <= workers
  {
    forall w | w in Holders(b, id) ensures w < workers { assert Ticket(w, id) in b.jobs; }
    AtMostAll(Holders(b, id), workers);
  }

  /** A step that leaves the other rows and the jobs on them alone. */
  ghost predicate OnlyAbout<E>(b: Box<E>, b': Box<E>, id: nat) {
    && (forall i | i != id :: i in b.table <==> i in b'.table)
    && (forall i | i in b.table && i != id :: b'.table[i] == b.table[i])
    && (forall t: Ticket | t.row != id :: t in b.jobs <==> t in b'.jobs)
  }

  lemma OneRowWeighs<E>(b: Box<E>, b': Box<E>, id: nat, workers: nat)
    requires OnlyAbout(b, b', id)
    ensures Sum(Rows(b', workers)) + (if id in b.table then RowWeight(b, id, workers) else 0)
            == Sum(Rows(b, workers)) + if id in b'.table then RowWeight(b', id, workers) else 0
  {
    forall i | i in b.table && i != id { SameRow(b, b', i, workers); }
    RowsDiffer(Rows(b, workers), Rows(b', workers), id);
  }

  lemma RowsDiffer(rows: map<nat, nat>, rows': map<nat, nat>, id: nat)
    requires forall i | i != id :: (i in rows <==> i in rows') && (i in rows ==> rows'[i] == rows[i])
    ensures Sum(rows') + (if id in rows then rows[id] else 0) == Sum(rows) + if id in rows' then rows'[id] else 0
  {
    if id in rows' {
      assert rows' == rows[id := rows'[id]];
      SumUpdate(rows, id, rows'[id]);
    } else if id in rows {
      assert rows' == rows - {id};
      SumRemove(rows, id);
    } else {
      assert rows' == rows;
    }
  }

  lemma RecoveredRow<E>(b: Box<E>, id: nat, now: int, workers: nat)
    requires Enabled(b, Recover(id, now))
    ensures RowWeight(Next(b, Recover(id, now)), id, workers) + 1 == RowWeight(b, id, workers)
  {
    SameHolders(b, Next(b, Recover(id, now)), id);
  }

  lemma RecoveredRows<E>(b: Box<E>, id: nat, now: int, workers: nat)
    requires Enabled(b, Recover(id, now))
    ensures Sum(Rows(Next(b, Recover(id, now)), workers)) + 1 == Sum(Rows(b, workers))
  {
    RecoveredRow(b, id, now, workers);
    OneRowWeighs(b, Next(b, Recover(id, now)), id, workers);
  }

  lemma RecoverFalls<E>(b: Box<E>, id: nat, now: int, workers: nat)
    requires Enabled(b, Recover(id, now))
    ensures BoxWeight(Next(b, Recover(id, now)), workers) + 1 == BoxWeight(b, workers)
  {
    RecoveredRows(b, id, now, workers);
    assert Jobs(Next(b, Recover(id, now)), workers) == Jobs(b, workers);
  }

  /** A claim takes one of the row's claims to come, and the row must be recovered before the next. */
  lemma ClaimedRow<E>(b: Box<E>, id: nat, worker: nat, now: int, workers: nat)
    requires Staffed(b, workers) && Enabled(b, Claim(id, worker, now)) && worker < workers
    ensures var b' := Next(b, Claim(id, worker, now));
            RowWeight(b', id, workers) + AttemptWeight(b.table[id].attempts, workers) + 1 == RowWeight(b, id, workers)
  {
    var b', m: Move<E> := Next(b, Claim(id, worker, now)), Work(Claim(id, worker, now));
    OneMoveHolders(b, m, id, workers);
    HoldersBounded(b, id, workers);
    HoldersBounded(b', id, workers);
  }

  lemma ClaimedRows<E>(b: Box<E>, id: nat, worker: nat, now: int, workers: nat)
    requires Staffed(b, workers) && Enabled(b, Claim(id, worker, now)) && worker < workers
    ensures Sum(Rows(Next(b, Claim(id, worker, now)), workers)) + AttemptWeight(b.table[id].attempts, workers) + 1
            == Sum(Rows(b, workers))
  {
    ClaimedRow(b, id, worker, now, workers);
    OneRowWeighs(b, Next(b, Claim(id, worker, now)), id, workers);
  }

  lemma ClaimedJobs<E>(b: Box<E>, id: nat, worker: nat, now: int, workers: nat)
    requires Enabled(b, Claim(id, worker, now))
    ensures Sum(Jobs(Next(b, Claim(id, worker, now)), workers))
            == Sum(Jobs(b, workers)) + AttemptWeight(b.table[id].attempts, workers)
  {
    var w := AttemptWeight(b.table[id].attempts, workers);
    assert Jobs(Next(b, Claim(id, worker, now)), workers) == Jobs(b, workers)[Ticket(worker, id) := w];
    SumUpdate(Jobs(b, workers), Ticket(worker, id), w);
  }

  lemma ClaimFalls<E>(b: Box<E>, id: nat, worker: nat, now: int, workers: nat)
    requires Staffed(b, workers) && Enabled(b, Claim(id, worker, now)) && worker < workers
    ensures BoxWeight(Next(b, Claim(id, worker, now)), workers) + 1 == BoxWeight(b, workers)
  {
    ClaimedRows(b, id, worker, now, workers);
    ClaimedJobs(b, id, worker, now, workers);
  }

  lemma PublishFalls<E>(b: Box<E>, job: Ticket, ok: bool, workers: nat)
    requires Enabled(b, Publish(job, ok))
    ensures BoxWeight(Next(b, Publish(job, ok)), workers) + 2 == BoxWeight(b, workers)
  {
    var b' := Next(b, Publish(job, ok));
    forall i | i in b.table { SameRow(b, b', i, workers); }
    assert Rows(b', workers) == Rows(b, workers);
    var w := AttemptWeight(b.jobs[job].attempts, workers) - 2;
    assert Jobs(b', workers) == Jobs(b, workers)[job := w];
    SumUpdate(Jobs(b, workers), job, w);
  }

  /** However stale the job, the row it leaves weighs less than the job did. */
  lemma RecordedRow<E>(b: Box<E>, job: Ticket, now: int, workers: nat)
    requires Inv(b) && Staffed(b, workers) && Enabled(b, Record(job, now))
    requires var b' := Next(b, Record(job, now)); job.row in b'.table
    ensures RowWeight(Next(b, Record(job, now)), job.row, workers) + 1 <= JobWeight(b.jobs[job], workers)
  {
    var b', j := Next(b, Record(job, now)), b.jobs[job];
    assert JobInv(b, job);
    if b'.table[job.row].state == Pending {
      TimesAtMost(Free(b', job.row, workers), workers, AttemptWeight(j.attempts + 1, workers) + 2);
    }
  }

  lemma RecordedRows<E>(b: Box<E>, job: Ticket, now: int, workers: nat)
    requires Inv(b) && Staffed(b, workers) && Enabled(b, Record(job, now))
    ensures Sum(Rows(Next(b, Record(job, now)), workers)) + 1 <= Sum(Rows(b, workers)) + JobWeight(b.jobs[job], workers)
  {
    OneRowWeighs(b, Next(b, Record(job, now)), job.row, workers);
    if job.row in Next(b, Record(job, now)).table { RecordedRow(b, job, now, workers); }
  }

  lemma RecordFalls<E>(b: Box<E>, job: Ticket, now: int, workers: nat)
    requires Inv(b) && Staffed(b, workers) && Enabled(b, Record(job, now))
    ensures BoxWeight(Next(b, Record(job, now)), workers) + 1 <= BoxWeight(b, workers)
  {
    RecordedRows(b, job, now, workers);
    assert Jobs(Next(b, Record(job, now)), workers) == Jobs(b, workers) - {job};
    SumRemove(Jobs(b, workers), job);
  }

  /** Every step of the relay but a crash falls, recovery of a row that is still held included. */
  lemma RelayFalls<E>(b: Box<E>, step: Step, workers: nat)
    requires Inv(b) && Staffed(b, workers) && Enabled(b, step) && ByWorkers(step, workers)
    ensures BoxWeight(Next(b, step), workers) + (if step.Publish? then 2 else 1) <= BoxWeight(b, workers)
  {
    match step
    case Recover(id, now) => RecoverFalls(b, id, now, workers);
    case Claim(id, worker, now) => ClaimFalls(b, id, worker, now, workers);
    case Publish(job, ok) => PublishFalls(b, job, ok, workers);
    case Record(job, now) => RecordFalls(b, job, now, workers);
  }

  lemma InsertWeighsOne<E>(b: Box<E>, e: E, now: int, workers: nat)
    requires Inv(b)
    ensures BoxWeight(Insert(b, e, now), workers) <= BoxWeight(b, workers) + NewRow(workers)
  {
    var d, id := Insert(b, e, now), |b.appended|;
    OneRowWeighs(b, d, id, workers);
    NewRowWeighs(b, e, now, workers);
    assert Jobs(d, workers) == Jobs(b, workers);
  }

  lemma NewRowWeighs<E>(b: Box<E>, e: E, now: int, workers: nat)
    requires Inv(b)
    ensures RowWeight(Insert(b, e, now), |b.appended|, workers) == NewRow(workers)
  {
    forall t | t in b.jobs ensures t.row != |b.appended| { assert JobInv(b, t); }
    assert Holders(Insert(b, e, now), |b.appended|) == {};
  }

  lemma {:induction false} InsertWeighs<E>(b: Box<E>, es: seq<E>, now: int, workers: nat)
    requires Inv(b)
    ensures BoxWeight(InsertAll(b, es, now), workers) <= BoxWeight(b, workers) + Times(|es|, NewRow(workers))
    ensures Staffed(b, workers) ==> Staffed(InsertAll(b, es, now), workers)
  {
    if es != [] {
      var pre := es[..|es| - 1];
      InsertWeighs(b, pre, now, workers);
      InsertAllKeepsInv(b, pre, now);
      InsertWeighsOne(InsertAll(b, pre, now), es[|es| - 1], now, workers);
    }
  }

  // ---- Where the relay comes to rest ----

  /** Whatever rows remain were given up as DEAD. */
  predicate AtRest<E(!new)>(b: Box<E>) {
    b.jobs == map[] && forall id | id in b.table :: b.table[id].state == Dead
  }

  /** As long as anything else is left, a step is due. */
  lemma WorkLeft<E(!new)>(b: Box<E>, workers: nat) returns (step: Step)
    requires workers > 0 && !AtRest(b)
    ensures Enabled(b, step) && ByWorkers(step, workers)
  {
    if b.jobs != map[] {
      var job :| job in b.jobs;
      step := if b.jobs[job].outcome == Unpublished then Publish(job, false) else Record(job, 0);
    } else {
      var id :| id in b.table && b.table[id].state != Dead;
      var at := b.table[id].nextAt;
      step := if b.table[id].state == Pending then Claim(id, 0, at) else Recover(id, at + STUCK_MS + 1);
    }
  }
}

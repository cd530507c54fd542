/**
 * The transactional outbox shared by both services: rows, the in-memory jobs of any number
 * of worker replicas, and the broker's confirmations. Recovery, claim, publish and record
 * are separate steps, so replicas interleave freely and may crash between any two of them.
 */
module Outbox {
  const MAX_ATTEMPTS: nat := 10
  const STUCK_MS: nat := 300000
  const DEAD_DELAY_MS: nat := 3600000

  datatype RowState = Pending | Processing | Dead

  datatype Row<E> = Row(payload: E, state: RowState, attempts: nat, nextAt: int)

  datatype Outcome = Unpublished | Confirmed | Unconfirmed

  /**
   * What names a claimed row in a worker's memory. A worker works on a row at most once at a
   * time: a batch has no row twice, and while a tick runs, or hangs, the next ones return at once.
   */
  datatype Ticket = Ticket(worker: nat, row: nat)

  /** The row's columns as they were at the claim, and what became of the publication. */
  datatype Job<E> = Job(payload: E, attempts: nat, outcome: Outcome)

  /**
   * `appended[i]` is the payload ever inserted under id `i`; `confirmed` holds the ids whose
   * publication the broker confirmed at least once.
   */
  datatype Box<E> = Box(table: map<nat, Row<E>>, appended: seq<E>, jobs: map<Ticket, Job<E>>, confirmed: set<nat>)

  function Backoff(attempts: nat): nat {
    1000 * Pow2(if attempts < 8 then attempts else 8)
  }

  function Pow2(n: nat): nat {
    if n == 0 then 1 else 2 * Pow2(n - 1)
  }

  function Insert<E>(b: Box<E>, e: E, now: int): Box<E> {
    b.(table := b.table[|b.appended| := Row(e, Pending, 0, now)], appended := b.appended + [e])
  }

  function InsertAll<E>(b: Box<E>, es: seq<E>, now: int): Box<E> {
    if es == [] then b else Insert(InsertAll(b, es[..|es| - 1], now), es[|es| - 1], now)
  }

  datatype Step =
    | Recover(id: nat, now: int)
    | Claim(id: nat, worker: nat, now: int)
    | Publish(job: Ticket, ok: bool)
    | Record(job: Ticket, now: int)
    | Crash(lost: set<Ticket>)

  predicate Stuck<E>(r: Row<E>, now: int) {
    r.state == Processing && r.nextAt < now - STUCK_MS
  }

  predicate Due<E>(r: Row<E>, now: int) {
    r.state == Pending && r.nextAt <= now
  }

  predicate Enabled<E>(b: Box<E>, s: Step) {
    match s
    case Recover(id, now) => id in b.table && Stuck(b.table[id], now)
    case Claim(id, worker, now) => id in b.table && Due(b.table[id], now) && Ticket(worker, id) !in b.jobs
    case Publish(job, _) => job in b.jobs && b.jobs[job].outcome == Unpublished
    case Record(job, _) => job in b.jobs && b.jobs[job].outcome != Unpublished
    case Crash(_) => true
  }

  /** The row a failed attempt leaves, computed from the attempts the worker read at its claim. */
  function Retried<E>(r: Row<E>, attempts: nat, now: int): Row<E> {
    if attempts >= MAX_ATTEMPTS
    then r.(state := Dead, attempts := attempts, nextAt := now + DEAD_DELAY_MS)
    else r.(state := Pending, attempts := attempts, nextAt := now + Backoff(attempts))
  }

  function Next<E>(b: Box<E>, s: Step): Box<E>
    requires Enabled(b, s)
  {
    match s
    case Recover(id, now) => b.(table := b.table[id := b.table[id].(state := Pending, nextAt := now)])
    case Claim(id, worker, now) =>
      var r := b.table[id];
      b.(table := b.table[id := r.(state := Processing)],
         jobs := b.jobs[Ticket(worker, id) := Job(r.payload, r.attempts, Unpublished)])
    case Publish(job, ok) =>
      var j := b.jobs[job];
      b.(jobs := b.jobs[job := j.(outcome := if ok then Confirmed else Unconfirmed)],
         confirmed := if ok then b.confirmed + {job.row} else b.confirmed)
    case Record(job, now) =>
      var j := b.jobs[job];
      var table :=
        if j.outcome == Confirmed then b.table - {job.row}
        else if job.row in b.table then b.table[job.row := Retried(b.table[job.row], j.attempts + 1, now)]
        else b.table;
      b.(table := table, jobs := b.jobs - {job})
    case Crash(lost) => b.(jobs := b.jobs - lost)
  }

  // ---- What every interleaving keeps ----

  ghost predicate RowInv<E>(b: Box<E>, id: nat)
    requires id in b.table
  {
    var r := b.table[id];
    id < |b.appended| && r.payload == b.appended[id] && r.attempts <= MAX_ATTEMPTS
    && (r.state == Dead <==> r.attempts == MAX_ATTEMPTS)
  }

  ghost predicate JobInv<E>(b: Box<E>, job: Ticket)
    requires job in b.jobs
  {
    var j := b.jobs[job];
    job.row < |b.appended| && j.payload == b.appended[job.row] && j.attempts < MAX_ATTEMPTS
    && (j.outcome == Confirmed ==> job.row in b.confirmed)
  }

  ghost predicate Inv<E>(b: Box<E>) {
    && (forall id | id in b.table :: RowInv(b, id))
    && (forall job | job in b.jobs :: JobInv(b, job))
    && (forall id | id in b.confirmed :: id < |b.appended|)
    && (forall id: nat | id < |b.appended| :: id in b.table || id in b.confirmed)
  }

  lemma InsertKeepsInv<E>(b: Box<E>, e: E, now: int)
    requires Inv(b)
    ensures Inv(Insert(b, e, now))
  {
    var b' := Insert(b, e, now);
    forall id | id in b'.table ensures RowInv(b', id) {
      assert id in b.table ==> RowInv(b, id);
    }
    forall job | job in b'.jobs ensures JobInv(b', job) {
      assert JobInv(b, job);
    }
  }

  lemma {:induction false} InsertAllKeepsInv<E>(b: Box<E>, es: seq<E>, now: int)
    requires Inv(b)
    ensures Inv(InsertAll(b, es, now)) && InsertAll(b, es, now).appended == b.appended + es
    ensures InsertAll(b, es, now).jobs == b.jobs && InsertAll(b, es, now).confirmed == b.confirmed
  {
    if es != [] {
      InsertAllKeepsInv(b, es[..|es| - 1], now);
      InsertKeepsInv(InsertAll(b, es[..|es| - 1], now), es[|es| - 1], now);
      assert es == es[..|es| - 1] + [es[|es| - 1]];
    }
  }

  lemma NextKeepsInv<E>(b: Box<E>, s: Step)
    requires Inv(b) && Enabled(b, s)
    ensures Inv(Next(b, s)) && Next(b, s).appended == b.appended && b.confirmed <= Next(b, s).confirmed
  {
    var b' := Next(b, s);
    forall id | id in b'.table ensures RowInv(b', id) {
      assert RowInv(b, id);
      if s.Record? { assert JobInv(b, s.job); }
    }
    forall job | job in b'.jobs ensures JobInv(b', job) {
      assert job in b.jobs ==> JobInv(b, job);
      if s.Claim? { assert RowInv(b, s.id); }
    }
    if s.Publish? || s.Record? { assert JobInv(b, s.job); }
  }

  datatype Move<E> = Add(e: E, now: int) | Work(step: Step)

  ghost predicate ValidRun<E>(b: Box<E>, ms: seq<Move<E>>)
    decreases |ms|
  {
    ms == [] || ((ms[0].Work? ==> Enabled(b, ms[0].step)) && ValidRun(Do(b, ms[0]), ms[1..]))
  }

  function Do<E>(b: Box<E>, m: Move<E>): Box<E>
    requires m.Work? ==> Enabled(b, m.step)
  {
    if m.Add? then Insert(b, m.e, m.now) else Next(b, m.step)
  }

  ghost function Run<E>(b: Box<E>, ms: seq<Move<E>>): Box<E>
    requires ValidRun(b, ms)
    decreases |ms|
  {
    if ms == [] then b else Run(Do(b, ms[0]), ms[1..])
  }

  /**
   * No event is lost: over any interleaving of replicas, recoveries and crashes, every
   * payload ever inserted is still in its row or was confirmed by the broker, and every
   * row keeps 0 <= attempts <= 10 with DEAD exactly at 10.
   */
  lemma {:induction false} NothingLost<E>(b: Box<E>, ms: seq<Move<E>>)
    requires Inv(b) && ValidRun(b, ms)
    ensures var b' := Run(b, ms);
            && Inv(b') && b.appended <= b'.appended
            && (forall id: nat | id < |b'.appended| ::
                  id in b'.confirmed || (id in b'.table && b'.table[id].payload == b'.appended[id]))
            && (forall id | id in b'.table ::
                  b'.table[id].attempts <= MAX_ATTEMPTS
                      && (b'.table[id].state == Dead <==> b'.table[id].attempts == MAX_ATTEMPTS))
    decreases |ms|
  {
    if ms == [] {
      forall id | id in b.table ensures RowInv(b, id) {}
    } else {
      match ms[0] {
        case Add(e, now) => InsertKeepsInv(b, e, now);
        case Work(s) => NextKeepsInv(b, s);
      }
      NothingLost(Do(b, ms[0]), ms[1..]);
    }
  }
}

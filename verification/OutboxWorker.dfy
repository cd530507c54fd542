/**
 * The outbox worker's `tick` over a mutable table. Undisturbed, it is one of the
 * interleavings the outbox's step system ranges over, and its effect on every row is stated.
 */
module OutboxWorker {
  import opened Base
  import OB = Outbox
  import opened Outbox

  const CLAIM_LIMIT: nat := 100

  function Recovered<E>(t: map<nat, Row<E>>, now: int): map<nat, Row<E>> {
    map id | id in t :: if Stuck(t[id], now) then t[id].(state := Pending, nextAt := now) else t[id]
  }

  /** What the claiming SELECT may return: due rows, oldest first, at most a hundred, and none only if none is due. */
  predicate ClaimBatch<E>(t: map<nat, Row<E>>, batch: seq<nat>, now: int) {
    && |batch| <= CLAIM_LIMIT
    && (forall i | 0 <= i < |batch| :: batch[i] in t && Due(t[batch[i]], now))
    && (forall i, j | 0 <= i < j < |batch| :: batch[i] != batch[j] && t[batch[i]].nextAt <= t[batch[j]].nextAt)
    && (batch == [] ==> forall id | id in t :: !Due(t[id], now))
  }

  function Claimed<E>(t: map<nat, Row<E>>, batch: seq<nat>): map<nat, Row<E>> {
    map id | id in t :: if id in batch then t[id].(state := Processing) else t[id]
  }

  function JobOf<E>(t: map<nat, Row<E>>, id: nat): Job<E>
    requires id in t
  {
    Job(t[id].payload, t[id].attempts, Unpublished)
  }

  /** The jobs of a batch claimed by worker `me`. */
  function BatchJobs<E>(t: map<nat, Row<E>>, batch: seq<nat>, me: nat): map<Ticket, Job<E>>
    requires forall i | 0 <= i < |batch| :: batch[i] in t
  {
    if batch == [] then map[]
    else BatchJobs(t, batch[..|batch| - 1], me)[Ticket(me, batch[|batch| - 1]) := JobOf(t, batch[|batch| - 1])]
  }

  predicate HasJob<E(==)>(jobs: map<Ticket, Job<E>>, t: map<nat, Row<E>>, batch: seq<nat>, me: nat, k: nat)
    requires k < |batch| && batch[k] in t
  {
    Ticket(me, batch[k]) in jobs && jobs[Ticket(me, batch[k])] == JobOf(t, batch[k])
  }

  /** What worker `me` holds is the batch from its `i`-th row on. */
  predicate MineLeft<E>(jobs: map<Ticket, Job<E>>, batch: seq<nat>, me: nat, i: nat)
    requires i <= |batch|
  {
    forall t | t in jobs && t.worker == me :: exists k :: i <= k < |batch| && batch[k] == t.row
  }

  lemma {:induction false} JobsAt<E>(t: map<nat, Row<E>>, batch: seq<nat>, me: nat)
    requires forall i | 0 <= i < |batch| :: batch[i] in t
    ensures MineLeft(BatchJobs(t, batch, me), batch, me, 0)
    ensures forall j | j in BatchJobs(t, batch, me) :: j.worker == me
    ensures forall k | 0 <= k < |batch| :: HasJob(BatchJobs(t, batch, me), t, batch, me, k)
  {
    if batch != [] {
      var n := |batch| - 1;
      JobsAt(t, batch[..n], me);
      forall k | 0 <= k < |batch| ensures HasJob(BatchJobs(t, batch, me), t, batch, me, k) {
        assert k < n ==> HasJob(BatchJobs(t, batch[..n], me), t, batch[..n], me, k);
      }
      forall j | j in BatchJobs(t, batch, me) ensures exists k :: 0 <= k < |batch| && batch[k] == j.row {
        if j in BatchJobs(t, batch[..n], me) {
          var k :| 0 <= k < n && batch[..n][k] == j.row;
          assert batch[k] == j.row;
        } else {
          assert batch[n] == j.row;
        }
      }
    }
  }

  lemma JobsAdded<E>(jobs: map<Ticket, Job<E>>, t: map<nat, Row<E>>, batch: seq<nat>, me: nat)
    requires (forall i | 0 <= i < |batch| :: batch[i] in t) && forall j | j in jobs :: j.worker != me
    ensures var all := jobs + BatchJobs(t, batch, me);
            MineLeft(all, batch, me, 0) && forall k | 0 <= k < |batch| :: HasJob(all, t, batch, me, k)
  {
    JobsAt(t, batch, me);
    forall k | 0 <= k < |batch| ensures HasJob(jobs + BatchJobs(t, batch, me), t, batch, me, k) {
      assert HasJob(BatchJobs(t, batch, me), t, batch, me, k);
    }
  }

  // ---- Set-at-a-time statements are runs of single-row steps ----

  lemma {:induction false} RunAppend<E>(b: Box<E>, ms: seq<Move<E>>, s: Step)
    requires ValidRun(b, ms) && OB.Enabled(Run(b, ms), s)
    ensures ValidRun(b, ms + [Work(s)]) && Run(b, ms + [Work(s)]) == OB.Next(Run(b, ms), s)
    decreases |ms|
  {
    if ms == [] {
      var one: seq<Move<E>> := [Work(s)];
      assert ms + one == one && one[1..] == [];
      assert ValidRun(OB.Next(b, s), []);
    } else {
      assert (ms + [Work(s)])[1..] == ms[1..] + [Work(s)];
      RunAppend(Do(b, ms[0]), ms[1..], s);
    }
  }

  /** The rows of `ids` re-queued, the others as they are. */
  function RecoveredOf<E>(t: map<nat, Row<E>>, ids: set<nat>, now: int): map<nat, Row<E>> {
    map id | id in t :: if id in ids then t[id].(state := Pending, nextAt := now) else t[id]
  }

  lemma {:induction false} RecoverIsRun<E>(b: Box<E>, ids: set<nat>, now: int) returns (ms: seq<Move<E>>)
    requires forall id | id in ids :: id in b.table && Stuck(b.table[id], now)
    ensures ValidRun(b, ms) && Run(b, ms) == b.(table := RecoveredOf(b.table, ids, now))
    ensures forall id | id in ids :: Work(Recover(id, now)) in ms
    decreases |ids|
  {
    if ids == {} {
      ms := [];
      assert RecoveredOf(b.table, ids, now) == b.table;
    } else {
      var id :| id in ids;
      ms := RecoverIsRun(b, ids - {id}, now);
      RunAppend(b, ms, Recover(id, now));
      assert RecoveredOf(b.table, ids, now)
          == RecoveredOf(b.table, ids - {id}, now)[id := b.table[id].(state := Pending, nextAt := now)];
      ms := ms + [Work(Recover(id, now))];
    }
  }

  lemma {:induction false} ClaimIsRun<E>(b: Box<E>, batch: seq<nat>, me: nat, now: int) returns (ms: seq<Move<E>>)
    requires forall i | 0 <= i < |batch| :: batch[i] in b.table && Due(b.table[batch[i]], now)
    requires forall i, j | 0 <= i < j < |batch| :: batch[i] != batch[j]
    requires forall j | j in b.jobs :: j.worker != me
    ensures ValidRun(b, ms)
    ensures Run(b, ms) == WithClaims(b, batch, me)
    ensures ClaimsAll(ms, batch, me, now)
  {
    if batch == [] {
      ms := [];
      assert Claimed(b.table, batch) == b.table && b.jobs + BatchJobs(b.table, batch, me) == b.jobs;
    } else {
      var n := |batch| - 1;
      var pre, id := batch[..n], batch[n];
      ms := ClaimIsRun(b, pre, me, now);
      assert batch == pre + [id] && id !in pre;
      ClaimLast(b, ms, pre, id, me, now);
      MoreClaims(ms, pre, id, me, now);
      ms := ms + [Work(Claim(id, me, now))];
    }
  }

  ghost predicate ClaimsAll<E>(ms: seq<Move<E>>, batch: seq<nat>, me: nat, now: int) {
    forall k | 0 <= k < |batch| :: Work(Claim(batch[k], me, now)) in ms
  }

  lemma MoreClaims<E>(ms: seq<Move<E>>, pre: seq<nat>, id: nat, me: nat, now: int)
    requires ClaimsAll(ms, pre, me, now)
    ensures ClaimsAll(ms + [Work(Claim(id, me, now))], pre + [id], me, now)
  {
    forall k | 0 <= k < |pre| ensures Work(Claim((pre + [id])[k], me, now)) in ms + [Work(Claim(id, me, now))] {
      assert Work(Claim(pre[k], me, now)) in ms;
    }
  }

  lemma ClaimLast<E>(b: Box<E>, ms: seq<Move<E>>, pre: seq<nat>, id: nat, me: nat, now: int)
    requires (forall i | 0 <= i < |pre| :: pre[i] in b.table) && id in b.table && id !in pre && Due(b.table[id], now)
    requires forall j | j in b.jobs :: j.worker != me
    requires ValidRun(b, ms) && Run(b, ms) == WithClaims(b, pre, me)
    ensures var ms' := ms + [Work(Claim(id, me, now))];
            ValidRun(b, ms') && Run(b, ms') == WithClaims(b, pre + [id], me)
  {
    ClaimNext(b, pre, id, me, now);
    RunAppend(b, ms, Claim(id, me, now));
  }

  function WithClaims<E>(b: Box<E>, batch: seq<nat>, me: nat): Box<E>
    requires forall i | 0 <= i < |batch| :: batch[i] in b.table
  {
    b.(table := Claimed(b.table, batch), jobs := b.jobs + BatchJobs(b.table, batch, me))
  }

  lemma ClaimNext<E>(b: Box<E>, pre: seq<nat>, id: nat, me: nat, now: int)
    requires (forall i | 0 <= i < |pre| :: pre[i] in b.table) && id in b.table && id !in pre && Due(b.table[id], now)
    requires forall j | j in b.jobs :: j.worker != me
    ensures OB.Enabled(WithClaims(b, pre, me), Claim(id, me, now))
    ensures OB.Next(WithClaims(b, pre, me), Claim(id, me, now)) == WithClaims(b, pre + [id], me)
  {
    JobsAt(b.table, pre, me);
    ClaimedSnoc(b.table, pre, id);
    assert (pre + [id])[..|pre|] == pre;
    assert b.jobs + BatchJobs(b.table, pre + [id], me)
        == (b.jobs + BatchJobs(b.table, pre, me))[Ticket(me, id) := JobOf(b.table, id)];
  }

  lemma ClaimedSnoc<E>(t: map<nat, Row<E>>, pre: seq<nat>, id: nat)
    requires id in t && id !in pre
    ensures Claimed(t, pre + [id]) == Claimed(t, pre)[id := t[id].(state := Processing)]
    ensures Claimed(t, pre)[id] == t[id]
  {
  }

  /** One replica's worker; `jobs` holds every replica's, its own under `me`. */
  class OutboxWorker<E> {
    ghost const me: nat
    var running: bool
    var table: map<nat, Row<E>>
    ghost var appended: seq<E>
    ghost var jobs: map<Ticket, Job<E>>
    ghost var confirmed: set<nat>

    ghost function TheBox(): Box<E>
      reads this
    {
      Box(table, appended, jobs, confirmed)
    }

    /** What the `running` flag is for: between ticks the worker holds nothing. */
    ghost predicate Valid()
      reads this
    {
      !running ==> forall t | t in jobs :: t.worker != me
    }

    constructor (ghost me: nat)
      ensures TheBox() == Box(map[], [], map[], {}) && !running && Inv(TheBox()) && Valid() && this.me == me
    {
      this.me := me;
      running, table, appended, jobs, confirmed := false, map[], [], map[], {};
    }

    /** `processRow`: publish the row as it was claimed and record the broker's answer. */
    method ProcessRow(id: nat, row: Row<E>, ok: bool, now: int)
      requires Ticket(me, id) in jobs && jobs[Ticket(me, id)] == Job(row.payload, row.attempts, Unpublished)
      modifies this`table, this`jobs, this`confirmed
      ensures TheBox() == OB.Next(OB.Next(old(TheBox()), Publish(Ticket(me, id), ok)), Record(Ticket(me, id), now))
      ensures jobs == old(jobs) - {Ticket(me, id)}
      ensures id in old(table) ==>
                table == if ok then old(table) - {id}
                         else old(table)[id := Retried(old(table)[id], row.attempts + 1, now)]
      ensures id in old(table) && !ok ==> Charged(old(table)[id], table[id], row.attempts + 1, now)
    {
      ghost var job := Ticket(me, id);
      jobs := jobs - {job};
      confirmed := if ok then confirmed + {id} else confirmed;
      if ok {
        table := table - {id};
        return;
      }
      var attempts := row.attempts + 1;
      var backoff := Backoff(attempts);
      if id in table {
        if attempts >= MAX_ATTEMPTS {
          table := table[id := table[id].(state := Dead, attempts := attempts, nextAt := now + DEAD_DELAY_MS)];
        } else {
          table := table[id := table[id].(state := Pending, attempts := attempts, nextAt := now + backoff)];
        }
      }
      assert old(jobs)[job := Job(row.payload, row.attempts, Unconfirmed)] - {job} == jobs;
    }

    /**
     * `tick`: recover stuck rows, claim a batch, process it row by row. `batch` and `confirms`
     * are the database's and the broker's answers, and every statement reads the clock anew.
     * Rows stuck for more than five minutes are re-queued; a claimed row is deleted when
     * confirmed and charged one attempt otherwise.
     */
    method Tick(batch: seq<nat>, confirms: seq<bool>, recoveredAt: int, claimedAt: int, recordedAt: seq<int>)
      returns (ghost ms: seq<Move<E>>)
      requires Valid()
      requires ClaimBatch(Recovered(table, recoveredAt), batch, claimedAt) && |confirms| == |recordedAt| == |batch|
      modifies this
      ensures Valid() && running == old(running)
      ensures old(running) ==> TheBox() == old(TheBox())
      ensures ValidRun(old(TheBox()), ms) && Run(old(TheBox()), ms) == TheBox()
      ensures !old(running) ==>
                Ticked(Recovered(old(table), recoveredAt), table, batch, confirms, recordedAt, |batch|)
      ensures !old(running) ==>
                forall id | id in old(table) && id !in batch ::
                  var r := old(table)[id];
                  id in table && table[id] == if r.state == Processing && r.nextAt < recoveredAt - 300000
                                              then r.(state := Pending, nextAt := recoveredAt) else r
    {
      ms := [];
      if running {
        return;
      }
      running := true;
      ghost var b0 := TheBox();
      ghost var stuck := set id | id in table && Stuck(table[id], recoveredAt);
      ms := RecoverIsRun(b0, stuck, recoveredAt);
      table := Recovered(table, recoveredAt);
      assert table == RecoveredOf(b0.table, stuck, recoveredAt);
      if batch == [] {
        running := false;
        return;
      }
      ghost var work := ClaimAndProcess(batch, confirms, claimedAt, recordedAt);
      RunConcat(b0, ms, work);
      ms := ms + work;
      running := false;
    }

    /** The part of `tick` after recovery, when there is something to claim. */
    method ClaimAndProcess(batch: seq<nat>, confirms: seq<bool>, claimedAt: int, recordedAt: seq<int>)
      returns (ghost ms: seq<Move<E>>)
      requires ClaimBatch(table, batch, claimedAt) && |confirms| == |recordedAt| == |batch|
      requires forall t | t in jobs :: t.worker != me
      modifies this`table, this`jobs, this`confirmed
      ensures forall t | t in jobs :: t.worker != me
      ensures ValidRun(old(TheBox()), ms) && Run(old(TheBox()), ms) == TheBox()
      ensures Ticked(old(table), table, batch, confirms, recordedAt, |batch|)
    {
      ghost var rows, before := table, TheBox();
      ms := ClaimIsRun(before, batch, me, claimedAt);
      var selected := seq(|batch|, i requires 0 <= i < |batch| && batch[i] in table reads this => table[batch[i]]);
      table := Claimed(table, batch);
      JobsAdded(jobs, rows, batch, me);
      jobs := jobs + BatchJobs(rows, batch, me);
      ghost var work := ProcessBatch(batch, selected, confirms, recordedAt, rows);
      RunConcat(before, ms, work);
      ms := ms + work;
    }

    /** The loop of `tick` over its claimed batch. */
    method ProcessBatch(batch: seq<nat>, selected: seq<Row<E>>, confirms: seq<bool>, recordedAt: seq<int>,
                        ghost rows: map<nat, Row<E>>)
      returns (ghost ms: seq<Move<E>>)
      requires |confirms| == |recordedAt| == |batch| && (forall k | 0 <= k < |batch| :: batch[k] in rows)
      requires forall k, l | 0 <= k < l < |batch| :: batch[k] != batch[l]
      requires table == Claimed(rows, batch)
      requires |selected| == |batch| && forall k | 0 <= k < |batch| :: selected[k] == rows[batch[k]]
      requires MineLeft(jobs, batch, me, 0) && forall k | 0 <= k < |batch| :: HasJob(jobs, rows, batch, me, k)
      modifies this`table, this`jobs, this`confirmed
      ensures forall t | t in jobs :: t.worker != me
      ensures ValidRun(old(TheBox()), ms) && Run(old(TheBox()), ms) == TheBox()
      ensures Ticked(rows, table, batch, confirms, recordedAt, |batch|)
    {
      ms := [];
      ghost var b0 := TheBox();
      for i := 0 to |batch|
        invariant Ticked(rows, table, batch, confirms, recordedAt, i)
        invariant JobsLeft(jobs, rows, batch, me, i)
        invariant ValidRun(b0, ms) && Run(b0, ms) == TheBox()
      {
        ms := ProcessNext(batch, selected[i], confirms, recordedAt, rows, i, b0, ms);
      }
    }

    /** One turn of the loop. */
    method ProcessNext(batch: seq<nat>, row: Row<E>, confirms: seq<bool>, recordedAt: seq<int>,
                       ghost rows: map<nat, Row<E>>, i: nat, ghost b0: Box<E>, ghost before: seq<Move<E>>)
      returns (ghost ms: seq<Move<E>>)
      requires |confirms| == |recordedAt| == |batch| && i < |batch| && (forall k | 0 <= k < |batch| :: batch[k] in rows)
      requires forall k, l | 0 <= k < l < |batch| :: batch[k] != batch[l]
      requires row == rows[batch[i]]
      requires Ticked(rows, table, batch, confirms, recordedAt, i) && JobsLeft(jobs, rows, batch, me, i)
      requires ValidRun(b0, before) && Run(b0, before) == TheBox()
      modifies this`table, this`jobs, this`confirmed
      ensures Ticked(rows, table, batch, confirms, recordedAt, i + 1) && JobsLeft(jobs, rows, batch, me, i + 1)
      ensures ValidRun(b0, ms) && Run(b0, ms) == TheBox()
    {
      ghost var was, held := table, jobs;
      ghost var job := Ticket(me, batch[i]);
      NextJob(jobs, rows, batch, me, i);
      RunTwo(b0, before, TheBox(), job, confirms[i], recordedAt[i]);
      ms := before + [Work(Publish(job, confirms[i]))] + [Work(Record(job, recordedAt[i]))];
      ProcessRow(batch[i], row, confirms[i], recordedAt[i]);
      RowDone(rows, was, table, batch, confirms, recordedAt, i);
      JobsKept(held, jobs, rows, batch, me, i);
    }

    // ---- The same tick amid the other replicas ----

    /** Other replicas and transactions of the service run here; this worker's own jobs are not theirs to touch. */
    method Others() returns (ghost ms: seq<Move<E>>)
      modifies this`table, this`jobs, this`confirmed, this`appended
      ensures ValidRun(old(TheBox()), ms) && Run(old(TheBox()), ms) == TheBox()
      ensures SameMine(old(jobs), jobs, me)
    {
      ms := [];
    }

    /** The claiming SELECT, whatever the table has become. */
    method SelectDue(now: int) returns (batch: seq<nat>)
      ensures ClaimBatch(table, batch, now)
    {
      batch := [];
      if exists id :: id in table && Due(table[id], now) {
        var id :| id in table && Due(table[id], now);
        batch := [id];
      }
    }

    /** `processRow`, others running before the publication and before its answer is recorded. */
    method ProcessRowAmid(id: nat, row: Row<E>, ok: bool, now: int) returns (ghost ms: seq<Move<E>>)
      requires Ticket(me, id) in jobs && jobs[Ticket(me, id)] == Job(row.payload, row.attempts, Unpublished)
      modifies this`table, this`jobs, this`confirmed, this`appended
      ensures ValidRun(old(TheBox()), ms) && Run(old(TheBox()), ms) == TheBox()
      ensures SameMine(old(jobs) - {Ticket(me, id)}, jobs, me)
      ensures Work(Publish(Ticket(me, id), ok)) in ms && Work(Record(Ticket(me, id), now)) in ms
    {
      ghost var job := Ticket(me, id);
      ghost var before := TheBox();
      ghost var first := Others();
      jobs := jobs[job := jobs[job].(outcome := if ok then Confirmed else Unconfirmed)];
      confirmed := if ok then confirmed + {id} else confirmed;
      ghost var meanwhile := Others();
      ms := Stitch(before, first, Publish(job, ok), meanwhile, Record(job, now));
      jobs := jobs - {job};
      if ok {
        table := table - {id};
      } else if id in table {
        table := table[id := Retried(table[id], row.attempts + 1, now)];
      }
    }

    /**
     * `tick` amid any number of other replicas acting between any two of its statements: it is
     * still part of a run of relay steps. `first` recovers every row found stuck; `claims` then
     * claims what is due by then, whatever the others have made of the table; in `rest` every
     * claimed row is published and its answer recorded, and the worker holds nothing afterwards.
     */
    method TickAmid(confirms: seq<bool>, recoveredAt: int, claimedAt: int, recordedAt: seq<int>)
      returns (batch: seq<nat>, ghost first: seq<Move<E>>, ghost claims: seq<Move<E>>, ghost rest: seq<Move<E>>)
      requires Valid() && |confirms| == |recordedAt| == CLAIM_LIMIT
      modifies this
      ensures !old(running) ==>
                && RecoversAll(old(table), first, recoveredAt)
                && ValidRun(old(TheBox()), first) && ClaimBatch(Run(old(TheBox()), first).table, batch, claimedAt)
                && IsClaim(Run(old(TheBox()), first), claims, batch, me, claimedAt)
                && Answered(rest, me, batch, confirms, recordedAt, |batch|)
      ensures Valid() && running == old(running) && |batch| <= 100
      ensures old(running) ==> TheBox() == old(TheBox()) && first == claims == rest == []
      ensures var ms := first + claims + rest; ValidRun(old(TheBox()), ms) && Run(old(TheBox()), ms) == TheBox()
    {
      batch, first, claims, rest := [], [], [], [];
      if running {
        return;
      }
      running := true;
      ghost var b0 := TheBox();
      ghost var stuck := set id | id in table && Stuck(table[id], recoveredAt);
      first := RecoverIsRun(b0, stuck, recoveredAt);
      table := Recovered(table, recoveredAt);
      assert table == RecoveredOf(b0.table, stuck, recoveredAt);
      ghost var more := Others();
      RunConcat(b0, first, more);
      first := first + more;
      batch, claims, rest := ClaimAndProcessAmid(confirms, claimedAt, recordedAt);
      RunConcat(b0, first, claims);
      RunConcat(b0, first + claims, rest);
      running := false;
    }

    method ClaimAndProcessAmid(confirms: seq<bool>, claimedAt: int, recordedAt: seq<int>)
      returns (batch: seq<nat>, ghost claims: seq<Move<E>>, ghost rest: seq<Move<E>>)
      requires |confirms| == |recordedAt| == CLAIM_LIMIT && forall t | t in jobs :: t.worker != me
      modifies this`table, this`jobs, this`confirmed, this`appended
      ensures forall t | t in jobs :: t.worker != me
      ensures ClaimBatch(old(table), batch, claimedAt) && IsClaim(old(TheBox()), claims, batch, me, claimedAt)
      ensures var b := Run(old(TheBox()), claims); ValidRun(b, rest) && Run(b, rest) == TheBox()
      ensures Answered(rest, me, batch, confirms, recordedAt, |batch|)
    {
      batch := SelectDue(claimedAt);
      ghost var rows, before := table, TheBox();
      claims := ClaimIsRun(before, batch, me, claimedAt);
      var selected := seq(|batch|, i requires 0 <= i < |batch| && batch[i] in table reads this => table[batch[i]]);
      table := Claimed(table, batch);
      JobsAdded(jobs, rows, batch, me);
      jobs := jobs + BatchJobs(rows, batch, me);
      rest := ProcessBatchAmid(batch, selected, confirms, recordedAt, rows);
    }

    method ProcessBatchAmid(batch: seq<nat>, selected: seq<Row<E>>, confirms: seq<bool>, recordedAt: seq<int>,
                            ghost rows: map<nat, Row<E>>)
      returns (ghost ms: seq<Move<E>>)
      requires |batch| <= |confirms| == |recordedAt| && (forall k | 0 <= k < |batch| :: batch[k] in rows)
      requires forall k, l | 0 <= k < l < |batch| :: batch[k] != batch[l]
      requires |selected| == |batch| && forall k | 0 <= k < |batch| :: selected[k] == rows[batch[k]]
      requires JobsLeft(jobs, rows, batch, me, 0)
      modifies this`table, this`jobs, this`confirmed, this`appended
      ensures forall t | t in jobs :: t.worker != me
      ensures ValidRun(old(TheBox()), ms) && Run(old(TheBox()), ms) == TheBox()
      ensures Answered(ms, me, batch, confirms, recordedAt, |batch|)
    {
      ms := [];
      ghost var before := TheBox();
      for i := 0 to |batch|
        invariant JobsLeft(jobs, rows, batch, me, i)
        invariant ValidRun(before, ms) && Run(before, ms) == TheBox()
        invariant Answered(ms, me, batch, confirms, recordedAt, i)
      {
        ghost var held := jobs;
        NextJob(jobs, rows, batch, me, i);
        ghost var turn := ProcessRowAmid(batch[i], selected[i], confirms[i], recordedAt[i]);
        RunConcat(before, ms, turn);
        AnsweredMore(ms, turn, me, batch, confirms, recordedAt, i);
        ms := ms + turn;
        JobsKept(held, held - {Ticket(me, batch[i])}, rows, batch, me, i);
        JobsSame(held - {Ticket(me, batch[i])}, jobs, rows, batch, me, i + 1);
      }
    }
  }

  /** The run recovers every row of the table that is stuck. */
  ghost predicate RecoversAll<E>(t: map<nat, Row<E>>, ms: seq<Move<E>>, now: int) {
    forall id | id in t && t[id].state == Processing && t[id].nextAt < now - 300000 :: Work(Recover(id, now)) in ms
  }

  /** The run claims the batch for worker `me`, with nobody in between. */
  ghost predicate IsClaim<E>(b: Box<E>, ms: seq<Move<E>>, batch: seq<nat>, me: nat, now: int) {
    && (forall k | 0 <= k < |batch| :: batch[k] in b.table)
    && ValidRun(b, ms) && Run(b, ms) == WithClaims(b, batch, me) && ClaimsAll(ms, batch, me, now)
  }

  /** Two statements of one worker, others running before each. */
  lemma Stitch<E>(b: Box<E>, first: seq<Move<E>>, s1: Step, meanwhile: seq<Move<E>>, s2: Step)
    returns (ms: seq<Move<E>>)
    requires ValidRun(b, first) && OB.Enabled(Run(b, first), s1)
    requires var b1 := OB.Next(Run(b, first), s1); ValidRun(b1, meanwhile) && OB.Enabled(Run(b1, meanwhile), s2)
    ensures ValidRun(b, ms) && Run(b, ms) == OB.Next(Run(OB.Next(Run(b, first), s1), meanwhile), s2)
    ensures Work(s1) in ms && Work(s2) in ms
  {
    var one: seq<Move<E>> := first + [Work(s1)];
    RunAppend(b, first, s1);
    RunConcat(b, one, meanwhile);
    RunAppend(b, one + meanwhile, s2);
    ms := one + meanwhile + [Work(s2)];
    assert one[|first|] == Work(s1) && ms[|first|] == Work(s1) && ms[|ms| - 1] == Work(s2);
  }

  /** The run publishes and records the first `i` rows of the batch as answered. */
  ghost predicate Answered<E>(ms: seq<Move<E>>, me: nat, batch: seq<nat>, confirms: seq<bool>, recordedAt: seq<int>,
                              i: nat)
    requires i <= |batch| <= |confirms| == |recordedAt|
  {
    forall k | 0 <= k < i ::
      Work(Publish(Ticket(me, batch[k]), confirms[k])) in ms && Work(Record(Ticket(me, batch[k]), recordedAt[k])) in ms
  }

  lemma AnsweredMore<E>(ms: seq<Move<E>>, turn: seq<Move<E>>, me: nat, batch: seq<nat>, confirms: seq<bool>,
                        recordedAt: seq<int>, i: nat)
    requires i < |batch| <= |confirms| == |recordedAt| && Answered(ms, me, batch, confirms, recordedAt, i)
    requires Work(Publish(Ticket(me, batch[i]), confirms[i])) in turn
            && Work(Record(Ticket(me, batch[i]), recordedAt[i])) in turn
    ensures Answered(ms + turn, me, batch, confirms, recordedAt, i + 1)
  {
  }

  /** Worker `me` holds the same jobs as before. */
  predicate SameMine<E(==)>(before: map<Ticket, Job<E>>, jobs: map<Ticket, Job<E>>, me: nat) {
    && (forall t | t in before && t.worker == me :: t in jobs && jobs[t] == before[t])
    && (forall t | t in jobs && t.worker == me :: t in before)
  }

  lemma JobsSame<E>(before: map<Ticket, Job<E>>, jobs: map<Ticket, Job<E>>, rows: map<nat, Row<E>>, batch: seq<nat>,
                    me: nat, i: nat)
    requires i <= |batch| && (forall k | 0 <= k < |batch| :: batch[k] in rows)
    requires JobsLeft(before, rows, batch, me, i) && SameMine(before, jobs, me)
    ensures JobsLeft(jobs, rows, batch, me, i)
  {
    forall k | i <= k < |batch| ensures HasJob(jobs, rows, batch, me, k) {
      assert HasJob(before, rows, batch, me, k);
    }
  }

  /** The jobs of the batch from its `i`-th row on are as claimed, and are all that worker `me` holds. */
  ghost predicate JobsLeft<E>(jobs: map<Ticket, Job<E>>, rows: map<nat, Row<E>>, batch: seq<nat>, me: nat, i: nat)
    requires i <= |batch| && forall k | 0 <= k < |batch| :: batch[k] in rows
  {
    MineLeft(jobs, batch, me, i) && forall k | i <= k < |batch| :: HasJob(jobs, rows, batch, me, k)
  }

  lemma NextJob<E>(jobs: map<Ticket, Job<E>>, rows: map<nat, Row<E>>, batch: seq<nat>, me: nat, i: nat)
    requires i < |batch| && (forall k | 0 <= k < |batch| :: batch[k] in rows) && JobsLeft(jobs, rows, batch, me, i)
    ensures Ticket(me, batch[i]) in jobs && jobs[Ticket(me, batch[i])] == JobOf(rows, batch[i])
  {
    assert HasJob(jobs, rows, batch, me, i);
  }

  lemma JobsKept<E>(held: map<Ticket, Job<E>>, jobs: map<Ticket, Job<E>>, rows: map<nat, Row<E>>, batch: seq<nat>,
                    me: nat, i: nat)
    requires i < |batch| && forall k | 0 <= k < |batch| :: batch[k] in rows
    requires forall k, l | 0 <= k < l < |batch| :: batch[k] != batch[l]
    requires JobsLeft(held, rows, batch, me, i)
    requires jobs == held - {Ticket(me, batch[i])}
    ensures JobsLeft(jobs, rows, batch, me, i + 1)
  {
    forall k | i + 1 <= k < |batch| ensures HasJob(jobs, rows, batch, me, k) {
      assert HasJob(held, rows, batch, me, k);
    }
    forall t | t in jobs && t.worker == me ensures exists k :: i + 1 <= k < |batch| && batch[k] == t.row {
      var k :| i <= k < |batch| && batch[k] == t.row;
      assert k != i;
    }
  }

  lemma RunTwo<E>(b0: Box<E>, ms: seq<Move<E>>, b: Box<E>, job: Ticket, ok: bool, now: int)
    requires ValidRun(b0, ms) && Run(b0, ms) == b
    requires job in b.jobs && b.jobs[job].outcome == Unpublished
    ensures var ms' := ms + [Work(Publish(job, ok))] + [Work(Record(job, now))];
            ValidRun(b0, ms') && Run(b0, ms') == OB.Next(OB.Next(b, Publish(job, ok)), Record(job, now))
  {
    RunAppend(b0, ms, Publish(job, ok));
    RunAppend(b0, ms + [Work(Publish(job, ok))], Record(job, now));
  }

  /** The first `i` rows of the batch are recorded, the rest are claimed, all others untouched. */
  ghost predicate Ticked<E>(rows: map<nat, Row<E>>, t: map<nat, Row<E>>, batch: seq<nat>, confirms: seq<bool>,
                            recordedAt: seq<int>, i: nat)
    requires |confirms| == |recordedAt| == |batch| && i <= |batch|
    requires forall k | 0 <= k < |batch| :: batch[k] in rows
  {
    && (forall id | id in rows && id !in batch :: id in t && t[id] == rows[id])
    && (forall id | id in t :: id in rows)
    && (forall k | 0 <= k < i ::
          if confirms[k] then batch[k] !in t
          else batch[k] in t && t[batch[k]] == Retried(rows[batch[k]], rows[batch[k]].attempts + 1, recordedAt[k]))
    && (forall k | i <= k < |batch| :: batch[k] in t && t[batch[k]] == rows[batch[k]].(state := Processing))
  }

  /** One more attempt is on record: the tenth makes the row DEAD, and after any other it waits for its backoff. */
  predicate Charged<E(==)>(r: Row<E>, r': Row<E>, attempts: nat, now: int) {
    && r'.payload == r.payload && r'.attempts == attempts
    && if attempts >= 10 then r'.state == Dead && r'.nextAt == now + 3600000
       else r'.state == Pending && r'.nextAt == now + Backoff(attempts)
  }

  lemma RowDone<E>(rows: map<nat, Row<E>>, t: map<nat, Row<E>>, t': map<nat, Row<E>>, batch: seq<nat>,
                   confirms: seq<bool>, recordedAt: seq<int>, i: nat)
    requires |confirms| == |recordedAt| == |batch| && i < |batch|
    requires forall k | 0 <= k < |batch| :: batch[k] in rows
    requires forall k, l | 0 <= k < l < |batch| :: batch[k] != batch[l]
    requires Ticked(rows, t, batch, confirms, recordedAt, i)
    requires t' == if confirms[i] then t - {batch[i]}
                   else t[batch[i] := Retried(t[batch[i]], rows[batch[i]].attempts + 1, recordedAt[i])]
    ensures Ticked(rows, t', batch, confirms, recordedAt, i + 1)
  {
  }

  lemma {:induction false} RunConcat<E>(b: Box<E>, ms: seq<Move<E>>, ns: seq<Move<E>>)
    requires ValidRun(b, ms) && ValidRun(Run(b, ms), ns)
    ensures ValidRun(b, ms + ns) && Run(b, ms + ns) == Run(Run(b, ms), ns)
    decreases |ms|
  {
    if ms == [] {
      assert ms + ns == ns;
    } else {
      assert (ms + ns)[1..] == ms[1..] + ns;
      RunConcat(Do(b, ms[0]), ms[1..], ns);
    }
  }

  /**
   * What any tick makes of any row. A row it does not claim is queued again if it is in
   * somebody's hands and more than five minutes overdue, and otherwise untouched: nothing stays
   * stuck, and nobody's row is taken early. A row it claims was due, and is gone if confirmed
   * and charged one attempt if not.
   */
  lemma EveryRowAfterTick<E>(t: map<nat, Row<E>>, t': map<nat, Row<E>>, batch: seq<nat>, confirms: seq<bool>,
                           recoveredAt: int, claimedAt: int, recordedAt: seq<int>, id: nat)
    requires |confirms| == |recordedAt| == |batch| && ClaimBatch(Recovered(t, recoveredAt), batch, claimedAt)
    requires Ticked(Recovered(t, recoveredAt), t', batch, confirms, recordedAt, |batch|) && id in t
    ensures var overdue := t[id].state == Processing && t[id].nextAt < recoveredAt - 300000;
            && (id !in batch ==>
                  id in t' && t'[id] == if overdue then t[id].(state := Pending, nextAt := recoveredAt) else t[id])
            && forall k | 0 <= k < |batch| && batch[k] == id ::
                 && (if overdue then recoveredAt <= claimedAt else t[id].state == Pending && t[id].nextAt <= claimedAt)
                 && if confirms[k] then id !in t'
                    else id in t' && Charged(t[id], t'[id], t[id].attempts + 1, recordedAt[k])
  {
    forall k | 0 <= k < |batch| && batch[k] == id
      ensures if confirms[k] then id !in t' else id in t' && Charged(t[id], t'[id], t[id].attempts + 1, recordedAt[k])
    {
      assert if confirms[k] then batch[k] !in t' else batch[k] in t';
    }
  }
}

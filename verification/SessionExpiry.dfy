/** What a refresh token is worth while it lives, and that it is worth nothing once it has expired. */
module SessionExpiry {
  import opened Base
  import opened Sessions

  /** A refresh of token `i` has read its row and not yet written. */
  predicate InFlight(s: State, i: nat) {
    exists t :: t in s.tasks && s.tasks[t].Rotating? && s.tasks[t].token == i
  }

  /**
   * What reading a token leads to, told by its columns: nothing once it has expired; before
   * that an exchange if it is unrevoked, an access token within the grace window, and the end
   * of its family after it.
   */
  lemma ReadExactly(s: State, i: nat, task: nat, c: Config)
    requires Enabled(s, Read(i, task))
    ensures var t, after := s.db[i], Next(s, Read(i, task), c);
            && after.db == s.db
            && (GrantsOn(s, Read(i, task), i) <==>
                  s.clock < t.expires && t.revokedAt.Some? && t.grace.Some? && s.clock <= t.grace.value)
            && after.tasks ==
                 if s.clock >= t.expires then s.tasks
                 else if t.revokedAt.Some? && t.grace.Some? && s.clock <= t.grace.value then s.tasks
                 else if t.revokedAt == None then s.tasks[task := Rotating(i, s.clock)]
                 else s.tasks[task := Revoking(t.family)]
  {
  }

  /** What an exchange writes: a successor good for the whole lifetime, and a whole grace window for the old row. */
  lemma CommitWrites(s: State, task: nat, started: int, c: Config)
    requires Enabled(s, Commit(task, started)) && s.tasks[task].Rotating?
    ensures var i, db := s.tasks[task].token, Next(s, Commit(task, started), c).db;
            && |db| == |s.db| + 1
            && db[|s.db|] == Token(s.db[i].user, s.db[i].family, None, None, started + c.ttl, None)
            && db[i] == s.db[i].(revokedAt := Some(s.clock), rotatedTo := Some(|s.db|),
                                 grace := Some(started + c.grace))
            && forall k | 0 <= k < |s.db| && k != i :: db[k] == s.db[k]
  {
  }

  /** What a step keeps of a token's row, and when it puts a refresh of it under way. */
  lemma OneStepKeeps(s: State, op: Op, c: Config, i: nat)
    requires Enabled(s, op) && i < |s.db|
    ensures var t := Next(s, op, c);
            && i < |t.db| && t.db[i].expires == s.db[i].expires && s.clock <= t.clock
            && (s.db[i].revokedAt.Some? ==> t.db[i].revokedAt.Some?)
            && (t.db[i].rotatedTo == s.db[i].rotatedTo || GrantsOn(s, op, i))
            && (InFlight(t, i) && !InFlight(s, i) ==> op.Read? && op.token == i && s.clock < s.db[i].expires)
  {
    if InFlight(Next(s, op, c), i) && !InFlight(s, i) { StartedByRead(s, op, c, i); }
  }

  /**
   * A session times out: once a token has expired and no refresh that read it earlier is still
   * under way, it is never again worth an access token, nor exchanged for another, by any
   * request of any run.
   */
  lemma {:induction false} ExpiredForGood(s: State, ops: seq<Op>, op: Op, c: Config, i: nat)
    requires ValidRun(s, ops, c) && Enabled(Run(s, ops, c), op)
    requires i < |s.db| && s.clock >= s.db[i].expires && !InFlight(s, i)
    ensures var t := Run(s, ops, c); i < |t.db| && !GrantsOn(t, op, i) && t.db[i].rotatedTo == s.db[i].rotatedTo
    decreases |ops|
  {
    if ops != [] {
      OneStepKeeps(s, ops[0], c, i);
      ExpiredForGood(Next(s, ops[0], c), ops[1..], op, c, i);
    }
  }

  /** Some request of the run read token `i` while it was neither expired nor revoked. */
  ghost predicate ReadUsable(s: State, ops: seq<Op>, c: Config, i: nat)
    requires ValidRun(s, ops, c)
    decreases |ops|
  {
    ops != [] &&
    (|| (ops[0].Read? && ops[0].token == i && i < |s.db| && s.clock < s.db[i].expires && s.db[i].revokedAt == None)
     || ReadUsable(Next(s, ops[0], c), ops[1..], c, i))
  }

  lemma {:induction false} InFlightWasRead(s: State, ops: seq<Op>, c: Config, i: nat)
    requires ValidRun(s, ops, c) && InFlight(Run(s, ops, c), i)
    ensures InFlight(s, i) || ReadUsable(s, ops, c, i)
    decreases |ops|
  {
    if ops != [] {
      InFlightWasRead(Next(s, ops[0], c), ops[1..], c, i);
      if InFlight(Next(s, ops[0], c), i) && !InFlight(s, i) { StartedByRead(s, ops[0], c, i); }
    }
  }

  lemma StartedByRead(s: State, op: Op, c: Config, i: nat)
    requires Enabled(s, op) && InFlight(Next(s, op, c), i) && !InFlight(s, i)
    ensures op.Read? && op.token == i && s.clock < s.db[i].expires && s.db[i].revokedAt == None
  {
  }

  /**
   * Every access token over every run: either the row is read unexpired and within its grace
   * window, or it was read before, unexpired and unrevoked, and is exchanged now.
   */
  lemma GrantedWasUsable(s: State, ops: seq<Op>, op: Op, c: Config, i: nat)
    requires s.tasks == map[] && ValidRun(s, ops, c) && Enabled(Run(s, ops, c), op)
    requires GrantsOn(Run(s, ops, c), op, i)
    ensures var t := Run(s, ops, c);
            if op.Read?
            then i < |t.db| && t.clock < t.db[i].expires && t.db[i].grace.Some? && t.clock <= t.db[i].grace.value
            else ReadUsable(s, ops, c, i)
  {
    if op.Commit? {
      assert InFlight(Run(s, ops, c), i);
      InFlightWasRead(s, ops, c, i);
    }
  }

  // ---- And never less than the grace window ----

  /** The row is revoked, and good for a retry until `limit`, whatever refreshes of it are still under way. */
  predicate GoodUntil(s: State, c: Config, i: nat, limit: int) {
    && i < |s.db| && s.db[i].revokedAt.Some? && s.db[i].grace.Some? && limit <= s.db[i].grace.value
    && forall t | t in s.tasks && s.tasks[t].Rotating? && s.tasks[t].token == i :: limit <= s.tasks[t].readAt + c.grace
  }

  lemma OneStepGood(s: State, op: Op, c: Config, i: nat, limit: int)
    requires Enabled(s, op) && GoodUntil(s, c, i, limit)
    ensures GoodUntil(Next(s, op, c), c, i, limit)
  {
    var t := Next(s, op, c);
    forall k | k in t.tasks && t.tasks[k].Rotating? && t.tasks[k].token == i
      ensures limit <= t.tasks[k].readAt + c.grace
    {
      assert k in s.tasks && t.tasks[k] == s.tasks[k];
    }
  }

  /**
   * The grace window is honoured: whatever is requested meanwhile, the reuse of other tokens
   * and logging out included, a retry with the old token is answered until the window ends or
   * the token expires.
   */
  lemma {:induction false} GraceHonoured(s: State, ops: seq<Op>, c: Config, i: nat, task: nat, limit: int)
    requires ValidRun(s, ops, c) && GoodUntil(s, c, i, limit)
    requires var t := Run(s, ops, c); task !in t.tasks && t.clock <= limit && t.clock < s.db[i].expires
    ensures var t := Run(s, ops, c); Enabled(t, Read(i, task)) && GrantsOn(t, Read(i, task), i)
    decreases |ops|
  {
    if ops != [] {
      OneStepGood(s, ops[0], c, i, limit);
      OneStepKeeps(s, ops[0], c, i);
      GraceHonoured(Next(s, ops[0], c), ops[1..], c, i, task, limit);
    }
  }
}

/**
 * Overlapping refreshes: what a second look at the locked row would be worth. Over every run,
 * families keep to one active token and dead families stay dead exactly when each rotation
 * that commits finds its row unrevoked; and then the cut-off holds however requests overlap.
 */
module SessionOverlap {
  import opened Base
  import opened Sessions
  import opened SessionCutoff

  /** If the step commits a rotation, its row is still unrevoked. */
  predicate Rechecked(s: State, op: Op) {
    op.Commit? && op.task in s.tasks && s.tasks[op.task].Rotating? ==> Active(s.db, s.tasks[op.task].token)
  }

  ghost predicate AllRechecked(s: State, ops: seq<Op>, c: Config)
    requires ValidRun(s, ops, c)
    decreases |ops|
  {
    ops == [] || (Rechecked(s, ops[0]) && AllRechecked(Next(s, ops[0], c), ops[1..], c))
  }

  predicate HasRow(db: Db, family: Uuid) {
    exists i :: 0 <= i < |db| && db[i].family == family
  }

  /** No family gets a second active token, and none that was dead revives. */
  ghost predicate Calm(before: Db, after: Db) {
    && (forall f :: OneActive(before, f) ==> OneActive(after, f))
    && (forall f | HasRow(before, f) && Dead(before, f) :: Dead(after, f))
  }

  ghost predicate CalmRun(s: State, ops: seq<Op>, c: Config)
    requires ValidRun(s, ops, c)
    decreases |ops|
  {
    ops == [] || (Calm(s.db, Next(s, ops[0], c).db) && CalmRun(Next(s, ops[0], c), ops[1..], c))
  }

  /** What is active after the step was so before, unless the step issued it. */
  lemma OldOnesOnly(s: State, op: Op, c: Config, k: nat, f: Uuid)
    requires Enabled(s, op) && k < |s.db| && ActiveIn(Next(s, op, c).db, k, f)
    ensures ActiveIn(s.db, k, f)
    ensures !(op.Commit? && s.tasks[op.task].Rotating? && s.tasks[op.task].token == k)
  {
  }

  lemma StepKeepsOne(s: State, op: Op, c: Config, f: Uuid)
    requires Enabled(s, op) && Rechecked(s, op) && OneActive(s.db, f)
    ensures OneActive(Next(s, op, c).db, f)
  {
    var db' := Next(s, op, c).db;
    forall i: nat, j: nat | i < |db'| && j < |db'| && ActiveIn(db', i, f) && ActiveIn(db', j, f) ensures i == j {
      if i < |s.db| { OldOnesOnly(s, op, c, i, f); }
      if j < |s.db| { OldOnesOnly(s, op, c, j, f); }
      if op.Commit? && s.tasks[op.task].Rotating? && s.db[s.tasks[op.task].token].family == f {
        assert ActiveIn(s.db, s.tasks[op.task].token, f);
      }
    }
  }

  lemma StepKeepsDead(s: State, op: Op, c: Config, f: Uuid, limit: int)
    requires Enabled(s, op) && Rechecked(s, op) && HasRow(s.db, f) && Dead(s.db, f)
    ensures var db' := Next(s, op, c).db;
            HasRow(db', f) && Dead(db', f) && (GraceBy(s.db, f, limit) ==> GraceBy(db', f, limit))
  {
    var db' := Next(s, op, c).db;
    var i :| 0 <= i < |s.db| && s.db[i].family == f;
    assert db'[i].family == f;
    if op.Commit? && s.tasks[op.task].Rotating? {
      assert !ActiveIn(s.db, s.tasks[op.task].token, f);
    }
    forall k | 0 <= k < |db'| ensures !ActiveIn(db', k, f) {
      if k < |s.db| { assert !ActiveIn(s.db, k, f); }
    }
  }

  /** A step is safe for every family exactly when it is no rotation of a row revoked meanwhile. */
  lemma StepSafeExactly(s: State, op: Op, c: Config)
    requires Enabled(s, op) && forall f :: OneActive(s.db, f)
    ensures Calm(s.db, Next(s, op, c).db) <==> Rechecked(s, op)
  {
    var db' := Next(s, op, c).db;
    if Rechecked(s, op) {
      forall f ensures OneActive(db', f) { StepKeepsOne(s, op, c, f); }
      forall f | HasRow(s.db, f) && Dead(s.db, f) ensures Dead(db', f) { StepKeepsDead(s, op, c, f, 0); }
    } else {
      var i := s.tasks[op.task].token;
      RotateSafeExactly(s.db, i, op.started, s.clock, c);
      assert HasRow(s.db, s.db[i].family);
    }
  }

  /**
   * Over every run, however refreshes, logouts and crashes overlap: all families keep to one
   * active token and dead ones stay dead if and only if every rotation that commits finds its
   * row unrevoked.
   */
  lemma {:induction false} RunSafeExactly(s: State, ops: seq<Op>, c: Config)
    requires ValidRun(s, ops, c) && forall f :: OneActive(s.db, f)
    ensures CalmRun(s, ops, c) <==> AllRechecked(s, ops, c)
    decreases |ops|
  {
    if ops != [] {
      StepSafeExactly(s, ops[0], c);
      if Rechecked(s, ops[0]) { RunSafeExactly(Next(s, ops[0], c), ops[1..], c); }
    }
  }

  /** In such a run a family has at most one active token at the end. */
  lemma {:induction false} OneActiveAmid(s: State, ops: seq<Op>, c: Config, f: Uuid)
    requires ValidRun(s, ops, c) && AllRechecked(s, ops, c) && OneActive(s.db, f)
    ensures OneActive(Run(s, ops, c).db, f)
    decreases |ops|
  {
    if ops != [] {
      StepKeepsOne(s, ops[0], c, f);
      OneActiveAmid(Next(s, ops[0], c), ops[1..], c, f);
    }
  }

  /** And a dead family gains neither an active token nor a later grace window. */
  lemma {:induction false} DeadAmid(s: State, ops: seq<Op>, c: Config, f: Uuid, limit: int)
    requires ValidRun(s, ops, c) && AllRechecked(s, ops, c)
    requires HasRow(s.db, f) && Dead(s.db, f) && GraceBy(s.db, f, limit)
    ensures var db := Run(s, ops, c).db; HasRow(db, f) && Dead(db, f) && GraceBy(db, f, limit)
    decreases |ops|
  {
    if ops != [] {
      StepKeepsDead(s, ops[0], c, f, limit);
      DeadAmid(Next(s, ops[0], c), ops[1..], c, f, limit);
    }
  }

  // ---- The cut-off ----

  /** The step answers somebody with an access token of the family. */
  predicate GrantsTo(s: State, op: Op, family: Uuid) {
    || (op.Login? && op.family == family)
    || exists i :: 0 <= i < |s.db| && s.db[i].family == family && GrantsOn(s, op, i)
  }

  predicate Fresh(s: State) {
    s.db == [] && s.tasks == map[]
  }

  lemma GraceOneStep(s: State, op: Op, c: Config, f: Uuid)
    requires Enabled(s, op) && GraceBy(s.db, f, s.clock + c.grace)
    ensures var t := Next(s, op, c); GraceBy(t.db, f, t.clock + c.grace)
  {
  }

  /** Checked or not, nobody is ever given a grace window that ends later than one from now. */
  lemma {:induction false} GraceSoon(s: State, ops: seq<Op>, c: Config, f: Uuid)
    requires ValidRun(s, ops, c) && GraceBy(s.db, f, s.clock + c.grace)
    ensures var t := Run(s, ops, c); GraceBy(t.db, f, t.clock + c.grace)
    decreases |ops|
  {
    if ops != [] {
      GraceOneStep(s, ops[0], c, f);
      GraceSoon(Next(s, ops[0], c), ops[1..], c, f);
    }
  }

  /**
   * Let anything overlap up to a moment at which a family is dead. If from then on rotations
   * find their rows unrevoked, then a grace window later no step grants the family an access
   * token: not a login, not a refresh, not one that was in flight all along.
   */
  lemma CutOffAmid(s: State, ops: seq<Op>, later: seq<Op>, op: Op, c: Config, f: Uuid)
    requires Fresh(s) && ValidRun(s, ops, c)
    requires var dead := Run(s, ops, c);
             && HasRow(dead.db, f) && Dead(dead.db, f) && ValidRun(dead, later, c) && AllRechecked(dead, later, c)
             && var t := Run(dead, later, c);
                Enabled(t, op) && Rechecked(t, op) && t.clock > dead.clock + c.grace
    ensures !GrantsTo(Run(Run(s, ops, c), later, c), op, f)
  {
    var dead := Run(s, ops, c);
    GraceSoon(s, ops, c, f);
    DeadAmid(dead, later, c, f, dead.clock + c.grace);
    var t := Run(dead, later, c);
    forall i | 0 <= i < |t.db| && t.db[i].family == f ensures !GrantsOn(t, op, i) {
      assert !ActiveIn(t.db, i, f);
    }
  }

  // ---- Logging out everywhere ----

  ghost predicate FamiliesOfOne(db: Db) {
    forall i | 0 <= i < |db| :: OneUser(db, db[i].family, db[i].user)
  }

  lemma StepKeepsUsers(s: State, op: Op, c: Config)
    requires Enabled(s, op) && FamiliesOfOne(s.db)
    ensures FamiliesOfOne(Next(s, op, c).db)
  {
    var db' := Next(s, op, c).db;
    forall i | 0 <= i < |db'| ensures OneUser(db', db'[i].family, db'[i].user) {
      if i < |s.db| {
        assert OneUser(s.db, s.db[i].family, s.db[i].user);
      } else if op.Commit? && s.tasks[op.task].Rotating? {
        var token := s.db[s.tasks[op.task].token];
        assert OneUser(s.db, token.family, token.user);
      }
    }
  }

  lemma {:induction false} RunKeepsUsers(s: State, ops: seq<Op>, c: Config)
    requires ValidRun(s, ops, c) && FamiliesOfOne(s.db)
    ensures FamiliesOfOne(Run(s, ops, c).db)
    decreases |ops|
  {
    if ops != [] {
      StepKeepsUsers(s, ops[0], c);
      RunKeepsUsers(Next(s, ops[0], c), ops[1..], c);
    }
  }

  /**
   * Whatever overlapped before, logging out everywhere kills every family of the user; it stays
   * dead as long as rotations find their rows unrevoked.
   */
  lemma LogOutAllAmid(s: State, ops: seq<Op>, later: seq<Op>, c: Config, i: nat)
    requires Fresh(s) && ValidRun(s, ops, c) && i < |Run(s, ops, c).db|
    requires var out := Next(Run(s, ops, c), LogoutAll(Run(s, ops, c).db[i].user), c);
             ValidRun(out, later, c) && AllRechecked(out, later, c)
    ensures var t := Run(s, ops, c); var out := Next(t, LogoutAll(t.db[i].user), c);
            Dead(out.db, t.db[i].family) && Dead(Run(out, later, c).db, t.db[i].family)
  {
    var t := Run(s, ops, c);
    var f := t.db[i].family;
    RunKeepsUsers(s, ops, c);
    assert OneUser(t.db, f, t.db[i].user);
    var out := Next(t, LogoutAll(t.db[i].user), c);
    assert out.db[i].family == f;
    GraceSoon(s, ops, c, f);
    DeadAmid(out, later, c, f, t.clock + c.grace);
  }

  /** Otherwise it may revive: a refresh that read its row before the logout leaves an active token after it. */
  lemma LogOutAllUndone(user: Uuid, family: Uuid, c: Config) returns (s: State, ops: seq<Op>)
    requires c.ttl > 0
    ensures Fresh(s) && ValidRun(s, ops, c) && |ops| == 4 && ops[2] == LogoutAll(user)
    ensures var t := Run(s, ops, c); ActiveIn(t.db, 1, family) && t.db[1].user == user && t.db[1].expires > t.clock
  {
    s := State([], map[], 0);
    ops := [Login(user, family), Read(0, 0), LogoutAll(user), Commit(0, 0)];
    var s1 := Next(s, ops[0], c);
    var s2 := Next(s1, ops[1], c);
    assert s2.tasks == map[0 := Rotating(0, 0)];
    var s3 := Next(s2, ops[2], c);
    var s4 := Next(s3, ops[3], c);
    assert ValidRun(s4, [], c);
    assert ops[3..][1..] == [] && ValidRun(s3, ops[3..], c) && Run(s3, ops[3..], c) == s4;
    assert ops[2..][1..] == ops[3..] && ValidRun(s2, ops[2..], c) && Run(s2, ops[2..], c) == s4;
    assert ops[1..][1..] == ops[2..] && ValidRun(s1, ops[1..], c) && Run(s1, ops[1..], c) == s4;
    assert ValidRun(s, ops, c);
  }

  // ---- Requests served one after another ----

  /** Every rotation on the way from `s` to `t` finds its row unrevoked. */
  ghost predicate Leads(s: State, ops: seq<Op>, c: Config, t: State) {
    ValidRun(s, ops, c) && AllRechecked(s, ops, c) && Run(s, ops, c) == t
  }

  lemma First(s: State, op: Op, ops: seq<Op>, c: Config, t: State)
    requires Enabled(s, op) && Rechecked(s, op) && Leads(Next(s, op, c), ops, c, t)
    ensures Leads(s, [op] + ops, c, t)
  {
    assert ([op] + ops)[1..] == ops;
  }

  lemma {:induction false} Then(s: State, ops: seq<Op>, t: State, more: seq<Op>, c: Config, u: State)
    requires Leads(s, ops, c, t) && Leads(t, more, c, u)
    ensures Leads(s, ops + more, c, u)
    decreases |ops|
  {
    if ops == [] {
      assert ops + more == more;
    } else {
      Then(Next(s, ops[0], c), ops[1..], t, more, c, u);
      First(s, ops[0], ops[1..] + more, c, u);
      assert [ops[0]] + (ops[1..] + more) == ops + more;
    }
  }

  /** Two steps, and the clock moves before and after them. */
  lemma Clocked(s: State, a: Op, b: Op, at: int, until: int, c: Config) returns (ops: seq<Op>)
    requires s.clock <= at <= until
    requires var t := s.(clock := at); Enabled(t, a) && Rechecked(t, a) && Next(t, a, c).clock == at
    requires var u := Next(s.(clock := at), a, c).(clock := until); Enabled(u, b) && Rechecked(u, b)
    ensures Leads(s, ops, c, Next(Next(s.(clock := at), a, c).(clock := until), b, c))
  {
    var t := s.(clock := at);
    var u := Next(t, a, c).(clock := until);
    var v := Next(u, b, c);
    assert Leads(v, [], c, v);
    First(u, b, [], c, v);
    First(Next(t, a, c), Wait(until), [b] + [], c, v);
    First(t, a, [Wait(until)] + ([b] + []), c, v);
    First(s, Wait(at), [a] + ([Wait(until)] + ([b] + [])), c, v);
    ops := [Wait(at)] + ([a] + ([Wait(until)] + ([b] + [])));
  }

  function Quiet(db: Db, clock: int): State {
    State(db, map[], clock)
  }

  /** A refresh nobody overlaps finds its row as it read it. */
  lemma RefreshIsRun(db: Db, r: Timed, from: int, c: Config) returns (ops: seq<Op>)
    requires from <= r.time <= r.started <= r.done && r.request.Refresh? && r.request.token < |db|
    ensures Leads(Quiet(db, from), ops, c, Quiet(Serve(db, r, c), r.done))
  {
    var token := r.request.token;
    var s := Quiet(db, from);
    var after := Next(Quiet(db, r.time), Read(token, 0), c);
    match Decide(db[token], r.time) {
      case RotateIt =>
        assert after.tasks - {0} == map[];
        ops := Clocked(s, Read(token, 0), if r.request.known then Commit(0, r.started) else Crash({0}),
                       r.time, r.done, c);
      case Reuse =>
        assert after.tasks - {0} == map[];
        ops := Clocked(s, Read(token, 0), Commit(0, r.started), r.time, r.done, c);
      case _ => ops := Clocked(s, Read(token, 0), Wait(r.done), r.time, r.done, c);
    }
  }

  lemma RequestIsRun(db: Db, r: Timed, from: int, c: Config) returns (ops: seq<Op>)
    requires from <= r.time <= r.started <= r.done && Admissible(db, r.request)
    ensures Leads(Quiet(db, from), ops, c, Quiet(Serve(db, r, c), r.done))
  {
    var s := Quiet(db, from);
    match r.request {
      case LogIn(user, family) => ops := Clocked(s, Login(user, family), Wait(r.done), r.started, r.done, c);
      case Refresh(_, _) => ops := RefreshIsRun(db, r, from, c);
      case LogOut(token) => ops := Clocked(s, Wait(r.time), Logout(token), r.time, r.done, c);
      case LogOutAll(user) => ops := Clocked(s, Wait(r.time), LogoutAll(user), r.time, r.done, c);
    }
  }

  /**
   * Requests served one after another are such runs: every history of `SessionCutoff` is a run
   * in which each rotation finds its row unrevoked.
   */
  lemma {:induction false} HistoryIsRun(db: Db, rs: seq<Timed>, from: int, c: Config) returns (ops: seq<Op>)
    requires ValidHistory(db, rs, from, c)
    ensures Leads(Quiet(db, from), ops, c,
                  Quiet(History(db, rs, from, c), if rs == [] then from else rs[|rs| - 1].done))
    decreases |rs|
  {
    ops := [];
    if rs != [] {
      var db' := Serve(db, rs[0], c);
      var first := RequestIsRun(db, rs[0], from, c);
      var rest := HistoryIsRun(db', rs[1..], rs[0].done, c);
      var end := if rs[1..] == [] then rs[0].done else rs[1..][|rs| - 2].done;
      Then(Quiet(db, from), first, Quiet(db', rs[0].done), rest, c, Quiet(History(db', rs[1..], rs[0].done, c), end));
      ops := first + rest;
    }
  }
}

/** Refreshes that do not overlap: one active token per family, and a dead family stays dead. */
module SessionCutoff {
  import opened Base
  import opened Sessions

  /** A request served without another one in between. `known` says whether the token's user still exists. */
  datatype Request =
    | LogIn(user: Uuid, family: Uuid)
    | Refresh(token: nat, known: bool)
    | LogOut(token: nat)
    | LogOutAll(user: Uuid)

  /** The clock when the request reads its row, when it computes expiry and grace, and when it writes. */
  datatype Timed = At(time: int, started: int, done: int, request: Request)

  predicate Admissible(db: Db, r: Request) {
    match r
    case LogIn(_, family) => forall i | 0 <= i < |db| :: db[i].family != family
    case Refresh(token, _) => token < |db|
    case LogOut(token) => token < |db|
    case LogOutAll(_) => true
  }

  function Serve(db: Db, t: Timed, c: Config): Db
    requires Admissible(db, t.request)
  {
    match t.request
    case LogIn(user, family) => Issue(db, user, family, t.started, c)
    case Refresh(token, known) =>
      (match Decide(db[token], t.time)
       case Expired => db
       case RotateIt => if known then Rotate(db, token, t.started, t.done, c) else db
       case Grace => db
       case Reuse => RevokeFamily(db, db[token].family, t.done))
    case LogOut(token) => Revoke(db, token, t.done)
    case LogOutAll(user) => RevokeAllForUser(db, user, t.done)
  }

  /** The refresh is answered with an access token. */
  predicate Grants(db: Db, r: Request, now: int) {
    r.Refresh? && r.token < |db| && r.known
    && (Decide(db[r.token], now) == RotateIt || Decide(db[r.token], now) == Grace)
  }

  predicate ActiveIn(db: Db, i: nat, family: Uuid) {
    Active(db, i) && db[i].family == family
  }

  predicate OneActive(db: Db, family: Uuid) {
    forall i: nat, j: nat | i < |db| && j < |db| && ActiveIn(db, i, family) && ActiveIn(db, j, family) :: i == j
  }

  predicate Dead(db: Db, family: Uuid) {
    forall i | 0 <= i < |db| :: !ActiveIn(db, i, family)
  }

  predicate GraceBy(db: Db, family: Uuid, limit: int) {
    forall i | 0 <= i < |db| && db[i].family == family && db[i].grace.Some? :: db[i].grace.value <= limit
  }

  // ---- What rotating under the lock is worth ----

  /**
   * The check `rotate`'s comment promises and its body omits is exactly the one needed: a
   * rotation keeps its family to one active token and leaves a dead family dead if and only if
   * the locked row is still unrevoked.
   */
  lemma RotateSafeExactly(db: Db, i: nat, started: int, now: int, c: Config)
    requires i < |db| && OneActive(db, db[i].family)
    ensures var db', f := Rotate(db, i, started, now, c), db[i].family;
            (OneActive(db', f) && (Dead(db, f) ==> Dead(db', f))) <==> db[i].revokedAt == None
  {
    var db', f := Rotate(db, i, started, now, c), db[i].family;
    assert ActiveIn(db', |db|, f);
    forall k: nat | k < |db| && k != i ensures ActiveIn(db', k, f) <==> ActiveIn(db, k, f) {}
    if db[i].revokedAt == None {
      assert ActiveIn(db, i, f);
    } else if !Dead(db, f) {
      var k: nat :| k < |db| && ActiveIn(db, k, f);
      assert ActiveIn(db', k, f);
    }
  }

  /** Two overlapping refreshes of one fresh token leave its family with two active tokens. */
  lemma OverlapForks(user: Uuid, family: Uuid, c: Config) returns (s: State, ops: seq<Op>)
    requires c.ttl > 0
    ensures s == State([], map[], 0) && ValidRun(s, ops, c)
    ensures ActiveIn(Run(s, ops, c).db, 1, family) && ActiveIn(Run(s, ops, c).db, 2, family)
  {
    s := State([], map[], 0);
    ops := [Login(user, family), Read(0, 0), Read(0, 1), Commit(0, 0), Commit(1, 0)];
    var s1 := Next(s, ops[0], c);
    var s2 := Next(s1, ops[1], c);
    var s3 := Next(s2, ops[2], c);
    assert s3.tasks == map[0 := Rotating(0, 0), 1 := Rotating(0, 0)];
    var s4 := Next(s3, ops[3], c);
    assert s4.tasks == map[1 := Rotating(0, 0)];
    var s5 := Next(s4, ops[4], c);
    assert ValidRun(s5, [], c);
    assert ops[4..][1..] == [] && ValidRun(s4, ops[4..], c) && Run(s4, ops[4..], c) == s5;
    assert ops[3..][1..] == ops[4..] && ValidRun(s3, ops[3..], c) && Run(s3, ops[3..], c) == s5;
    assert ops[2..][1..] == ops[3..] && ValidRun(s2, ops[2..], c) && Run(s2, ops[2..], c) == s5;
    assert ops[1..][1..] == ops[2..] && ValidRun(s1, ops[1..], c) && Run(s1, ops[1..], c) == s5;
    assert ValidRun(s, ops, c);
  }

  // ---- Runs of whole requests ----

  predicate ValidHistory(db: Db, rs: seq<Timed>, from: int, c: Config)
    decreases |rs|
  {
    rs == [] || (from <= rs[0].time <= rs[0].started <= rs[0].done && Admissible(db, rs[0].request)
                 && ValidHistory(Serve(db, rs[0], c), rs[1..], rs[0].done, c))
  }

  function History(db: Db, rs: seq<Timed>, from: int, c: Config): Db
    requires ValidHistory(db, rs, from, c)
    decreases |rs|
  {
    if rs == [] then db else History(Serve(db, rs[0], c), rs[1..], rs[0].done, c)
  }

  lemma ServeKeepsOneActive(db: Db, t: Timed, c: Config, f: Uuid)
    requires Admissible(db, t.request) && OneActive(db, f)
    ensures OneActive(Serve(db, t, c), f)
  {
    var db', r := Serve(db, t, c), t.request;
    if r.Refresh? && Decide(db[r.token], t.time) == RotateIt {
      assert ActiveIn(db, r.token, db[r.token].family);
      forall k: nat | k < |db| && ActiveIn(db', k, f) ensures ActiveIn(db, k, f) {}
    } else {
      forall k: nat | k < |db| && ActiveIn(db', k, f) ensures ActiveIn(db, k, f) {}
    }
  }

  /** In every history of whole requests, each family has at most one active token. */
  lemma {:induction false} OneActivePerFamily(db: Db, rs: seq<Timed>, from: int, c: Config, f: Uuid)
    requires OneActive(db, f) && ValidHistory(db, rs, from, c)
    ensures OneActive(History(db, rs, from, c), f)
    decreases |rs|
  {
    if rs != [] {
      ServeKeepsOneActive(db, rs[0], c, f);
      OneActivePerFamily(Serve(db, rs[0], c), rs[1..], rs[0].done, c, f);
    }
  }

  lemma {:induction false} GraceBounded(db: Db, rs: seq<Timed>, from: int, c: Config, f: Uuid, until: int)
    requires ValidHistory(db, rs, from, c) && GraceBy(db, f, from + c.grace)
    requires from <= until && forall i | 0 <= i < |rs| :: rs[i].done <= until
    ensures GraceBy(History(db, rs, from, c), f, until + c.grace)
    decreases |rs|
  {
    if rs != [] {
      assert GraceBy(Serve(db, rs[0], c), f, rs[0].done + c.grace);
      GraceBounded(Serve(db, rs[0], c), rs[1..], rs[0].done, c, f, until);
    }
  }

  /** Once dead, a family gains neither an active token nor a later grace window. */
  lemma {:induction false} DeadStaysDead(db: Db, rs: seq<Timed>, from: int, c: Config, f: Uuid, limit: int)
    requires ValidHistory(db, rs, from, c) && Dead(db, f) && GraceBy(db, f, limit)
    requires exists i :: 0 <= i < |db| && db[i].family == f
    ensures Dead(History(db, rs, from, c), f) && GraceBy(History(db, rs, from, c), f, limit)
    decreases |rs|
  {
    if rs != [] {
      var db' := Serve(db, rs[0], c);
      var i :| 0 <= i < |db| && db[i].family == f;
      assert db'[i].family == f;
      assert rs[0].request.Refresh? ==> !ActiveIn(db, rs[0].request.token, f);
      forall k | 0 <= k < |db'| ensures !ActiveIn(db', k, f) {
        assert k < |db| ==> !ActiveIn(db, k, f);
      }
      DeadStaysDead(db', rs[1..], rs[0].done, c, f, limit);
    }
  }

  /**
   * The cut-off: start from no sessions, serve any history of whole requests up to time `t0`;
   * if a family is dead then, no later request is granted an access token by any of its tokens
   * more than the grace window after `t0`, whatever else is served in between.
   */
  lemma FamilyCutOff(rs: seq<Timed>, later: seq<Timed>, t0: int, t: int, c: Config, f: Uuid, r: Request)
    requires ValidHistory([], rs, 0, c) && 0 <= t0 && (forall i | 0 <= i < |rs| :: rs[i].done <= t0)
    requires var db := History([], rs, 0, c);
             Dead(db, f) && (exists i :: 0 <= i < |db| && db[i].family == f) && ValidHistory(db, later, t0, c)
    requires var db := History(History([], rs, 0, c), later, t0, c);
             r.Refresh? && r.token < |db| && db[r.token].family == f
    requires t > t0 + c.grace
    ensures !Grants(History(History([], rs, 0, c), later, t0, c), r, t)
  {
    var db := History([], rs, 0, c);
    GraceBounded([], rs, 0, c, f, t0);
    DeadStaysDead(db, later, t0, c, f, t0 + c.grace);
    assert !ActiveIn(History(db, later, t0, c), r.token, f);
  }

  /** A token presented after its grace window kills its whole family, and no other, without a reply token. */
  lemma ReuseKillsFamily(db: Db, t: Timed, c: Config, f: Uuid)
    requires t.request.Refresh? && t.request.token < |db| && Decide(db[t.request.token], t.time) == Reuse
    ensures var i, db' := t.request.token, Serve(db, t, c);
            && !Grants(db, t.request, t.time) && Dead(db', db[i].family) && |db'| == |db|
            && (f != db[i].family ==> forall k: nat | k < |db| && db[k].family == f :: db'[k] == db[k])
  {
  }

  // ---- Logging out everywhere ----

  /** A family belongs to one user. */
  predicate OneUser(db: Db, family: Uuid, user: Uuid) {
    forall i | 0 <= i < |db| && db[i].family == family :: db[i].user == user
  }

  lemma {:induction false} FamilyOfOneUser(db: Db, rs: seq<Timed>, from: int, c: Config, f: Uuid, user: Uuid, i: nat)
    requires ValidHistory(db, rs, from, c)
    requires (exists k :: 0 <= k < |db| && db[k].family == f) ==> exists u :: OneUser(db, f, u)
    requires i < |History(db, rs, from, c)| && History(db, rs, from, c)[i].family == f
            && History(db, rs, from, c)[i].user == user
    ensures OneUser(History(db, rs, from, c), f, user)
    decreases |rs|
  {
    if rs == [] {
      var u :| OneUser(db, f, u);
    } else {
      var db' := Serve(db, rs[0], c);
      if exists k :: 0 <= k < |db| && db[k].family == f {
        var u :| OneUser(db, f, u);
        assert OneUser(db', f, u);
      } else if rs[0].request.LogIn? {
        assert OneUser(db', f, rs[0].request.user);
      }
      FamilyOfOneUser(db', rs[1..], rs[0].done, c, f, user, i);
    }
  }

  /**
   * After any history, logging out everywhere leaves every family of the user dead, whatever is
   * served later: by `FamilyCutOff` their last access token is at most a grace window away.
   */
  lemma LogOutAllKills(rs: seq<Timed>, out: Timed, later: seq<Timed>, c: Config, i: nat)
    requires ValidHistory([], rs, 0, c) && (forall k | 0 <= k < |rs| :: rs[k].done <= out.time)
            && 0 <= out.time <= out.done
    requires var db := History([], rs, 0, c);
             i < |db| && out.request == LogOutAll(db[i].user) && ValidHistory(Serve(db, out, c), later, out.done, c)
    ensures var db := History([], rs, 0, c);
            Dead(History(Serve(db, out, c), later, out.done, c), db[i].family)
  {
    var db := History([], rs, 0, c);
    var f := db[i].family;
    FamilyOfOneUser([], rs, 0, c, f, db[i].user, i);
    GraceBounded([], rs, 0, c, f, out.time);
    var db' := Serve(db, out, c);
    assert db'[i].family == f && Dead(db', f) && GraceBy(db', f, out.time + c.grace);
    DeadStaysDead(db', later, out.done, c, f, out.time + c.grace);
  }
}

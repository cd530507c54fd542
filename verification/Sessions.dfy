/**
 * Refresh tokens: rotation, the grace window and reuse detection. Rows are listed in order
 * of creation and never deleted, so a row's index stands for its id and its age.
 */
module Sessions {
  import opened Base

  datatype Token = Token(user: Uuid, family: Uuid, rotatedTo: Option<nat>, revokedAt: Option<int>,
                         expires: int, grace: Option<int>)

  type Db = seq<Token>

  /** `RT_TTL_SECONDS` and `RT_GRACE_SECONDS`, in milliseconds. */
  datatype Config = Config(ttl: nat, grace: nat)

  predicate Active(db: Db, i: nat) {
    i < |db| && db[i].revokedAt == None
  }

  function Issue(db: Db, user: Uuid, family: Uuid, now: int, c: Config): Db {
    db + [Token(user, family, None, None, now + c.ttl, None)]
  }

  /**
   * `rotate`: expiry and grace are computed at `started`, before the transaction; the row is
   * locked, but whether it is still unrevoked is not looked at again.
   */
  function Rotate(db: Db, i: nat, started: int, now: int, c: Config): Db
    requires i < |db|
  {
    Issue(db, db[i].user, db[i].family, started, c)
    [i := db[i].(revokedAt := Some(now), rotatedTo := Some(|db|), grace := Some(started + c.grace))]
  }

  /** `revoke`: an already revoked row is stamped again. */
  function Revoke(db: Db, i: nat, now: int): Db
    requires i < |db|
  {
    db[i := db[i].(revokedAt := Some(now))]
  }

  function RevokeFamily(db: Db, family: Uuid, now: int): Db {
    seq(|db|, i requires 0 <= i < |db| =>
      if db[i].family == family && db[i].revokedAt == None then db[i].(revokedAt := Some(now)) else db[i])
  }

  function RevokeAllForUser(db: Db, user: Uuid, now: int): Db {
    seq(|db|, i requires 0 <= i < |db| =>
      if db[i].user == user && db[i].revokedAt == None then db[i].(revokedAt := Some(now)) else db[i])
  }

  /** What `refresh` decides from the row it read: the four branches of the controller. */
  datatype Decision = Expired | RotateIt | Grace | Reuse

  function Decide(t: Token, now: int): Decision {
    if now >= t.expires then Expired
    else if t.revokedAt == None then RotateIt
    else if t.grace.Some? && now <= t.grace.value then Grace
    else Reuse
  }

  // ---- The rotation graph, under every interleaving ----

  /** A refresh in flight between its read and its write. */
  datatype Task = Rotating(token: nat, readAt: int) | Revoking(family: Uuid)

  datatype State = State(db: Db, tasks: map<nat, Task>, clock: int)

  datatype Op =
    | Wait(until: int)
    | Login(user: Uuid, family: Uuid)
    | Read(token: nat, task: nat)
    | Commit(task: nat, started: int)
    | Logout(token: nat)
    | LogoutAll(user: Uuid)
    | Crash(lost: set<nat>)

  predicate Enabled(s: State, op: Op) {
    match op
    case Wait(until) => s.clock <= until
    case Login(_, family) => forall i | 0 <= i < |s.db| :: s.db[i].family != family
    case Read(token, task) => token < |s.db| && task !in s.tasks
    case Commit(task, started) =>
      && task in s.tasks
      && (s.tasks[task].Rotating? ==> s.tasks[task].token < |s.db| && s.tasks[task].readAt <= started <= s.clock)
    case Logout(token) => token < |s.db|
    case LogoutAll(_) => true
    case Crash(_) => true
  }

  function Next(s: State, op: Op, c: Config): State
    requires Enabled(s, op)
  {
    match op
    case Wait(until) => s.(clock := until)
    case Login(user, family) => s.(db := Issue(s.db, user, family, s.clock, c))
    case Read(token, task) =>
      (match Decide(s.db[token], s.clock)
       case RotateIt => s.(tasks := s.tasks[task := Rotating(token, s.clock)])
       case Reuse => s.(tasks := s.tasks[task := Revoking(s.db[token].family)])
       case Expired => s
       case Grace => s)
    case Commit(task, started) =>
      (match s.tasks[task]
       case Rotating(token, _) =>
         s.(db := Rotate(s.db, token, started, s.clock, c), tasks := s.tasks - {task})
       case Revoking(family) =>
         s.(db := RevokeFamily(s.db, family, s.clock), tasks := s.tasks - {task}))
    case Logout(token) => s.(db := Revoke(s.db, token, s.clock))
    case LogoutAll(user) => s.(db := RevokeAllForUser(s.db, user, s.clock))
    case Crash(lost) => s.(tasks := s.tasks - lost)
  }

  /** The step answers a request that presented token `i` with an access token. */
  predicate GrantsOn(s: State, op: Op, i: nat) {
    match op
    case Read(token, _) => token == i && i < |s.db| && Decide(s.db[i], s.clock) == Grace
    case Commit(task, _) => task in s.tasks && s.tasks[task].Rotating? && s.tasks[task].token == i
    case _ => false
  }

  predicate LinkOk(db: Db, i: nat)
    requires i < |db|
  {
    && (db[i].rotatedTo.Some? <==> db[i].grace.Some?)
    && (db[i].rotatedTo.Some? ==>
          var j := db[i].rotatedTo.value;
          && i < j < |db| && db[j].family == db[i].family && db[j].user == db[i].user
          && db[i].expires <= db[j].expires && db[i].revokedAt.Some?)
  }

  predicate LinksOk(db: Db) {
    forall i | 0 <= i < |db| :: LinkOk(db, i)
  }

  predicate TaskOk(s: State, t: Task, c: Config) {
    t.Rotating? ==> t.token < |s.db| && t.readAt <= s.clock && s.db[t.token].expires <= t.readAt + c.ttl
  }

  predicate Inv(s: State, c: Config) {
    && LinksOk(s.db)
    && (forall i | 0 <= i < |s.db| :: s.db[i].expires <= s.clock + c.ttl)
    && (forall t | t in s.tasks :: TaskOk(s, s.tasks[t], c))
  }

  /** Identity, expiry and revocation of a row are permanent. */
  predicate Keeps(a: Db, b: Db) {
    && |a| <= |b|
    && forall i | 0 <= i < |a| ::
         b[i].user == a[i].user && b[i].family == a[i].family && b[i].expires == a[i].expires
         && (a[i].revokedAt.Some? ==> b[i].revokedAt.Some?)
         && (a[i].rotatedTo.Some? ==> b[i].rotatedTo.Some? && b[i].rotatedTo.value >= a[i].rotatedTo.value)
  }

  lemma RotateKeeps(db: Db, i: nat, started: int, now: int, c: Config)
    requires LinksOk(db) && i < |db| && db[i].expires <= started + c.ttl
    ensures LinksOk(Rotate(db, i, started, now, c)) && Keeps(db, Rotate(db, i, started, now, c))
  {
    var db' := Rotate(db, i, started, now, c);
    assert LinkOk(db, i);
    forall k | 0 <= k < |db'| ensures LinkOk(db', k) {
      if k < |db| { assert LinkOk(db, k); }
    }
  }

  lemma RevokeKeeps(db: Db, db': Db)
    requires LinksOk(db) && |db'| == |db|
    requires forall i | 0 <= i < |db| ::
               db'[i] == db[i] || (db'[i] == db[i].(revokedAt := db'[i].revokedAt) && db'[i].revokedAt.Some?)
    ensures LinksOk(db') && Keeps(db, db')
  {
    forall k | 0 <= k < |db'| ensures LinkOk(db', k) {
      assert LinkOk(db, k);
    }
  }

  lemma IssueKeeps(db: Db, user: Uuid, family: Uuid, now: int, c: Config)
    requires LinksOk(db)
    ensures LinksOk(Issue(db, user, family, now, c)) && Keeps(db, Issue(db, user, family, now, c))
  {
    forall k | 0 <= k < |db| ensures LinkOk(Issue(db, user, family, now, c), k) {
      assert LinkOk(db, k);
    }
  }

  lemma NextKeepsInv(s: State, op: Op, c: Config)
    requires Inv(s, c) && Enabled(s, op)
    ensures Inv(Next(s, op, c), c) && Keeps(s.db, Next(s, op, c).db)
  {
    var s' := Next(s, op, c);
    match op {
      case Login(user, family) => IssueKeeps(s.db, user, family, s.clock, c);
      case Commit(task, started) =>
        assert TaskOk(s, s.tasks[task], c);
        if s.tasks[task].Rotating? {
          RotateKeeps(s.db, s.tasks[task].token, started, s.clock, c);
        } else {
          RevokeKeeps(s.db, s'.db);
        }
      case Wait(_) => RevokeKeeps(s.db, s'.db);
      case Read(_, _) => RevokeKeeps(s.db, s'.db);
      case Logout(_) => RevokeKeeps(s.db, s'.db);
      case LogoutAll(_) => RevokeKeeps(s.db, s'.db);
      case Crash(_) => RevokeKeeps(s.db, s'.db);
    }
    forall t | t in s'.tasks ensures TaskOk(s', s'.tasks[t], c) {
      assert t in s.tasks ==> TaskOk(s, s.tasks[t], c);
    }
  }

  ghost predicate ValidRun(s: State, ops: seq<Op>, c: Config)
    decreases |ops|
  {
    ops == [] || (Enabled(s, ops[0]) && ValidRun(Next(s, ops[0], c), ops[1..], c))
  }

  ghost function Run(s: State, ops: seq<Op>, c: Config): State
    requires ValidRun(s, ops, c)
    decreases |ops|
  {
    if ops == [] then s else Run(Next(s, ops[0], c), ops[1..], c)
  }

  /** The token reached after `n` rotations, if the chain is that long. */
  function Follow(db: Db, i: nat, n: nat): Option<nat>
    decreases n
  {
    if n == 0 || i >= |db| then Some(i)
    else match db[i].rotatedTo
      case None => None
      case Some(j) => Follow(db, j, n - 1)
  }

  /** Every chain of rotations moves to younger tokens of the same session, so it never comes back. */
  lemma {:induction false} ChainsAscend(db: Db, i: nat, n: nat)
    requires LinksOk(db) && i < |db|
    ensures var j := Follow(db, i, n);
            j.Some? ==> i + n <= j.value < |db| && db[j.value].family == db[i].family && db[j.value].user == db[i].user
                        && db[i].expires <= db[j.value].expires
    ensures n > 0 ==> Follow(db, i, n) != Some(i)
    decreases n
  {
    if n > 0 && db[i].rotatedTo.Some? {
      assert LinkOk(db, i);
      ChainsAscend(db, db[i].rotatedTo.value, n - 1);
    }
  }

  /** Overlapping refreshes, logouts and crashes included: the rotation graph stays well formed. */
  lemma {:induction false} RotationGraph(s: State, ops: seq<Op>, c: Config, i: nat, n: nat)
    requires Inv(s, c) && ValidRun(s, ops, c)
    ensures var t := Run(s, ops, c);
            && Inv(t, c) && Keeps(s.db, t.db)
            && (i < |t.db| ==> LinkOk(t.db, i) && (n > 0 ==> Follow(t.db, i, n) != Some(i)))
    decreases |ops|
  {
    if ops == [] {
      if i < |s.db| { ChainsAscend(s.db, i, n); }
    } else {
      NextKeepsInv(s, ops[0], c);
      RotationGraph(Next(s, ops[0], c), ops[1..], c, i, n);
    }
  }
}

/** The writers of the `refresh_tokens` table. */
module SessionsRepository {
  import opened Base
  import S = Sessions
  import SC = SessionCutoff

  class SessionsRepository {
    const config: S.Config
    var tokens: seq<S.Token>

    constructor (config: S.Config)
      ensures tokens == [] && this.config == config
    {
      this.config, tokens := config, [];
    }

    /** `issueNewFamily`: the first token of a fresh family is its only active one. */
    method IssueNewFamily(user: Uuid, family: Uuid, started: int) returns (id: nat)
      modifies this
      ensures tokens == S.Issue(old(tokens), user, family, started, config) && id == |old(tokens)|
      ensures tokens == old(tokens) + [S.Token(user, family, None, None, started + config.ttl, None)]
      ensures (forall i | 0 <= i < |old(tokens)| :: old(tokens)[i].family != family) ==>
                forall i: nat :: SC.ActiveIn(tokens, i, family) <==> i == id
    {
      id := |tokens|;
      tokens := tokens + [S.Token(user, family, None, None, started + config.ttl, None)];
    }

    /**
     * `rotate`: insert the successor first, then revoke and link the locked row. Where the
     * family had one active token and this was it, the successor is now the only one.
     */
    method Rotate(id: nat, started: int, now: int) returns (newId: nat)
      requires id < |tokens|
      modifies this
      ensures tokens == S.Rotate(old(tokens), id, started, now, config) && newId == |old(tokens)|
      ensures var t := old(tokens)[id];
              && |tokens| == |old(tokens)| + 1
              && tokens[newId] == S.Token(t.user, t.family, None, None, started + config.ttl, None)
              && tokens[id] == t.(revokedAt := Some(now), rotatedTo := Some(newId),
                                  grace := Some(started + config.grace))
              && forall i | 0 <= i < newId && i != id :: tokens[i] == old(tokens)[i]
      ensures var family := old(tokens)[id].family;
              SC.OneActive(old(tokens), family) && old(tokens)[id].revokedAt == None ==>
                forall i: nat :: SC.ActiveIn(tokens, i, family) <==> i == newId
    {
      var current := tokens[id];
      newId := |tokens|;
      tokens := tokens + [S.Token(current.user, current.family, None, None, started + config.ttl, None)];
      tokens := tokens[id := current.(revokedAt := Some(now), rotatedTo := Some(newId),
          grace := Some(started + config.grace))];
      assert current.revokedAt == None ==> SC.ActiveIn(old(tokens), id, current.family);
      assert forall i: nat | i < newId && i != id ::
          SC.ActiveIn(tokens, i, current.family) <==> SC.ActiveIn(old(tokens), i, current.family);
    }

    /** `revoke`: this row is inactive afterwards, and no other row is touched. */
    method Revoke(id: nat, now: int)
      requires id < |tokens|
      modifies this
      ensures tokens == S.Revoke(old(tokens), id, now)
      ensures |tokens| == |old(tokens)| && tokens[id] == old(tokens)[id].(revokedAt := Some(now))
      ensures !S.Active(tokens, id) && forall i | 0 <= i < |tokens| && i != id :: tokens[i] == old(tokens)[i]
    {
      tokens := tokens[id := tokens[id].(revokedAt := Some(now))];
    }

    /** `revokeFamily`: one UPDATE over the family's unrevoked rows. */
    method RevokeFamily(family: Uuid, now: int)
      modifies this
      ensures tokens == S.RevokeFamily(old(tokens), family, now)
      ensures |tokens| == |old(tokens)|
              && forall i | 0 <= i < |tokens| ::
                   var t := old(tokens)[i];
                   tokens[i] == if t.family == family && t.revokedAt == None then t.(revokedAt := Some(now)) else t
    {
      for i := 0 to |tokens|
        invariant |tokens| == |old(tokens)|
        invariant tokens[i..] == old(tokens)[i..]
        invariant tokens[..i] == S.RevokeFamily(old(tokens), family, now)[..i]
      {
        if tokens[i].family == family && tokens[i].revokedAt == None {
          tokens := tokens[i := tokens[i].(revokedAt := Some(now))];
        }
      }
    }

    /** `revokeAllForUser`. */
    method RevokeAllForUser(user: Uuid, now: int)
      modifies this
      ensures tokens == S.RevokeAllForUser(old(tokens), user, now)
      ensures |tokens| == |old(tokens)|
              && forall i | 0 <= i < |tokens| ::
                   var t := old(tokens)[i];
                   tokens[i] == if t.user == user && t.revokedAt == None then t.(revokedAt := Some(now)) else t
    {
      for i := 0 to |tokens|
        invariant |tokens| == |old(tokens)|
        invariant tokens[i..] == old(tokens)[i..]
        invariant tokens[..i] == S.RevokeAllForUser(old(tokens), user, now)[..i]
      {
        if tokens[i].user == user && tokens[i].revokedAt == None {
          tokens := tokens[i := tokens[i].(revokedAt := Some(now))];
        }
      }
    }
  }
}

/** What the auth controller makes of a presented refresh token. */
module AuthController {
  import opened Base
  import SR = SessionsRepository
  import opened Sessions
  import opened SessionCutoff

  class AuthController {
    const sessions: SR.SessionsRepository

    constructor (sessions: SR.SessionsRepository)
      ensures this.sessions == sessions
    {
      this.sessions := sessions;
    }

    /**
     * `refresh`. `presented` is the row found for the cookie, if there is a cookie and a row;
     * `known` is the user lookup's answer; the row is read at `now`, expiry and grace are
     * computed at `started`, the write is at `done`. An expired token gets nothing, whatever else
     * is true of it; an unrevoked one is exchanged; one revoked within its grace window gets an
     * access token and no more; any other costs its whole family.
     */
    method Refresh(presented: Option<nat>, known: bool, now: int, started: int, done: int)
      returns (accessToken: bool, cookie: Option<nat>)
      requires presented.Some? ==> presented.value < |sessions.tokens|
      modifies sessions
      ensures presented == None ==> !accessToken && cookie == None && sessions.tokens == old(sessions.tokens)
      ensures presented.Some? ==>
                var request := Request.Refresh(presented.value, known);
                && sessions.tokens == Serve(old(sessions.tokens), At(now, started, done, request), sessions.config)
                && accessToken == Grants(old(sessions.tokens), request, now)
      ensures presented.Some? ==>
                var i, was, db := presented.value, old(sessions.tokens), sessions.tokens;
                var t := was[i];
                if now >= t.expires || (t.revokedAt == None && !known) then
                  !accessToken && cookie == None && db == was
                else if t.revokedAt == None then
                  && accessToken && cookie == Some(|was|) && |db| == |was| + 1
                  && db[|was|] == Token(t.user, t.family, None, None, started + sessions.config.ttl, None)
                  && db[i] == t.(revokedAt := Some(done), rotatedTo := Some(|was|),
                                 grace := Some(started + sessions.config.grace))
                  && forall k | 0 <= k < |was| && k != i :: db[k] == was[k]
                else if t.grace.Some? && now <= t.grace.value then
                  accessToken == known && cookie == None && db == was
                else
                  && !accessToken && cookie == None && |db| == |was|
                  && forall k | 0 <= k < |was| ::
                       db[k] == if was[k].family == t.family && was[k].revokedAt == None
                                then was[k].(revokedAt := Some(done)) else was[k]
      ensures cookie.Some? ==> accessToken && cookie.value == |old(sessions.tokens)| && cookie.value < |sessions.tokens|
      ensures cookie.Some? <==> |sessions.tokens| > |old(sessions.tokens)|
    {
      cookie := None;
      if presented == None {
        return false, cookie;
      }
      var row := sessions.tokens[presented.value];
      if now >= row.expires {
        return false, cookie;
      }
      if row.revokedAt == None {
        if !known {
          return false, cookie;
        }
        var newId := sessions.Rotate(presented.value, started, done);
        return true, Some(newId);
      }
      if row.grace.Some? && now <= row.grace.value {
        return known, cookie;
      }
      sessions.RevokeFamily(row.family, done);
      return false, cookie;
    }

    /** `logout`: the presented token only, if there is one. */
    method Logout(presented: Option<nat>, now: int)
      requires presented.Some? ==> presented.value < |sessions.tokens|
      modifies sessions
      ensures sessions.tokens ==
              if presented == None then old(sessions.tokens)
              else old(sessions.tokens)[presented.value :=
                     old(sessions.tokens)[presented.value].(revokedAt := Some(now))]
      ensures presented.Some? ==>
                sessions.tokens
                == Serve(old(sessions.tokens), At(now, now, now, LogOut(presented.value)), sessions.config)
    {
      if presented.Some? {
        sessions.Revoke(presented.value, now);
      }
    }

    /**
     * `logoutAll`: where a token is presented, no token of its user is active afterwards, and
     * nothing else has changed.
     */
    method LogoutAll(presented: Option<nat>, now: int)
      requires presented.Some? ==> presented.value < |sessions.tokens|
      modifies sessions
      ensures presented == None ==> sessions.tokens == old(sessions.tokens)
      ensures presented.Some? ==>
                var user := old(sessions.tokens)[presented.value].user;
                && sessions.tokens == Serve(old(sessions.tokens), At(now, now, now, LogOutAll(user)), sessions.config)
                && |sessions.tokens| == |old(sessions.tokens)|
                && forall i | 0 <= i < |sessions.tokens| ::
                     var t := old(sessions.tokens)[i];
                     sessions.tokens[i] == if t.user == user && t.revokedAt == None
                                           then t.(revokedAt := Some(now)) else t
    {
      if presented.Some? {
        sessions.RevokeAllForUser(sessions.tokens[presented.value].user, now);
      }
    }
  }
}

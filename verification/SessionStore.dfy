/** The session tables as they are updated in place, each method against the function of Sessions that specifies it. */
module SessionStore {
  import opened Options
  import opened Sessions

  class AuthRepository {
    var users: map<UserId, User>
    var refreshTokens: map<Hash, Token>
    var resetTokens: map<ResetId, ResetToken>

    function Tables(): Auth
      reads this
    {
      Auth(users, refreshTokens, resetTokens)
    }

    constructor ()
      ensures Tables() == Auth(map[], map[], map[])
    {
      users, refreshTokens, resetTokens := map[], map[], map[];
    }

    method InsertRefreshToken(h: Hash, u: UserId, family: FamilyId, expires: int)
      modifies `refreshTokens
      ensures Tables() == InsertToken(old(Tables()), h, u, family, expires)
    {
      refreshTokens := refreshTokens[h := Token(u, family, expires, false, None)];
    }

    /** The update that revokes a family, row by row. */
    method RevokeRefreshFamily(f: FamilyId)
      modifies `refreshTokens
      ensures Tables() == RevokeFamily(old(Tables()), f)
    {
      var rest := refreshTokens.Keys;
      while rest != {}
        invariant rest <= refreshTokens.Keys == old(refreshTokens.Keys)
        invariant forall h :: h in refreshTokens ==>
          refreshTokens[h] == if h in rest then old(refreshTokens)[h] else RevokeFamily(old(Tables()), f).refresh[h]
        decreases rest
      {
        var h :| h in rest;
        rest := rest - {h};
        if refreshTokens[h].family == f {
          refreshTokens := refreshTokens[h := refreshTokens[h].(revoked := true)];
        }
      }
    }

    method RevokeUserRefreshTokens(u: UserId)
      modifies `refreshTokens
      ensures Tables() == RevokeUser(old(Tables()), u)
    {
      var rest := refreshTokens.Keys;
      while rest != {}
        invariant rest <= refreshTokens.Keys == old(refreshTokens.Keys)
        invariant forall h :: h in refreshTokens ==>
          refreshTokens[h] == if h in rest then old(refreshTokens)[h] else RevokeUser(old(Tables()), u).refresh[h]
        decreases rest
      {
        var h :| h in rest;
        rest := rest - {h};
        if refreshTokens[h].user == u {
          refreshTokens := refreshTokens[h := refreshTokens[h].(revoked := true)];
        }
      }
    }

    method RotateRefreshToken(h: Hash, next: Hash, family: FamilyId, expires: int, now: int) returns (reply: Rotation)
      modifies `refreshTokens
      ensures (Tables(), reply) == Rotate(old(Tables()), h, next, family, expires, now)
    {
      if h !in refreshTokens {
        return Invalid;
      }
      var r := refreshTokens[h];
      if r.revoked {
        RevokeRefreshFamily(r.family);
        return Reuse;
      }
      if r.expires <= now || r.user !in users {
        return Invalid;
      }
      if next in refreshTokens {
        return Collision;
      }
      refreshTokens := refreshTokens[h := r.(revoked := true, replacedBy := Some(next))];
      InsertRefreshToken(next, r.user, family, expires);
      return Rotated(r.user, users[r.user].active, users[r.user].version);
    }

    /** The new version, or nothing for an unknown user. */
    method BumpUserSessionVersion(u: UserId) returns (version: Option<nat>)
      modifies `users
      ensures Tables() == Bump(old(Tables()), u)
      ensures version == if u in users then Some(users[u].version) else None
    {
      if u !in users {
        return None;
      }
      users := users[u := users[u].(version := users[u].version + 1)];
      return Some(users[u].version);
    }

    method SetUserStatus(u: UserId, active: bool)
      modifies `users
      ensures Tables() == SetStatus(old(Tables()), u, active)
    {
      if u in users {
        users := users[u := users[u].(active := active, version := users[u].version + 1)];
      }
    }

    method UpdatePasswordHash(u: UserId, password: nat) returns (found: bool)
      modifies `users
      ensures Tables() == Rehash(old(Tables()), u, password)
      ensures found <==> u in old(users)
    {
      if u !in users {
        return false;
      }
      users := users[u := users[u].(password := password, outdated := false)];
      return true;
    }

    method ConsumeResetTokenAndChangePassword(r: ResetId, u: UserId, password: nat) returns (ok: bool)
      modifies this
      ensures (Tables(), ok) == Consume(old(Tables()), r, u, password)
    {
      if r !in resetTokens || resetTokens[r].user != u || resetTokens[r].used {
        return false;
      }
      resetTokens := resetTokens[r := resetTokens[r].(used := true)];
      if u in users {
        users := users[u := users[u].(password := password, outdated := false, version := users[u].version + 1)];
      }
      RevokeUserRefreshTokens(u);
      return true;
    }
  }
}

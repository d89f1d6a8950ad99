/** The token repository and the auth handlers in their own form, statement by
    statement, proved against the one-step handlers of TokenModel. */
module TokenObjects {
  import opened Wire
  import opened TokenModel

  class TokenRepository {
    var rows: map<Token, TokenRow>

    constructor ()
      ensures rows == map[]
    {
      rows := map[];
    }

    method Create(t: Token, row: TokenRow)
      modifies this
      ensures rows == old(rows)[t := row]
    {
      rows := rows[t := row];
    }

    method GetByHash(t: Token) returns (found: Option<TokenRow>)
      ensures found == if t in rows then Some(rows[t]) else None
    {
      found := if t in rows then Some(rows[t]) else None;
    }

    method Revoke(t: Token, now: nat)
      modifies this
      ensures rows.Keys == old(rows).Keys
      ensures forall k :: k in rows ==> rows[k] == if k == t then old(rows)[k].(revoked := Some(now)) else old(rows)[k]
    {
      if t in rows {
        rows := rows[t := rows[t].(revoked := Some(now))];
      }
    }

    method RevokeAllForUser(u: UserId, now: nat)
      modifies this
      ensures rows.Keys == old(rows).Keys
      ensures forall k :: k in rows ==>
                            rows[k] == if old(rows)[k].user == u && old(rows)[k].revoked == None
                                       then old(rows)[k].(revoked := Some(now)) else old(rows)[k]
    {
      rows := map k | k in rows ::
        if rows[k].user == u && rows[k].revoked == None then rows[k].(revoked := Some(now)) else rows[k];
    }
  }

  class AuthHandler {
    const repo: TokenRepository
    const ttl: nat
    var users: set<UserId>
    var lineages: nat
    var exchanges: seq<Exchange>

    constructor (repo: TokenRepository, users: set<UserId>, ttl: nat)
      ensures this.repo == repo && Value() == Db(repo.rows, users, ttl, 0, [])
    {
      this.repo, this.users, this.ttl := repo, users, ttl;
      lineages, exchanges := 0, [];
    }

    function Value(): Db
      reads this, repo
    {
      Db(repo.rows, users, ttl, lineages, exchanges)
    }

    method SignIn(u: UserId, valid: bool, verified: bool, issued: Token, now: nat, fault: Fault) returns (res: Response)
      modifies this, repo
      ensures (Value(), res) == Login(old(Value()), u, valid, verified, issued, now, fault)
      ensures res.Tokens? <==> u in users && valid && verified && fault != LookupFails && fault != CreateFails
      ensures res.Tokens? ==>
                res.refresh == issued && repo.rows == old(repo.rows)[issued := TokenRow(u, now + ttl, None, old(lineages))]
      ensures !res.Tokens? ==> repo.rows == old(repo.rows)
    {
      if fault == LookupFails {
        return ServerError;
      }
      if u !in users || !valid {
        return Unauthorized;
      }
      if !verified {
        return Forbidden;
      }
      if fault == CreateFails {
        return ServerError;
      }
      repo.Create(issued, TokenRow(u, now + ttl, None, lineages));
      lineages := lineages + 1;
      res := Tokens(issued);
    }

    method RefreshTokens(t: Token, issued: Token, now: nat, fault: Fault) returns (res: Response)
      modifies this, repo
      ensures (Value(), res) == Refresh(old(Value()), t, issued, now, fault)
      ensures res.Tokens? ==>
                && res.refresh == issued && t in old(repo.rows) && old(repo.rows)[t].revoked == None
                && now <= old(repo.rows)[t].expires
                && repo.rows == old(repo.rows)[t := old(repo.rows)[t].(revoked := Some(now))]
                    [issued := TokenRow(old(repo.rows)[t].user, now + ttl, None, old(repo.rows)[t].lineage)]
    {
      if fault == LookupFails {
        return ServerError;
      }
      var token := repo.GetByHash(t);
      if token == None {
        return Unauthorized;
      }
      if token.value.revoked != None {
        if fault != RevokeAllFails {
          repo.RevokeAllForUser(token.value.user, now);
          assert repo.rows == RevokeAllForUser(old(Value()), token.value.user, now).rows;
        }
        return Unauthorized;
      }
      if now > token.value.expires {
        return Unauthorized;
      }
      if fault == RevokeFails {
        return ServerError;
      }
      repo.Revoke(t, now);
      assert repo.rows == Revoke(old(Value()), t, now).rows;
      if fault == UserLookupFails {
        return ServerError;
      }
      if token.value.user !in users {
        return Unauthorized;
      }
      if fault == CreateFails {
        return ServerError;
      }
      repo.Create(issued, TokenRow(token.value.user, now + ttl, None, token.value.lineage));
      exchanges := exchanges + [Exchange(t, issued)];
      res := Tokens(issued);
    }

    method SignOut(t: Token, now: nat, fault: Fault) returns (res: Response)
      modifies this, repo
      ensures (Value(), res) == Logout(old(Value()), t, now, fault)
      ensures res == LoggedOut <==> fault != LookupFails
      ensures res == LoggedOut && t in repo.rows && fault != RevokeFails ==> repo.rows[t].revoked == Some(now)
    {
      if fault == LookupFails {
        return ServerError;
      }
      var token := repo.GetByHash(t);
      if token != None && fault != RevokeFails {
        repo.Revoke(t, now);
      }
      assert fault != RevokeFails ==> repo.rows == Revoke(old(Value()), t, now).rows;
      res := LoggedOut;
    }
  }
}

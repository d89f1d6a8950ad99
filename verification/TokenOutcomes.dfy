/** What each call of the auth handlers answers and writes, and how long a refresh token
    can be exchanged. */
module TokenOutcomes {
  import opened Wire
  import opened TokenModel
  import opened TokenProofs

  // ---------- one call ----------

  /** A sign-in gives tokens exactly to a known user with good credentials and a verified
      address, when no statement fails; the token then lives for ttl. A sign-in that
      gives none writes nothing. */
  lemma LoginSucceedsIff(db: Db, u: UserId, valid: bool, verified: bool, issued: Token, now: nat, fault: Fault)
    requires issued !in db.rows
    ensures var (db', res) := Login(db, u, valid, verified, issued, now, fault);
            var good := u in db.users && valid;
            && (res.Tokens? <==> good && verified && fault != LookupFails && fault != CreateFails)
            && (res == Unauthorized <==> !good && fault != LookupFails)
            && (res == Forbidden <==> good && !verified && fault != LookupFails)
            && (res == ServerError <==> fault == LookupFails || (good && verified && fault == CreateFails))
            && (!res.Tokens? ==> db' == db)
            && (res.Tokens? ==>
                  && res.refresh == issued && db'.rows.Keys == db.rows.Keys + {issued}
                  && db'.rows[issued].user == u && db'.rows[issued].revoked == None
                  && db'.rows[issued].expires == now + db.ttl
                  && db'.rows[issued].lineage == db.lineages
                  && (forall a :: a in db.rows ==> db'.rows[a] == db.rows[a]))
  {
  }

  /** What a refresh answers. */
  lemma RefreshAnswers(db: Db, t: Token, issued: Token, now: nat, fault: Fault)
    ensures var res := Refresh(db, t, issued, now, fault).1;
            var live := Active(db, t) && now <= db.rows[t].expires;
            && (res.Tokens? || res == Unauthorized || res == ServerError)
            && (res.Tokens? ==> res.refresh == issued)
            && (res == Unauthorized <==>
                  fault != LookupFails
                  && (!live || (fault != RevokeFails && fault != UserLookupFails && db.rows[t].user !in db.users)))
            && (res == ServerError <==>
                  || fault == LookupFails
                  || (live && (fault == RevokeFails || fault == UserLookupFails))
                  || (live && fault == CreateFails && db.rows[t].user in db.users))
  {
  }

  /** What a refresh writes, for every row that was there. */
  lemma RefreshWrites(db: Db, t: Token, issued: Token, now: nat, fault: Fault, a: Token)
    requires a in db.rows && issued !in db.rows
    ensures var db' := Refresh(db, t, issued, now, fault).0;
            && a in db'.rows && db'.rows[a] == db.rows[a].(revoked := db'.rows[a].revoked)
            && db'.rows[a].revoked ==
               if Revokes(db, Call(RefreshRequest(t, issued), now, fault), a) then Some(now) else db.rows[a].revoked
  {
  }

  /** The successor of a token lives for ttl from the moment of its creation, and there
      is a new row only if the answer has its token. */
  lemma RefreshCreates(db: Db, t: Token, issued: Token, now: nat, fault: Fault)
    requires issued !in db.rows
    ensures var (db', res) := Refresh(db, t, issued, now, fault);
            && db'.rows.Keys == (if res.Tokens? then db.rows.Keys + {issued} else db.rows.Keys)
            && (res.Tokens? ==>
                  && t in db.rows && db'.rows[issued].user == db.rows[t].user
                  && db'.rows[issued].expires == now + db.ttl && db'.rows[issued].revoked == None)
  {
  }

  /** A logout always succeeds once the token has been looked up, and writes the time to
      the token's row, even if it was revoked before. */
  lemma LogoutRevokes(db: Db, t: Token, now: nat, fault: Fault)
    ensures var (db', res) := Logout(db, t, now, fault);
            && (res == LoggedOut <==> fault != LookupFails) && (res == ServerError <==> fault == LookupFails)
            && db'.rows.Keys == db.rows.Keys
            && (forall a :: a in db.rows ==> db'.rows[a] == db.rows[a].(revoked := db'.rows[a].revoked))
            && (forall a :: a in db.rows ==>
                  db'.rows[a].revoked == if a == t && fault != LookupFails && fault != RevokeFails then Some(now)
                                         else db.rows[a].revoked)
  {
  }

  // ---------- how long a token can be exchanged ----------

  /** What it takes for a call to revoke token x: it is a logout with x, an exchange of
      x that got as far as the revocation, or a detected reuse of a token of x's user
      while x was active. */
  predicate Revokes(db: Db, c: Call, x: Token)
    requires x in db.rows
  {
    match c.r
    case LoginRequest(_, _, _, _) => false
    case LogoutRequest(t) => t == x && c.fault != LookupFails && c.fault != RevokeFails
    case RefreshRequest(t, _) =>
      && t in db.rows && c.fault != LookupFails
      && if db.rows[t].revoked.Some?
         then db.rows[t].user == db.rows[x].user && db.rows[x].revoked == None && c.fault != RevokeAllFails
         else t == x && c.now <= db.rows[t].expires && c.fault != RevokeFails
  }

  lemma OneCall(db: Db, c: Call, x: Token)
    requires FreshEnough(db, c.r) && x in db.rows
    ensures var db' := Handle(db, c).0;
            && db'.ttl == db.ttl && db'.users == db.users
            && x in db'.rows && db'.rows[x].expires == db.rows[x].expires && db'.rows[x].user == db.rows[x].user
            && (Active(db', x) <==> Active(db, x) && !Revokes(db, c, x))
  {
    if c.r.RefreshRequest? {
      RefreshWrites(db, c.r.token, c.r.issued, c.now, c.fault, x);
    }
  }

  predicate Spared(dbs: seq<Db>, calls: seq<Call>, m: nat, x: Token)
    requires m < |calls| && m < |dbs|
  {
    x in dbs[m].rows && !Revokes(dbs[m], calls[m], x)
  }

  /** No call from i on and before j revokes x. */
  ghost predicate LeftAlone(dbs: seq<Db>, calls: seq<Call>, i: nat, j: nat, x: Token)
    requires j < |dbs| == |calls| + 1
  {
    forall m :: i <= m < j ==> Spared(dbs, calls, m, x)
  }

  lemma {:induction false} ActiveWhileLeftAlone(dbs: seq<Db>, calls: seq<Call>, i: nat, j: nat, x: Token)
    requires History(dbs, calls) && i <= j < |dbs| && Active(dbs[i], x)
    ensures dbs[j].ttl == dbs[i].ttl && dbs[j].users == dbs[i].users
    ensures x in dbs[j].rows && dbs[j].rows[x].expires == dbs[i].rows[x].expires && dbs[j].rows[x].user == dbs[i].rows[x].user
    ensures Active(dbs[j], x) <==> LeftAlone(dbs, calls, i, j, x)
    decreases j
  {
    if i < j {
      ActiveWhileLeftAlone(dbs, calls, i, j - 1, x);
      OneCall(dbs[j - 1], calls[j - 1], x);
      assert Active(dbs[j], x) <==> Active(dbs[j - 1], x) && Spared(dbs, calls, j - 1, x);
    }
  }

  /** Call k answers with token x. */
  predicate Issues(dbs: seq<Db>, calls: seq<Call>, k: nat, x: Token)
    requires k < |calls| && k < |dbs|
  {
    Handle(dbs[k], calls[k]).1 == Tokens(x)
  }

  lemma IssuedRow(db: Db, c: Call, x: Token)
    requires FreshEnough(db, c.r) && Handle(db, c).1 == Tokens(x)
    ensures var db' := Handle(db, c).0;
            && x !in db.rows && Active(db', x) && db'.rows[x].expires == c.now + db.ttl
            && db'.ttl == db.ttl && db'.users == db.users && db'.rows[x].user in db.users
  {
  }

  /** A token that was issued at some time can be exchanged later if and only if no call
      in between has revoked it, at most ttl has passed since, and no statement fails. */
  lemma ExchangeableIff(dbs: seq<Db>, calls: seq<Call>, k: nat, j: nat, x: Token, issued: Token, later: nat, fault: Fault)
    requires History(dbs, calls) && k < j < |dbs| && Issues(dbs, calls, k, x) && issued !in dbs[j].rows
    ensures x in dbs[k + 1].rows
    ensures Refresh(dbs[j], x, issued, later, fault).1.Tokens? <==>
            && LeftAlone(dbs, calls, k + 1, j, x)
            && later <= calls[k].now + dbs[k].ttl
            && (fault == NoFault || fault == RevokeAllFails)
  {
    IssuedRow(dbs[k], calls[k], x);
    assert dbs[k + 1] == Handle(dbs[k], calls[k]).0;
    ActiveWhileLeftAlone(dbs, calls, k + 1, j, x);
    RefreshSucceedsIff(dbs[j], x, issued, later, fault);
  }
}

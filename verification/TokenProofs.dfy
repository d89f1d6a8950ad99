/** Rotation lineage over whole histories of atomic handlers. */
module TokenProofs {
  import opened Wire
  import opened TokenModel

  /** Each token is exchanged at most once, and only a token that it leaves revoked. */
  ghost predicate ExchangedOnce(db: Db) {
    && (forall i, j :: 0 <= i < j < |db.exchanges| ==> db.exchanges[i].given != db.exchanges[j].given)
    && (forall i :: 0 <= i < |db.exchanges| ==>
          db.exchanges[i].given in db.rows && db.rows[db.exchanges[i].given].revoked.Some?)
  }

  /** A lineage has at most one unrevoked token. */
  ghost predicate OneActive(db: Db) {
    && (forall a, b :: Active(db, a) && Active(db, b) && db.rows[a].lineage == db.rows[b].lineage ==> a == b)
    && (forall a :: a in db.rows ==> db.rows[a].lineage < db.lineages)
  }

  /** An exchange stays within one user and one lineage. */
  ghost predicate ExchangesStay(db: Db) {
    forall i :: 0 <= i < |db.exchanges| ==>
                  var e := db.exchanges[i];
                  e.given in db.rows && e.issued in db.rows
                  && db.rows[e.given].user == db.rows[e.issued].user && db.rows[e.given].lineage == db.rows[e.issued].lineage
  }

  ghost predicate Inv(db: Db) {
    ExchangedOnce(db) && OneActive(db) && ExchangesStay(db)
  }

  /** Rows stay, with their user and lineage; a revocation is never undone; and an
      exchange in this step is of a token that was active before it. */
  ghost predicate Later(db: Db, db': Db) {
    && (forall t :: t in db.rows ==>
          && t in db'.rows && db'.rows[t].user == db.rows[t].user && db'.rows[t].lineage == db.rows[t].lineage
          && (db.rows[t].revoked.Some? ==> db'.rows[t].revoked.Some?))
    && db.exchanges <= db'.exchanges
    && (forall i :: |db.exchanges| <= i < |db'.exchanges| ==>
          db'.exchanges[i].given in db.rows ==> Active(db, db'.exchanges[i].given))
  }

  lemma RevokeInv(db: Db, t: Token, now: nat)
    requires Inv(db)
    ensures Inv(Revoke(db, t, now)) && Later(db, Revoke(db, t, now))
  {
  }

  lemma RevokeAllInv(db: Db, u: UserId, now: nat)
    requires Inv(db)
    ensures Inv(RevokeAllForUser(db, u, now)) && Later(db, RevokeAllForUser(db, u, now))
  {
  }

  lemma LoginInv(db: Db, u: UserId, valid: bool, verified: bool, issued: Token, now: nat, fault: Fault)
    requires Inv(db) && issued !in db.rows
    ensures var db' := Login(db, u, valid, verified, issued, now, fault).0; Inv(db') && Later(db, db')
  {
  }

  /** The last part of a rotation: t has just been revoked and was never exchanged. */
  function Issue(db: Db, t: Token, issued: Token, now: nat): Db
    requires t in db.rows
  {
    var next := Create(db, issued, db.rows[t].user, now, db.rows[t].lineage);
    next.(exchanges := next.exchanges + [Exchange(t, issued)])
  }

  lemma IssueInv(db: Db, t: Token, issued: Token, now: nat)
    requires Inv(db) && t in db.rows && issued !in db.rows && db.rows[t].revoked.Some?
    requires forall i :: 0 <= i < |db.exchanges| ==> db.exchanges[i].given != t
    requires forall a :: Active(db, a) ==> db.rows[a].lineage != db.rows[t].lineage
    ensures Inv(Issue(db, t, issued, now))
  {
    var db' := Issue(db, t, issued, now);
    assert ExchangedOnce(db');
    assert ExchangesStay(db');
    assert forall a :: Active(db', a) && a != issued ==> Active(db, a);
  }

  lemma RotateInv(db: Db, t: Token, issued: Token, now: nat, fault: Fault)
    requires Inv(db) && Active(db, t) && issued !in db.rows
    ensures Inv(Rotate(db, t, issued, now, fault).0) && Later(db, Rotate(db, t, issued, now, fault).0)
  {
    RevokeInv(db, t, now);
    RotateLater(db, t, issued, now, fault);
    if Rotate(db, t, issued, now, fault).1.Tokens? {
      var revoked := Revoke(db, t, now);
      assert forall a :: Active(revoked, a) ==> Active(db, a) && a != t;
      IssueInv(revoked, t, issued, now);
    }
  }

  lemma RotateLater(db: Db, t: Token, issued: Token, now: nat, fault: Fault)
    requires Active(db, t) && issued !in db.rows
    ensures Later(db, Rotate(db, t, issued, now, fault).0)
  {
  }

  lemma RefreshInv(db: Db, t: Token, issued: Token, now: nat, fault: Fault)
    requires Inv(db) && issued !in db.rows
    ensures Inv(Refresh(db, t, issued, now, fault).0) && Later(db, Refresh(db, t, issued, now, fault).0)
  {
    if t in db.rows {
      if Active(db, t) {
        RotateInv(db, t, issued, now, fault);
      } else {
        RevokeAllInv(db, db.rows[t].user, now);
      }
    }
  }

  lemma LogoutInv(db: Db, t: Token, now: nat, fault: Fault)
    requires Inv(db)
    ensures Inv(Logout(db, t, now, fault).0) && Later(db, Logout(db, t, now, fault).0)
  {
    RevokeInv(db, t, now);
  }

  lemma HandleInv(db: Db, c: Call)
    requires Inv(db) && FreshEnough(db, c.r)
    ensures Inv(Handle(db, c).0) && Later(db, Handle(db, c).0)
  {
    match c.r
    case LoginRequest(u, valid, verified, issued) => LoginInv(db, u, valid, verified, issued, c.now, c.fault);
    case RefreshRequest(t, issued) => RefreshInv(db, t, issued, c.now, c.fault);
    case LogoutRequest(t) => LogoutInv(db, t, c.now, c.fault);
  }

  lemma LaterTransitive(a: Db, b: Db, c: Db)
    requires Later(a, b) && Later(b, c)
    ensures Later(a, c)
  {
    forall i | |a.exchanges| <= i < |c.exchanges| && c.exchanges[i].given in a.rows
      ensures Active(a, c.exchanges[i].given)
    {
      if i < |b.exchanges| {
        assert c.exchanges[i] == b.exchanges[i];
      }
    }
  }

  lemma {:induction false} HistoryInv(dbs: seq<Db>, calls: seq<Call>, i: nat)
    requires History(dbs, calls) && i < |dbs|
    ensures Inv(dbs[i])
  {
    if i > 0 {
      HistoryInv(dbs, calls, i - 1);
      HandleInv(dbs[i - 1], calls[i - 1]);
    }
  }

  lemma StepLater(dbs: seq<Db>, calls: seq<Call>, i: nat)
    requires History(dbs, calls) && i < |calls|
    ensures Later(dbs[i], dbs[i + 1])
  {
    HistoryInv(dbs, calls, i);
    HandleInv(dbs[i], calls[i]);
  }

  lemma {:induction false} HistoryLater(dbs: seq<Db>, calls: seq<Call>, i: nat, j: nat)
    requires History(dbs, calls) && i <= j < |dbs|
    ensures Later(dbs[i], dbs[j])
    decreases j
  {
    if i < j {
      HistoryLater(dbs, calls, i, j - 1);
      StepLater(dbs, calls, j - 1);
      LaterTransitive(dbs[i], dbs[j - 1], dbs[j]);
    }
  }

  /** Rotation lineage: at any two points of any history of atomic handlers. */
  lemma RotationLineage(dbs: seq<Db>, calls: seq<Call>, i: nat, j: nat)
    requires History(dbs, calls) && i <= j < |dbs|
    ensures forall t :: t in dbs[i].rows && dbs[i].rows[t].revoked.Some? ==>
                          t in dbs[j].rows && dbs[j].rows[t].revoked.Some?
    ensures forall a, b :: 0 <= a < b < |dbs[j].exchanges| ==> dbs[j].exchanges[a].given != dbs[j].exchanges[b].given
    ensures forall a, b :: Active(dbs[j], a) && Active(dbs[j], b) && dbs[j].rows[a].lineage == dbs[j].rows[b].lineage ==> a == b
  {
    HistoryLater(dbs, calls, i, j);
    HistoryInv(dbs, calls, j);
  }

  /** After a reuse detection whose RevokeAllForUser did not fail, no token that the
      user had by then is ever exchanged again. */
  lemma ReuseEndsEverything(dbs: seq<Db>, calls: seq<Call>, i: nat, j: nat, t: Token)
    requires History(dbs, calls) && i < j < |dbs|
    requires calls[i].r.RefreshRequest? && calls[i].r.token in dbs[i].rows
    requires dbs[i].rows[calls[i].r.token].revoked.Some? && calls[i].fault != LookupFails && calls[i].fault != RevokeAllFails
    requires t in dbs[i].rows && dbs[i].rows[t].user == dbs[i].rows[calls[i].r.token].user
    ensures t in dbs[j].rows && dbs[j].rows[t].revoked.Some?
    ensures forall e :: |dbs[i].exchanges| <= e < |dbs[j].exchanges| ==> dbs[j].exchanges[e].given != t
  {
    var after := dbs[i + 1];
    assert t in after.rows && after.rows[t].revoked.Some? && after.exchanges == dbs[i].exchanges;
    HistoryLater(dbs, calls, i + 1, j);
  }

  /** RevokeAllForUser is the only thing that can go wrong: the user's tokens are all
      revoked after the detection if and only if it did not fail or nothing was active. */
  lemma ReuseRevokesAllIff(db: Db, t: Token, issued: Token, now: nat, fault: Fault)
    requires t in db.rows && db.rows[t].revoked.Some? && fault != LookupFails
    ensures (forall a :: Active(Refresh(db, t, issued, now, fault).0, a) ==> db.rows[a].user != db.rows[t].user)
            <==> fault != RevokeAllFails || (forall a :: Active(db, a) ==> db.rows[a].user != db.rows[t].user)
  {
  }

  /** A refresh succeeds exactly for an active, unexpired token of a known user when no
      statement that it reaches fails; nothing else ever creates a successor. */
  lemma RefreshSucceedsIff(db: Db, t: Token, issued: Token, now: nat, fault: Fault)
    requires issued !in db.rows
    ensures Refresh(db, t, issued, now, fault).1.Tokens? <==>
            Active(db, t) && now <= db.rows[t].expires && db.rows[t].user in db.users
            && (fault == NoFault || fault == RevokeAllFails)
    ensures Refresh(db, t, issued, now, fault).1.Tokens? ==>
              var db' := Refresh(db, t, issued, now, fault).0;
              && Active(db', issued) && !Active(db', t)
              && db'.rows[issued].user == db.rows[t].user && db'.rows[issued].lineage == db.rows[t].lineage
              && (forall a :: a in db.rows && a != t ==> db'.rows[a] == db.rows[a])
  {
  }

  // ---------- handlers that are not atomic ----------

  /** A handler that passed its checks earlier rotates now. Its lineage keeps at most one
      active token if and only if the token is still active, or no other one is. */
  lemma LateRotationIff(db: Db, t: Token, issued: Token, now: nat)
    requires Inv(db) && t in db.rows && issued !in db.rows && db.rows[t].user in db.users
    ensures OneActive(Rotate(db, t, issued, now, NoFault).0)
            <==> Active(db, t) || forall a :: Active(db, a) ==> db.rows[a].lineage != db.rows[t].lineage
  {
    var db' := Rotate(db, t, issued, now, NoFault).0;
    LateRows(db, t, issued, now);
    if OneActive(db') {
      forall a | Active(db, a) && !Active(db, t) ensures db.rows[a].lineage != db.rows[t].lineage {
        assert Active(db', a) && Active(db', issued);
      }
    }
    if Active(db, t) || forall a :: Active(db, a) ==> db.rows[a].lineage != db.rows[t].lineage {
      forall a, b | Active(db', a) && Active(db', b) && db'.rows[a].lineage == db'.rows[b].lineage ensures a == b {
        assert (a == issued || Active(db, a)) && (b == issued || Active(db, b));
      }
    }
  }

  /** After the rotation, t is revoked, the issued token is active, the others are as before. */
  lemma LateRows(db: Db, t: Token, issued: Token, now: nat)
    requires t in db.rows && issued !in db.rows && db.rows[t].user in db.users
    ensures var db' := Rotate(db, t, issued, now, NoFault).0;
            && db'.rows.Keys == db.rows.Keys + {issued} && db'.lineages == db.lineages
            && (forall a :: a in db.rows ==> db'.rows[a].lineage == db.rows[a].lineage)
            && db'.rows[issued].lineage == db.rows[t].lineage
            && (forall a :: Active(db', a) <==> a == issued || (a != t && Active(db, a)))
  {
  }

  /** Call k is a refresh that exchanges t. */
  predicate Exchanges(dbs: seq<Db>, calls: seq<Call>, k: nat, t: Token)
    requires k < |calls| && k < |dbs|
  {
    calls[k].r.RefreshRequest? && calls[k].r.token == t && Handle(dbs[k], calls[k]).1.Tokens?
  }

  lemma StepExchanges(dbs: seq<Db>, calls: seq<Call>, k: nat, t: Token)
    requires History(dbs, calls) && k < |calls|
    ensures dbs[k + 1].exchanges ==
            if Handle(dbs[k], calls[k]).1.Tokens? && calls[k].r.RefreshRequest?
            then dbs[k].exchanges + [Exchange(calls[k].r.token, calls[k].r.issued)] else dbs[k].exchanges
  {
  }

  /** The exchanges of a token are the calls that exchanged it. */
  lemma {:induction false} ExchangedMeanwhile(dbs: seq<Db>, calls: seq<Call>, i: nat, j: nat, t: Token)
    requires History(dbs, calls) && i <= j < |dbs|
    requires forall e :: 0 <= e < |dbs[i].exchanges| ==> dbs[i].exchanges[e].given != t
    ensures (exists e :: 0 <= e < |dbs[j].exchanges| && dbs[j].exchanges[e].given == t)
            <==> exists k :: i <= k < j && Exchanges(dbs, calls, k, t)
    decreases j
  {
    if i < j {
      ExchangedMeanwhile(dbs, calls, i, j - 1, t);
      StepExchanges(dbs, calls, j - 1, t);
      var before, after := dbs[j - 1].exchanges, dbs[j].exchanges;
      assert forall e :: 0 <= e < |before| ==> after[e] == before[e];
      if Exchanges(dbs, calls, j - 1, t) {
        assert after[|before|].given == t;
      }
    }
  }

  /** One handler checks a token at i and rotates it at j, while the others stay atomic.
      The token is then exchanged twice if and only if one of the calls in between
      exchanged it. */
  lemma DeferredRotation(dbs: seq<Db>, calls: seq<Call>, i: nat, j: nat, t: Token, issued: Token, now: nat)
    requires History(dbs, calls) && i <= j < |dbs| && Active(dbs[i], t)
    requires issued !in dbs[j].rows && dbs[i].rows[t].user in dbs[j].users
    ensures t in dbs[j].rows
    ensures !ExchangedOnce(Rotate(dbs[j], t, issued, now, NoFault).0)
            <==> exists k :: i <= k < j && Exchanges(dbs, calls, k, t)
  {
    HistoryInv(dbs, calls, i);
    HistoryInv(dbs, calls, j);
    HistoryLater(dbs, calls, i, j);
    ExchangedMeanwhile(dbs, calls, i, j, t);
    SecondExchange(dbs[j], t, issued, now);
  }

  lemma SecondExchange(db: Db, t: Token, issued: Token, now: nat)
    requires Inv(db) && t in db.rows && issued !in db.rows && db.rows[t].user in db.users
    ensures !ExchangedOnce(Rotate(db, t, issued, now, NoFault).0)
            <==> exists e :: 0 <= e < |db.exchanges| && db.exchanges[e].given == t
  {
    var db' := Rotate(db, t, issued, now, NoFault).0;
    var n := |db.exchanges|;
    assert db'.exchanges[n].given == t;
    if e :| 0 <= e < n && db.exchanges[e].given == t {
      assert db'.exchanges[e].given == db'.exchanges[n].given;
    }
  }

  /** Two refreshes of one token that both pass their checks before either revokes:
      the token is exchanged twice and its lineage ends up with two active tokens. */
  lemma RacingRefreshes(db: Db, t: Token, f1: Token, f2: Token, now: nat)
    requires Inv(db) && Active(db, t) && db.rows[t].user in db.users
    requires f1 !in db.rows && f2 !in db.rows && f1 != f2
    ensures var db1 := Rotate(db, t, f1, now, NoFault).0;
            var db2 := Rotate(db1, t, f2, now, NoFault).0;
            !ExchangedOnce(db2) && !OneActive(db2) && Active(db2, f1) && Active(db2, f2)
  {
    var db1 := Rotate(db, t, f1, now, NoFault).0;
    var db2 := Rotate(db1, t, f2, now, NoFault).0;
    var n := |db.exchanges|;
    assert db2.exchanges[n].given == t && db2.exchanges[n + 1].given == t;
    assert Active(db2, f1) && Active(db2, f2) && db2.rows[f1].lineage == db2.rows[f2].lineage;
  }
}

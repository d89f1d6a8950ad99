/** Where a delegation row comes from: the grant that committed it, the test for a friend
    that this grant has passed before, and what may become of the friendship in between. */
module Provenance {
  import opened Wire
  import opened SocialModel
  import opened DelegationModel
  import opened SocialProofs
  import opened DelegationTimes

  // ---------- the test of a transaction ----------

  /** The transaction has passed the test for a friend. */
  predicate Passed(tx: Tx) {
    tx.kind.Granting? && (tx.progress.Befriended? || tx.progress.Begun? || tx.progress.Updating?
                          || tx.progress.Updated? || tx.progress.Inserted?)
  }

  lemma {:induction false} WasChecked(ws: seq<World>, acts: seq<Action>, n: nat, x: TxId) returns (k: nat)
    requires Run(ws, acts) && n < |ws| && InTx(ws[n], x) && Passed(ws[n].txs[x])
    ensures k < n && acts[k] == CheckFriend(x) && IsFriend(ws[k].s, ws[n].txs[x].owner, ws[n].txs[x].kind.friend)
    decreases n
  {
    assert n > 0;
    var w, a := ws[n - 1], acts[n - 1];
    assert ws[n] == Apply(w, a);
    if a == CheckFriend(x) {
      k := n - 1;
    } else {
      PassedBefore(w, a, x);
      k := WasChecked(ws, acts, n - 1, x);
    }
  }

  lemma PassedBefore(w: World, a: Action, x: TxId)
    requires Enabled(w, a) && InTx(Apply(w, a), x) && Passed(Apply(w, a).txs[x]) && a != CheckFriend(x)
    ensures InTx(w, x) && Passed(w.txs[x])
    ensures Apply(w, a).txs[x].owner == w.txs[x].owner && Apply(w, a).txs[x].kind == w.txs[x].kind
  {
  }

  // ---------- the grant of a row ----------

  /** Call x, at its commit m, is the grant of this row to this delegate, and passed its
      test for a friend at k. */
  predicate GrantedBy(ws: seq<World>, acts: seq<Action>, k: nat, m: nat, x: TxId, d: DeviceId, r: Delegation)
    requires |ws| == |acts| + 1
  {
    && k < m < |acts| && acts[k] == CheckFriend(x) && acts[m] == Commit(x)
    && InTx(ws[m], x) && ws[m].txs[x].progress.Inserted? && OwnsDevice(ws[m].s, d, r.owner)
    && ws[m].txs[x] == Tx(Granting(r.delegate), d, r.owner, ws[m].txs[x].progress)
    && ws[m].txs[x].progress.start == r.created
    && IsFriend(ws[k].s, r.owner, r.delegate)
  }

  /** Provenance: every delegation row of every state is by the owner of the device, and
      was committed by a grant of this device to this delegate, which before had found the
      delegate a friend of the owner. */
  lemma {:induction false} EveryRowWasGranted(ws: seq<World>, acts: seq<Action>, n: nat, d: DeviceId, i: nat)
    returns (k: nat, m: nat, x: TxId)
    requires Run(ws, acts) && n < |ws| && i < |RowsOf(ws[n].s, d)|
    ensures OwnsDevice(ws[n].s, d, RowsOf(ws[n].s, d)[i].owner)
    ensures m < n && GrantedBy(ws, acts, k, m, x, d, RowsOf(ws[n].s, d)[i])
    decreases n
  {
    RowOfRun(ws, acts, n, d, i);
    if i < |RowsOf(ws[n - 1].s, d)| {
      k, m, x := EveryRowWasGranted(ws, acts, n - 1, d, i);
    } else {
      m, x := n - 1, acts[n - 1].x;
      k := WasChecked(ws, acts, m, x);
    }
  }

  lemma RowOfRun(ws: seq<World>, acts: seq<Action>, n: nat, d: DeviceId, i: nat)
    requires Run(ws, acts) && n < |ws| && i < |RowsOf(ws[n].s, d)|
    ensures OwnsDevice(ws[n].s, d, RowsOf(ws[n].s, d)[i].owner) && n > 0
    ensures RowOrigin(ws[n - 1], acts[n - 1], d, i, RowsOf(ws[n].s, d)[i])
  {
    InvRun(ws, acts, n);
    RowIsOwners(ws[n], d, i);
    assert n > 0;
    InvRun(ws, acts, n - 1);
    assert Enabled(ws[n - 1], acts[n - 1]) && ws[n] == Apply(ws[n - 1], acts[n - 1]);
    RowBefore(ws[n - 1], acts[n - 1], d, i);
  }

  /** Row r was there before, but for its closing, or this commit adds it. */
  ghost predicate RowOrigin(w: World, a: Action, d: DeviceId, i: nat, r: Delegation) {
    if i < |RowsOf(w.s, d)| then
      r == RowsOf(w.s, d)[i].(revoked := r.revoked)
    else
      && a.Commit? && InTx(w, a.x) && w.txs[a.x].progress.Inserted?
      && w.txs[a.x] == Tx(Granting(r.delegate), d, r.owner, w.txs[a.x].progress)
      && r.created == w.txs[a.x].progress.start && OwnsDevice(w.s, d, r.owner)
  }

  lemma RowIsOwners(w: World, d: DeviceId, i: nat)
    requires Inv(w) && i < |RowsOf(w.s, d)|
    ensures OwnsDevice(w.s, d, RowsOf(w.s, d)[i].owner)
  {
    assert RowsOk(w.s.rows[d], w.s.devices[d].owner, w.clock);
  }

  lemma RowBefore(w: World, a: Action, d: DeviceId, i: nat)
    requires Inv(w) && Enabled(w, a) && i < |RowsOf(Apply(w, a).s, d)|
    ensures RowOrigin(w, a, d, i, RowsOf(Apply(w, a).s, d)[i])
  {
    if i < |RowsOf(w.s, d)| {
      RowsOnlyClose(w, a, d, i);
    } else {
      NewRow(w, a, d);
      assert TxOk(w.s, w.clock, w.txs[a.x]);
    }
  }

  /** Only the commit of a grant adds a row. */
  lemma NewRow(w: World, a: Action, d: DeviceId)
    requires Inv(w) && Enabled(w, a) && |RowsOf(w.s, d)| < |RowsOf(Apply(w, a).s, d)|
    ensures a.Commit? && w.txs[a.x].device == d && Passed(w.txs[a.x])
    ensures RowsOf(Apply(w, a).s, d)[|RowsOf(w.s, d)|]
            == Delegation(w.txs[a.x].owner, w.txs[a.x].kind.friend, w.txs[a.x].progress.start, None)
    ensures |RowsOf(Apply(w, a).s, d)| == |RowsOf(w.s, d)| + 1
  {
    if a.Atomic? {
      if d in w.s.devices {
        RowsAtomic(w, a.r, d);
      }
    }
  }

  // ---------- the friendship between test and commit ----------

  /** The action accepts a request between a and b. */
  predicate Befriends(w: World, act: Action, a: UserId, b: UserId) {
    && act.Atomic? && act.r.Accept? && act.r.id in w.s.friends && w.s.friends[act.r.id].Between(a, b)
    && Serve(w.s, act.r).1 == Ok
  }

  /** The action removes the row of a and b by Unfriend. */
  predicate Parts(w: World, act: Action, a: UserId, b: UserId) {
    && act.Atomic? && act.r.Leave? && act.r.id in w.s.friends && w.s.friends[act.r.id].Between(a, b)
    && Serve(w.s, act.r).1 == Ok
  }

  lemma FriendStep(w: World, act: Action, a: UserId, b: UserId)
    requires Inv(w) && Enabled(w, act)
    ensures IsFriend(Apply(w, act).s, a, b) <==>
            Befriends(w, act, a, b) || (IsFriend(w.s, a, b) && !Parts(w, act, a, b))
  {
    if act.Atomic? {
      FriendServe(w.s, act.r, a, b);
    }
  }

  lemma FriendServe(s: State, r: Request, a: UserId, b: UserId)
    requires PairsOk(s) && Bound(s, r)
    ensures IsFriend(Serve(s, r).0, a, b) <==>
            || (r.Accept? && r.id in s.friends && s.friends[r.id].Between(a, b) && Serve(s, r).1 == Ok)
            || (IsFriend(s, a, b) && !(r.Leave? && r.id in s.friends && s.friends[r.id].Between(a, b) && Serve(s, r).1 == Ok))
  {
    var s' := Serve(s, r).0;
    if f :| f in s.friends && s.friends[f].Between(a, b) && s.friends[f].status == Accepted {
      assert f in s'.friends ==> s'.friends[f].Between(a, b) && s'.friends[f].status == Accepted;
      if r.Leave? && r.id in s.friends && s.friends[r.id].Between(a, b) {
        assert SamePair(s.friends[f], s.friends[r.id]);
      }
    }
    if r.Accept? && r.id in s.friends && s.friends[r.id].Between(a, b) && Serve(s, r).1 == Ok {
      assert s'.friends[r.id].Between(a, b);
    }
  }

  /** Every removal of the pair's row in k..m is made good by a later acceptance in k..m. */
  ghost predicate MadeGood(ws: seq<World>, acts: seq<Action>, k: nat, m: nat, a: UserId, b: UserId)
    requires |ws| == |acts| + 1 && m <= |acts|
  {
    forall i :: k <= i < m && Parts(ws[i], acts[i], a, b) ==>
                  exists j :: i < j < m && Befriends(ws[j], acts[j], a, b)
  }

  /** Two users who are friends at k are friends at m if and only if every removal of
      their row in between is followed by an acceptance. */
  lemma {:induction false} StillFriendsIff(ws: seq<World>, acts: seq<Action>, k: nat, m: nat, a: UserId, b: UserId)
    requires Run(ws, acts) && k <= m <= |acts| && IsFriend(ws[k].s, a, b)
    ensures IsFriend(ws[m].s, a, b) <==> MadeGood(ws, acts, k, m, a, b)
    decreases m
  {
    if k < m {
      StillFriendsIff(ws, acts, k, m - 1, a, b);
      InvRun(ws, acts, m - 1);
      assert Enabled(ws[m - 1], acts[m - 1]) && ws[m] == Apply(ws[m - 1], acts[m - 1]);
      FriendStep(ws[m - 1], acts[m - 1], a, b);
      OneMore(ws, acts, k, m, a, b);
    }
  }

  lemma OneMore(ws: seq<World>, acts: seq<Action>, k: nat, m: nat, a: UserId, b: UserId)
    requires |ws| == |acts| + 1 && k < m <= |acts|
    ensures MadeGood(ws, acts, k, m, a, b) <==>
            Befriends(ws[m - 1], acts[m - 1], a, b)
            || (MadeGood(ws, acts, k, m - 1, a, b) && !Parts(ws[m - 1], acts[m - 1], a, b))
  {
    var n := m - 1;
    if Befriends(ws[n], acts[n], a, b) {
      forall i | k <= i < m && Parts(ws[i], acts[i], a, b)
        ensures exists j :: i < j < m && Befriends(ws[j], acts[j], a, b)
      {
        assert i < n;
      }
    } else if MadeGood(ws, acts, k, m, a, b) {
      forall i | k <= i < n && Parts(ws[i], acts[i], a, b)
        ensures exists j :: i < j < n && Befriends(ws[j], acts[j], a, b)
      {
        var j :| i < j < m && Befriends(ws[j], acts[j], a, b);
        assert j != n;
      }
    }
  }

  /** The delegate of a row was a friend of the owner when the row was committed if and
      only if every removal of their row since the test was made good by then. */
  lemma FriendAtCommitIff(ws: seq<World>, acts: seq<Action>, n: nat, d: DeviceId, i: nat)
    returns (k: nat, m: nat, x: TxId)
    requires Run(ws, acts) && n < |ws| && i < |RowsOf(ws[n].s, d)|
    ensures m < n && GrantedBy(ws, acts, k, m, x, d, RowsOf(ws[n].s, d)[i])
    ensures var r := RowsOf(ws[n].s, d)[i];
            IsFriend(ws[m].s, r.owner, r.delegate) <==> MadeGood(ws, acts, k, m, r.owner, r.delegate)
  {
    k, m, x := EveryRowWasGranted(ws, acts, n, d, i);
    StillFriendsIff(ws, acts, k, m, RowsOf(ws[n].s, d)[i].owner, RowsOf(ws[n].s, d)[i].delegate);
  }

  /** Whenever an owner may grant, the friendship can end between the test and the
      transaction; the grant is committed all the same. */
  lemma GrantAfterUnfriend(w0: World, w: World, d: DeviceId, owner: UserId, friend: UserId, f: FriendshipId) returns (w': World)
    requires Leads(w0, w) && MayGrant(w, d, owner, friend, friend)
    requires f in w.s.friends && w.s.friends[f].Between(owner, friend) && w.s.friends[f].status == Accepted
    ensures Leads(w0, w') && !IsFriend(w'.s, owner, friend) && IsAuthorized(w'.s, d, friend)
    ensures w'.s.friends == w.s.friends - {f}
    ensures |RowsOf(w'.s, d)| == |RowsOf(w.s, d)| + 1
    ensures RowsOf(w'.s, d)[|RowsOf(w.s, d)|] == Delegation(owner, friend, w.clock, None)
  {
    FriendIsOther(w.s, owner, friend);
    var x := |w.txs|;
    var w1 := PassChecks(w0, w, d, owner, friend);
    var w2 := EndFriendship(w0, w1, f, owner, friend);
    var w3 := Do(w0, w2, Begin(x, w.clock));
    assert w3.txs[x] == Tx(Granting(friend), d, owner, Begun(w.clock)) && w3.s == w2.s;
    w' := GrantRuns(w0, w3, x);
    OnlyNewIsOpen(w3.s, w3.txs[x], w.clock);
    assert IsOpen(RowsOf(w'.s, d), |RowsOf(w.s, d)|);
  }

  lemma EndFriendship(w0: World, w: World, f: FriendshipId, owner: UserId, friend: UserId) returns (w': World)
    requires Leads(w0, w) && PairsOk(w.s)
    requires f in w.s.friends && w.s.friends[f].Between(owner, friend) && w.s.friends[f].status == Accepted
    ensures Leads(w0, w') && w' == w.(s := w.s.(friends := w.s.friends - {f})) && !IsFriend(w'.s, owner, friend)
  {
    w' := Do(w0, w, Atomic(Leave(f, owner)));
    FriendServe(w.s, Leave(f, owner), owner, friend);
  }

  /** So a run from nothing: user 2 is the delegate of user 1, and nobody has a friend. */
  lemma DelegateIsNoFriend() returns (w: World)
    ensures Leads(INIT, w) && w.s.friends == map[] && IsAuthorized(w.s, 1, 2)
    ensures RowsOf(w.s, 1) == [Delegation(1, 2, 0, None)]
  {
    var w0 := Prepared();
    w := GrantAfterUnfriend(INIT, w0, 1, 1, 2, 1);
  }
}

/** What each call of the friend, device and delegation services answers, and what holds
    of the tables after it. */
module SocialOutcomes {
  import opened Wire
  import opened SocialModel
  import opened DelegationModel
  import opened SocialProofs

  /** s' differs from s in the friendships only. */
  predicate SameDevices(s: State, s': State) {
    s'.devices == s.devices && s'.rows == s.rows
  }

  // ---------- friendships ----------

  /** A request is stored exactly when the two are different and have no row; whoever sent
      it is the requester. */
  lemma SendMeans(s: State, id: FriendshipId, from: UserId, to: UserId)
    requires id !in s.friends
    ensures var (s', a) := SendRequest(s, id, from, to);
            && (a == Ok <==> from != to && !HasRow(s, from, to)) && (a == CannotFriendSelf <==> from == to)
            && (a == FriendshipExists <==> from != to && HasRow(s, from, to)) && (a != Ok ==> s' == s)
            && (a == Ok ==>
                  && s'.friends.Keys == s.friends.Keys + {id} && SameDevices(s, s')
                  && (forall f :: f in s.friends ==> s'.friends[f] == s.friends[f])
                  && s'.friends[id].requester == from && s'.friends[id].addressee == to && s'.friends[id].status.Pending?)
  {
  }

  /** A stored request can be accepted and rejected by nobody but the user that it was
      sent to, withdrawn by nobody but the user who sent it, and makes the two friends,
      and nobody else, once it is accepted. */
  lemma RequestProtocol(s: State, id: FriendshipId, from: UserId, to: UserId, caller: UserId, a: UserId, b: UserId)
    requires id !in s.friends && SendRequest(s, id, from, to).1 == Ok
    ensures var sent := SendRequest(s, id, from, to).0;
            && (AcceptRequest(sent, id, caller).1 == Ok <==> caller == to)
            && (RejectRequest(sent, id, caller).1 == Ok <==> caller == to)
            && (Unfriend(sent, id, caller).1 == Ok <==> caller == from)
            && (IsFriend(sent, a, b) <==> IsFriend(s, a, b))
            && (IsFriend(AcceptRequest(sent, id, to).0, a, b) <==> IsFriend(s, a, b) || {a, b} == {from, to})
            && RejectRequest(sent, id, to).0 == s && Unfriend(sent, id, from).0 == s
  {
    var sent := SendRequest(s, id, from, to).0;
    SendMeans(s, id, from, to);
    assert forall f :: f in s.friends ==> sent.friends[f] == s.friends[f];
    assert forall f :: f in s.friends ==> AcceptRequest(sent, id, to).0.friends[f] == s.friends[f];
    assert {a, b} == {from, to} <==> (a == from && b == to) || (a == to && b == from);
    assert AcceptRequest(sent, id, to).0.friends[id].Between(from, to);
    assert sent.friends - {id} == s.friends;
  }

  /** Acceptance is for the addressee of a pending row, and makes exactly its pair friends. */
  lemma AcceptMeans(s: State, id: FriendshipId, caller: UserId, a: UserId, b: UserId)
    ensures var (s', answer) := AcceptRequest(s, id, caller);
            && (answer == Ok <==> id in s.friends && s.friends[id].addressee == caller && s.friends[id].status.Pending?)
            && (answer == FriendshipNotFound <==> id !in s.friends)
            && (answer == NotAddressee <==> id in s.friends && s.friends[id].addressee != caller)
            && (answer == NotPending <==> id in s.friends && s.friends[id].addressee == caller && s.friends[id].status.Accepted?)
            && (answer != Ok ==> s' == s)
            && (answer == Ok ==>
                  && s'.friends.Keys == s.friends.Keys && SameDevices(s, s')
                  && (IsFriend(s', a, b) <==> IsFriend(s, a, b) || s.friends[id].Between(a, b))
                  && (HasRow(s', a, b) <==> HasRow(s, a, b)))
  {
    var (s', answer) := AcceptRequest(s, id, caller);
    if answer == Ok {
      assert forall f :: f in s.friends ==> s'.friends[f] == if f == id then s.friends[f].(status := Accepted) else s.friends[f];
      if s.friends[id].Between(a, b) {
        assert s'.friends[id].Between(a, b);
      }
      if HasRow(s, a, b) {
        var f :| f in s.friends && s.friends[f].Between(a, b);
        assert s'.friends[f].Between(a, b);
      }
    }
  }

  /** Rejection has the guards of acceptance, and removes the row; nobody's friendship changes. */
  lemma RejectMeans(s: State, id: FriendshipId, caller: UserId, a: UserId, b: UserId)
    ensures var (s', answer) := RejectRequest(s, id, caller);
            && answer == AcceptRequest(s, id, caller).1
            && (answer != Ok ==> s' == s)
            && (answer == Ok ==>
                  && s'.friends.Keys == s.friends.Keys - {id} && SameDevices(s, s')
                  && (forall f :: f in s'.friends ==> s'.friends[f] == s.friends[f])
                  && (IsFriend(s', a, b) <==> IsFriend(s, a, b)))
  {
    var (s', answer) := RejectRequest(s, id, caller);
    if answer == Ok && IsFriend(s, a, b) {
      var f :| f in s.friends && s.friends[f].Between(a, b) && s.friends[f].status == Accepted;
      assert f != id;
      assert f in s'.friends;
    }
  }

  predicate MayRemove(s: State, id: FriendshipId, u: UserId) {
    id in s.friends && (s.friends[id].requester == u || (s.friends[id].addressee == u && s.friends[id].status.Accepted?))
  }

  /** A row is removed by its requester at any time, and by its addressee once it is
      accepted; then its pair, and only its pair, has no row any more. */
  lemma UnfriendMeans(s: State, id: FriendshipId, caller: UserId, a: UserId, b: UserId)
    requires PairsOk(s)
    ensures var (s', answer) := Unfriend(s, id, caller);
            && (answer == Ok <==> MayRemove(s, id, caller))
            && (answer == FriendshipNotFound <==> id !in s.friends)
            && (answer == Ok || answer == FriendshipNotFound || answer == NotParticipant)
            && (answer != Ok ==> s' == s)
            && (answer == Ok ==>
                  && SameDevices(s, s')
                  && (HasRow(s', a, b) <==> HasRow(s, a, b) && !s.friends[id].Between(a, b))
                  && (IsFriend(s', a, b) <==> IsFriend(s, a, b) && !s.friends[id].Between(a, b)))
  {
    var (s', answer) := Unfriend(s, id, caller);
    if answer == Ok {
      forall f | f in s.friends && s.friends[f].Between(a, b) ensures f in s'.friends <==> !s.friends[id].Between(a, b) {
        assert s.friends[id].Between(a, b) ==> SamePair(s.friends[f], s.friends[id]);
        assert f == id ==> s.friends[id].Between(a, b);
      }
      assert forall f :: f in s'.friends ==> f != id && s'.friends[f] == s.friends[f];
    }
  }

  /** The incoming requests of a user are those that he may accept, the outgoing ones the
      pending rows that he may remove. */
  lemma ListsMean(s: State, f: FriendshipId, a: UserId, b: UserId)
    requires PairsOk(s)
    ensures (f, b) in Incoming(s, a) <==> AcceptRequest(s, f, a).1 == Ok && s.friends[f].requester == b
    ensures (f, b) in Outgoing(s, a) <==>
            Unfriend(s, f, a).1 == Ok && s.friends[f].addressee == b && s.friends[f].status.Pending?
    ensures (f, b) in FriendList(s, a) <==>
            f in s.friends && s.friends[f].Between(a, b) && Unfriend(s, f, a).1 == Ok && Unfriend(s, f, b).1 == Ok
            && s.friends[f].status.Accepted?
  {
    InFriendList(s, a, b);
  }

  // ---------- friendships over runs ----------

  /** Action i sends the request that row f is about. */
  predicate Sent(acts: seq<Action>, i: nat, f: FriendshipId, row: Friendship)
    requires i < |acts|
  {
    acts[i] == Atomic(Send(f, row.requester, row.addressee))
  }

  /** Action j is the acceptance of that request by the user to whom it was sent. */
  predicate Agreed(acts: seq<Action>, j: nat, f: FriendshipId, row: Friendship)
    requires j < |acts|
  {
    acts[j] == Atomic(Accept(f, row.addressee))
  }

  lemma RowStep(w: World, a: Action, f: FriendshipId)
    requires Enabled(w, a) && f in Apply(w, a).s.friends
    ensures var row := Apply(w, a).s.friends[f];
            || (f in w.s.friends && w.s.friends[f] == row)
            || (f in w.s.friends && w.s.friends[f] == row.(status := Pending) && a == Atomic(Accept(f, row.addressee)))
            || (row.status.Pending? && a == Atomic(Send(f, row.requester, row.addressee)))
  {
  }

  /** Every friendship was asked for by its requester and, if it is accepted, agreed to
      by its addressee after that. */
  lemma {:induction false} FriendsHaveAgreed(ws: seq<World>, acts: seq<Action>, n: nat, f: FriendshipId)
    requires Run(ws, acts) && n < |ws| && f in ws[n].s.friends
    ensures exists i :: 0 <= i < n && Sent(acts, i, f, ws[n].s.friends[f])
    ensures ws[n].s.friends[f].status.Accepted? ==>
              exists i, j :: 0 <= i < j < n && Sent(acts, i, f, ws[n].s.friends[f]) && Agreed(acts, j, f, ws[n].s.friends[f])
    decreases n
  {
    var w, a := ws[n - 1], acts[n - 1];
    RowStep(w, a, f);
    var row := ws[n].s.friends[f];
    if f in w.s.friends && (w.s.friends[f] == row || a == Atomic(Accept(f, row.addressee))) {
      FriendsHaveAgreed(ws, acts, n - 1, f);
      if w.s.friends[f] != row {
        var i :| 0 <= i < n - 1 && Sent(acts, i, f, w.s.friends[f]);
        assert Sent(acts, i, f, row) && Agreed(acts, n - 1, f, row);
      }
    } else {
      assert Sent(acts, n - 1, f, row);
    }
  }

  // ---------- devices ----------

  /** A device is registered exactly when the user has none of this model; it is then his
      alone, and the other devices are as before. */
  lemma RegisterMeans(s: State, id: DeviceId, u: UserId, model: string, now: nat, e: DeviceId, v: UserId)
    requires id !in s.devices
    ensures var (s', a) := RegisterDevice(s, id, u, model, now);
            && (a == Ok || a == DeviceExists) && (a != Ok ==> s' == s)
            && (a == DeviceExists <==> exists d :: d in s.devices && s.devices[d].owner == u && s.devices[d].model == model)
            && (a == Ok ==>
                  && s'.friends == s.friends && s'.devices.Keys == s.devices.Keys + {id}
                  && s'.devices[id].owner == u && s'.devices[id].model == model && s'.devices[id].created == now
                  && (e in s.devices ==> s'.devices[e] == s.devices[e])
                  && (OwnsDevice(s', e, v) <==> OwnsDevice(s, e, v) || (e == id && v == u))
                  && (IsAuthorized(s', e, v) <==> (e != id && IsAuthorized(s, e, v)) || (e == id && v == u)))
  {
  }

  /** A device is deleted by its owner only, and then nobody is authorized for it. */
  lemma DeleteMeans(s: State, d: DeviceId, u: UserId, e: DeviceId, v: UserId)
    ensures var (s', a) := DeleteDevice(s, d, u);
            && (a == Ok <==> OwnsDevice(s, d, u)) && (a == DeviceNotFound <==> !OwnsDevice(s, d, u)) && (a != Ok ==> s' == s)
            && (a == Ok ==>
                  && s'.friends == s.friends && s'.devices.Keys == s.devices.Keys - {d} && RowsOf(s', d) == []
                  && (e != d && e in s.devices ==> s'.devices[e] == s.devices[e] && RowsOf(s', e) == RowsOf(s, e))
                  && (IsAuthorized(s', e, v) <==> e != d && IsAuthorized(s, e, v)))
  {
  }

  // ---------- delegations ----------

  /** Nothing but the delegations of d has changed. */
  ghost predicate OnlyRowsOf(s: State, s': State, d: DeviceId) {
    && s'.friends == s.friends && s'.devices == s.devices
    && (forall e :: e != d ==> RowsOf(s', e) == RowsOf(s, e))
  }

  /** Among the first |rows| rows, those that were open carry the time, the others are as before. */
  ghost predicate ClosedAt(rows: seq<Delegation>, rows': seq<Delegation>, now: nat) {
    && |rows| <= |rows'|
    && (forall i :: 0 <= i < |rows| ==>
          && rows'[i].owner == rows[i].owner && rows'[i].delegate == rows[i].delegate && rows'[i].created == rows[i].created
          && rows'[i].revoked == if rows[i].revoked == None then Some(now) else rows[i].revoked)
  }

  /** After a revocation that answers Ok nobody but the owner is authorized for the device:
      each row that was open is closed at the given time, and nothing else has changed. */
  lemma RevokeMeans(s: State, d: DeviceId, owner: UserId, start: nat)
    ensures var (s', a) := Revoke(s, d, owner, start);
            && (a == Ok <==> OwnsDevice(s, d, owner)) && (a == DeviceNotFound <==> !OwnsDevice(s, d, owner))
            && (a != Ok ==> s' == s)
            && (a == Ok ==>
                  && OnlyRowsOf(s, s', d)
                  && |RowsOf(s', d)| == |RowsOf(s, d)| && ClosedAt(RowsOf(s, d), RowsOf(s', d), start)
                  && (forall u :: IsAuthorized(s', d, u) <==> u == owner)
                  && (forall u :: !InDelegated(s', d, u) && !Shown(s', d, u)))
  {
    var (s', a) := Revoke(s, d, owner, start);
    if a == Ok {
      assert ClosedAt(RowsOf(s, d), RowsOf(s', d), start);
      assert forall i :: !IsOpen(RowsOf(s', d), i);
    }
  }

  /** After a grant that answers Ok the owner and the friend, and nobody else, are
      authorized: one open row is new, each row that was open is closed, nothing else has
      changed. */
  lemma GrantMeans(s: State, d: DeviceId, owner: UserId, friend: UserId, start: nat)
    ensures var (s', a) := Grant(s, d, owner, friend, start);
            && (a == Ok <==> OwnsDevice(s, d, owner) && IsFriend(s, owner, friend))
            && (a == DeviceNotFound <==> !OwnsDevice(s, d, owner))
            && (a == NotFriends <==> OwnsDevice(s, d, owner) && !IsFriend(s, owner, friend))
            && (a != Ok ==> s' == s)
            && (a == Ok ==>
                  var n := |RowsOf(s, d)|;
                  && OnlyRowsOf(s, s', d)
                  && |RowsOf(s', d)| == n + 1 && ClosedAt(RowsOf(s, d), RowsOf(s', d), start)
                  && RowsOf(s', d)[n].owner == owner && RowsOf(s', d)[n].delegate == friend
                  && RowsOf(s', d)[n].created == start && RowsOf(s', d)[n].revoked == None
                  && (forall u :: IsAuthorized(s', d, u) <==> u == owner || u == friend)
                  && (forall u :: Shown(s', d, u) <==> u == friend))
  {
    var (s', a) := Grant(s, d, owner, friend, start);
    if a == Ok {
      var n := |RowsOf(s, d)|;
      assert ClosedAt(RowsOf(s, d), RowsOf(s', d), start);
      assert forall i :: IsOpen(RowsOf(s', d), i) <==> i == n;
      assert IsNewest(RowsOf(s', d), n);
    }
  }

  /** Grants and revocations that interleave: once one commits, every row that it saw is
      closed; after a grant its friend is the one delegate of the device. */
  lemma CommitMeans(ws: seq<World>, acts: seq<Action>, k: nat, x: TxId)
    requires Run(ws, acts) && k < |acts| && acts[k] == Commit(x) && x < |ws[k].txs| && ws[k].txs[x].device in ws[k].s.devices
    ensures var tx, rows := ws[k].txs[x], RowsOf(ws[k + 1].s, ws[k].txs[x].device);
            && (tx.progress.Updated? || tx.progress.Inserted?)
            && (forall i :: 0 <= i < tx.progress.upto ==> i < |rows| && !IsOpen(rows, i))
            && (tx.kind.Granting? ==>
                  && rows != [] && rows[|rows| - 1] == Delegation(tx.owner, tx.kind.friend, tx.progress.start, None)
                  && forall u :: DelegatedTo(rows, u) <==> u == tx.kind.friend)
  {
    var w := ws[k];
    InvRun(ws, acts, k);
    assert ws[k + 1] == Apply(w, acts[k]);
    var tx := w.txs[x];
    assert TxOk(w.s, w.clock, tx);
    var before, rows := RowsOf(w.s, tx.device), RowsOf(ws[k + 1].s, tx.device);
    if tx.Holds() {
      assert forall i :: 0 <= i < |before| ==> (IsOpen(rows, i) <==> IsOpen(before, i) && i !in tx.Locks());
      if tx.kind.Granting? {
        assert IsOpen(rows, |rows| - 1);
      }
    }
  }
}

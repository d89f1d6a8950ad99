/** The friend, device and delegation services in their own form, over tables that
    the statements reassign. */
module SocialObjects {
  import opened Wire
  import opened Sequences
  import M = SocialModel
  import O = SocialOutcomes

  ghost predicate ByOwner(rows: seq<M.Delegation>, owner: UserId) {
    forall i :: 0 <= i < |rows| ==> rows[i].owner == owner
  }

  class SocialStore {
    var friends: map<M.FriendshipId, M.Friendship>
    var devices: map<M.DeviceId, M.Device>
    var delegations: map<M.DeviceId, seq<M.Delegation>>

    constructor ()
      ensures Valid() && Value() == M.INIT_STATE
    {
      friends, devices, delegations := map[], map[], map[];
    }

    function Value(): M.State
      reads this
    {
      M.State(friends, devices, delegations)
    }

    // ---------- friend.go ----------

    method SendRequest(id: M.FriendshipId, from: UserId, to: UserId) returns (a: M.Answer)
      requires id !in friends
      modifies this
      ensures (Value(), a) == M.SendRequest(old(Value()), id, from, to)
      ensures a == M.Ok <==> from != to && !M.HasRow(old(Value()), from, to)
      ensures friends == if a == M.Ok then old(friends)[id := M.Friendship(from, to, M.Pending)] else old(friends)
    {
      if from == to {
        return M.CannotFriendSelf;
      }
      if exists f :: f in friends && friends[f].Between(from, to) {
        return M.FriendshipExists;
      }
      friends := friends[id := M.Friendship(from, to, M.Pending)];
      a := M.Ok;
    }

    method AcceptRequest(id: M.FriendshipId, caller: UserId) returns (a: M.Answer)
      modifies this
      ensures (Value(), a) == M.AcceptRequest(old(Value()), id, caller)
      ensures a == M.Ok <==>
              id in old(friends) && old(friends)[id].addressee == caller && old(friends)[id].status == M.Pending
      ensures a == M.Ok ==> friends == old(friends)[id := old(friends)[id].(status := M.Accepted)]
    {
      a := AddresseeOfPending(id, caller);
      if a == M.Ok {
        friends := friends[id := friends[id].(status := M.Accepted)];
      }
    }

    method RejectRequest(id: M.FriendshipId, caller: UserId) returns (a: M.Answer)
      modifies this
      ensures (Value(), a) == M.RejectRequest(old(Value()), id, caller)
    {
      a := AddresseeOfPending(id, caller);
      if a == M.Ok {
        friends := friends - {id};
      }
    }

    /** The guards that accepting and rejecting share. */
    method AddresseeOfPending(id: M.FriendshipId, caller: UserId) returns (a: M.Answer)
      ensures a == M.Ok <==> id in friends && friends[id].addressee == caller && friends[id].status == M.Pending
      ensures a == M.FriendshipNotFound <==> id !in friends
      ensures a == M.NotAddressee <==> id in friends && friends[id].addressee != caller
      ensures a == M.Ok || a == M.FriendshipNotFound || a == M.NotAddressee || a == M.NotPending
    {
      if id !in friends {
        return M.FriendshipNotFound;
      }
      if friends[id].addressee != caller {
        return M.NotAddressee;
      }
      a := if friends[id].status != M.Pending then M.NotPending else M.Ok;
    }

    method Unfriend(id: M.FriendshipId, caller: UserId) returns (a: M.Answer)
      modifies this
      ensures (Value(), a) == M.Unfriend(old(Value()), id, caller)
    {
      if id !in friends {
        return M.FriendshipNotFound;
      }
      var f := friends[id];
      if f.requester != caller && f.addressee != caller {
        return M.NotParticipant;
      }
      if f.status == M.Pending && f.requester != caller {
        return M.NotParticipant;
      }
      friends := friends - {id};
      a := M.Ok;
    }

    // ---------- delegation.go ----------

    /** Each device has its group of rows, all of them by its owner. */
    ghost predicate Valid()
      reads this
    {
      && delegations.Keys == devices.Keys
      && (forall d :: d in devices ==> ByOwner(delegations[d], devices[d].owner))
    }

    /** Guards, then the transaction of two statements, which nobody interrupts. Both see
        the time at which it began, and the unique index finds no other active row. */
    method Grant(d: M.DeviceId, owner: UserId, friend: UserId, start: nat) returns (a: M.Answer)
      requires Valid()
      modifies this
      ensures Valid()
      ensures (Value(), a) == M.Grant(old(Value()), d, owner, friend, start)
      ensures a == M.Ok ==> forall u :: M.IsAuthorized(Value(), d, u) <==> u == owner || u == friend
      ensures a == M.Ok ==> O.ClosedAt(M.RowsOf(old(Value()), d), delegations[d], start) && O.OnlyRowsOf(old(Value()), Value(), d)
    {
      if d !in devices || devices[d].owner != owner {
        return M.DeviceNotFound;
      }
      if !M.IsFriend(Value(), owner, friend) {
        return M.NotFriends;
      }
      ghost var before := delegations;
      RevokeWhere(d, None, start);
      ghost var closed := delegations[d];
      IndexIsFree(closed, before[d], start);
      InsertRow(d, M.Delegation(owner, friend, start, None));
      PutTwice(before, d, closed, delegations[d]);
      O.GrantMeans(old(Value()), d, owner, friend, start);
      a := M.Ok;
    }

    /** INSERT, which the unique index admits because no row of the device is active. */
    method InsertRow(d: M.DeviceId, row: M.Delegation)
      requires Valid() && d in devices && row.owner == devices[d].owner && M.OpenRows(delegations[d], |delegations[d]|) == {}
      modifies `delegations
      ensures Valid() && delegations == old(delegations)[d := old(delegations)[d] + [row]]
    {
      delegations := delegations[d := delegations[d] + [row]];
    }

    method Revoke(d: M.DeviceId, owner: UserId, start: nat) returns (a: M.Answer)
      requires Valid()
      modifies this
      ensures Valid()
      ensures (Value(), a) == M.Revoke(old(Value()), d, owner, start)
      ensures a == M.Ok <==> M.OwnsDevice(old(Value()), d, owner)
      ensures a == M.Ok ==> forall u :: M.IsAuthorized(Value(), d, u) <==> u == owner
      ensures a == M.Ok ==> O.ClosedAt(M.RowsOf(old(Value()), d), delegations[d], start) && O.OnlyRowsOf(old(Value()), Value(), d)
    {
      if d !in devices || devices[d].owner != owner {
        return M.DeviceNotFound;
      }
      RevokeWhere(d, Some(owner), start);
      O.RevokeMeans(old(Value()), d, owner, start);
      a := M.Ok;
    }

    /** UPDATE ... SET revoked_at over the active rows that match, row by row. */
    method RevokeWhere(d: M.DeviceId, owner: Option<UserId>, now: nat)
      requires Valid() && d in devices && (owner == None || owner == Some(devices[d].owner))
      modifies `delegations
      ensures Valid()
      ensures var rows := old(delegations)[d];
              delegations == old(delegations)[d := M.Close(rows, M.OpenRows(rows, |rows|), now)]
    {
      ghost var before := delegations[d];
      var rows := delegations[d];
      var i := 0;
      while i < |rows|
        invariant 0 <= i <= |rows| == |before|
        invariant forall k :: i <= k < |rows| ==> rows[k] == before[k]
        invariant forall k :: 0 <= k < i ==> rows[k] == M.Close(before, M.OpenRows(before, |before|), now)[k]
      {
        if rows[i].revoked == None && (owner == None || owner == Some(rows[i].owner)) {
          rows := rows[i := rows[i].(revoked := Some(now))];
        }
        i := i + 1;
      }
      assert rows == M.Close(before, M.OpenRows(before, |before|), now);
      delegations := delegations[d := rows];
    }

    /** The devices of which u is the delegate, oldest device first. */
    method ListDelegated(u: UserId) returns (result: seq<M.DeviceId>)
      ensures Distinct(result) && forall d :: d in result <==> M.InDelegated(Value(), d, u)
      ensures forall i, j :: 0 <= i < j < |result| ==>
                               result[i] in devices && result[j] in devices
                               && devices[result[i]].created <= devices[result[j]].created
    {
      var all := set d | d in devices && M.InDelegated(Value(), d, u);
      result := OldestFirst(all);
    }

    /** ORDER BY d.created_at ASC */
    method OldestFirst(all: set<M.DeviceId>) returns (result: seq<M.DeviceId>)
      requires all <= devices.Keys
      ensures Distinct(result) && forall d :: d in result <==> d in all
      ensures forall i, j :: 0 <= i < j < |result| ==>
                               result[i] in devices && result[j] in devices
                               && devices[result[i]].created <= devices[result[j]].created
    {
      result := [];
      var pending := all;
      while pending != {}
        invariant pending <= all && Distinct(result) && (forall d :: d in result <==> d in all - pending)
        invariant forall i :: 0 <= i < |result| ==> result[i] in devices
        invariant forall i, j :: 0 <= i < j < |result| ==> devices[result[i]].created <= devices[result[j]].created
        invariant forall i, d :: 0 <= i < |result| && d in pending ==> devices[result[i]].created <= devices[d].created
        decreases |pending|
      {
        OldestExists(devices, pending);
        var next :| next in pending && forall d :: d in pending ==> devices[next].created <= devices[d].created;
        assert next !in result;
        result := result + [next];
        pending := pending - {next};
      }
    }

    // ---------- device.go ----------

    method RegisterDevice(id: M.DeviceId, u: UserId, model: string, now: nat) returns (a: M.Answer)
      requires Valid() && id !in devices
      modifies this
      ensures Valid()
      ensures (Value(), a) == M.RegisterDevice(old(Value()), id, u, model, now)
    {
      if exists d :: d in devices && devices[d].owner == u && devices[d].model == model {
        return M.DeviceExists;
      }
      devices := devices[id := M.Device(u, model, now)];
      delegations := delegations[id := []];
      a := M.Ok;
    }

    method DeleteDevice(d: M.DeviceId, u: UserId) returns (a: M.Answer)
      requires Valid()
      modifies this
      ensures Valid()
      ensures (Value(), a) == M.DeleteDevice(old(Value()), d, u)
    {
      if d !in devices || devices[d].owner != u {
        return M.DeviceNotFound;
      }
      devices := devices - {d};
      delegations := delegations - {d};
      a := M.Ok;
    }

    /** The LATERAL join of List for one device: the newest active row, if there is one. */
    method DelegateOf(d: M.DeviceId) returns (delegate: Option<UserId>)
      requires Valid() && d in devices
      ensures delegate.Some? ==> M.Shown(Value(), d, delegate.value)
      ensures delegate == None ==> forall u :: !M.Shown(Value(), d, u)
    {
      delegate := None;
      var rows, best, i := delegations[d], 0, 0;
      while i < |rows|
        invariant 0 <= i <= |rows|
        invariant delegate == None ==> forall k :: 0 <= k < i ==> !M.IsOpen(rows, k)
        invariant delegate.Some? ==>
                    && best < i && M.IsOpen(rows, best) && rows[best].delegate == delegate.value
                    && forall k :: 0 <= k < i && M.IsOpen(rows, k) ==> rows[k].created <= rows[best].created
      {
        if M.IsOpen(rows, i) && (delegate == None || rows[i].created > rows[best].created) {
          delegate, best := Some(rows[i].delegate), i;
        }
        i := i + 1;
      }
      assert M.RowsOf(Value(), d) == rows;
      assert delegate.Some? ==> M.IsNewest(rows, best);
    }
  }

  lemma PutTwice<K, V>(m: map<K, V>, k: K, v: V, v': V)
    ensures m[k := v][k := v'] == m[k := v']
  {
  }

  /** What the insert after the UPDATE relies on: no active row is left. */
  lemma IndexIsFree(after: seq<M.Delegation>, rows: seq<M.Delegation>, now: nat)
    requires after == M.Close(rows, M.OpenRows(rows, |rows|), now)
    ensures M.OpenRows(after, |after|) == {}
  {
  }

  lemma {:induction false} OldestExists(devices: map<M.DeviceId, M.Device>, ds: set<M.DeviceId>)
    requires ds != {} && ds <= devices.Keys
    ensures exists d :: d in ds && forall e :: e in ds ==> devices[d].created <= devices[e].created
  {
    var d :| d in ds;
    if ds == {d} {
      assert forall e :: e in ds ==> devices[d].created <= devices[e].created;
    } else {
      OldestExists(devices, ds - {d});
      var m :| m in ds - {d} && forall e :: e in ds - {d} ==> devices[m].created <= devices[e].created;
      var best := if devices[d].created < devices[m].created then d else m;
      assert forall e :: e in ds ==> e == d || e in ds - {d};
      assert best in ds && forall e :: e in ds ==> devices[best].created <= devices[e].created;
    }
  }
}

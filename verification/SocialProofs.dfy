/** One row per pair of users, one open delegation per device, and views that agree,
    in every interleaving of requests and delegation transactions. */
module SocialProofs {
  import opened Wire
  import opened SocialModel
  import opened DelegationModel

  // ---------- friendships ----------

  /** At most one row for an unordered pair, and none with oneself. */
  ghost predicate PairsOk(s: State) {
    && (forall f :: f in s.friends ==> s.friends[f].requester != s.friends[f].addressee)
    && (forall f, g :: f in s.friends && g in s.friends && SamePair(s.friends[f], s.friends[g]) ==> f == g)
  }

  predicate SamePair(a: Friendship, b: Friendship) {
    b.Between(a.requester, a.addressee)
  }

  /** An insert keeps one row per pair if and only if the pair has none when it commits;
      the unique constraint of the table only covers one direction. */
  lemma InsertKeepsPairsIff(s: State, id: FriendshipId, a: UserId, b: UserId)
    requires PairsOk(s) && id !in s.friends && a != b
    ensures PairsOk(s.(friends := s.friends[id := Friendship(a, b, Pending)])) <==> !HasRow(s, a, b)
  {
    var s' := s.(friends := s.friends[id := Friendship(a, b, Pending)]);
    if f :| f in s.friends && s.friends[f].Between(a, b) {
      assert s'.friends[f].Between(s'.friends[id].requester, s'.friends[id].addressee);
    }
  }

  /** Two users who ask each other at the same time, each before the other's insert. */
  lemma CrossingRequests(s: State, f: FriendshipId, g: FriendshipId, a: UserId, b: UserId)
    requires PairsOk(s) && f !in s.friends && g !in s.friends && f != g && a != b && !HasRow(s, a, b)
    ensures SendRequest(s, f, a, b).1 == Ok && SendRequest(s, g, b, a).1 == Ok
    ensures !PairsOk(s.(friends := s.friends[f := Friendship(a, b, Pending)][g := Friendship(b, a, Pending)]))
  {
    assert !HasRow(s, b, a) by {
      assert forall h :: h in s.friends ==> (s.friends[h].Between(a, b) <==> s.friends[h].Between(b, a));
    }
    InsertKeepsPairsIff(s, f, a, b);
    var s1 := s.(friends := s.friends[f := Friendship(a, b, Pending)]);
    assert s1.friends[f].Between(b, a);
    InsertKeepsPairsIff(s1, g, b, a);
  }

  /** The three lists of two users mirror each other, agree with IsFriend, which is
      symmetric, and name the pair in at most one way. */
  lemma ListsMirror(s: State, a: UserId, b: UserId)
    requires PairsOk(s)
    ensures IsFriend(s, a, b) <==> IsFriend(s, b, a)
    ensures IsFriend(s, a, b) <==> exists f :: f in s.friends && (f, b) in FriendList(s, a)
    ensures forall f :: (f, b) in FriendList(s, a) <==> (f, a) in FriendList(s, b)
    ensures forall f :: (f, b) in Incoming(s, a) <==> (f, a) in Outgoing(s, b)
    ensures forall f, g :: (f, b) in Everyone(s, a) && (g, b) in Everyone(s, a) ==> f == g
    ensures FriendList(s, a) !! Incoming(s, a) && FriendList(s, a) !! Outgoing(s, a) && Incoming(s, a) !! Outgoing(s, a)
  {
    InFriendList(s, a, b);
    InFriendList(s, b, a);
    OneWay(s, a, b);
  }

  lemma InFriendList(s: State, a: UserId, b: UserId)
    requires PairsOk(s)
    ensures forall f :: (f, b) in FriendList(s, a) <==>
                        f in s.friends && s.friends[f].Between(a, b) && s.friends[f].status == Accepted
  {
    forall f | f in s.friends && s.friends[f].Between(a, b) && s.friends[f].status == Accepted
      ensures (f, b) in FriendList(s, a)
    {
      assert s.friends[f].requester != s.friends[f].addressee;
    }
  }

  lemma OneWay(s: State, a: UserId, b: UserId)
    requires PairsOk(s)
    ensures forall f, g :: (f, b) in Everyone(s, a) && (g, b) in Everyone(s, a) ==> f == g
  {
    assert forall f :: (f, b) in Everyone(s, a) ==> f in s.friends && s.friends[f].Between(a, b);
  }

  function Everyone(s: State, u: UserId): set<(FriendshipId, UserId)> {
    FriendList(s, u) + Incoming(s, u) + Outgoing(s, u)
  }

  /** ListFriends: the other participant of each accepted row. */
  function FriendList(s: State, u: UserId): set<(FriendshipId, UserId)> {
    set f | f in s.friends && (s.friends[f].requester == u || s.friends[f].addressee == u) && s.friends[f].status == Accepted
      :: (f, if s.friends[f].requester == u then s.friends[f].addressee else s.friends[f].requester)
  }

  /** ListIncomingRequests */
  function Incoming(s: State, u: UserId): set<(FriendshipId, UserId)> {
    set f | f in s.friends && s.friends[f].addressee == u && s.friends[f].status == Pending :: (f, s.friends[f].requester)
  }

  /** ListOutgoingRequests */
  function Outgoing(s: State, u: UserId): set<(FriendshipId, UserId)> {
    set f | f in s.friends && s.friends[f].requester == u && s.friends[f].status == Pending :: (f, s.friends[f].addressee)
  }

  // ---------- the invariant ----------

  /** All rows of a device but the last are closed; the last may be open. Each was
      granted by the owner, to someone else, and carries times of the past. */
  ghost predicate RowsOk(rows: seq<Delegation>, owner: UserId, clock: nat) {
    && (forall i :: 0 <= i < |rows| - 1 ==> rows[i].revoked.Some?)
    && (forall i :: 0 <= i < |rows| ==>
          && rows[i].owner == owner && rows[i].delegate != owner && rows[i].created <= clock
          && (rows[i].revoked.Some? ==> rows[i].revoked.value <= clock))
  }

  ghost predicate TablesOk(s: State, clock: nat) {
    && PairsOk(s)
    && s.rows.Keys == s.devices.Keys
    && (forall d :: d in s.devices ==> RowsOk(s.rows[d], s.devices[d].owner, clock))
  }

  predicate IsOwner(tx: Tx) {
    !tx.progress.Asked? && !tx.progress.Denied? && !tx.progress.Committed? && !tx.progress.Aborted?
  }

  /** What a transaction has learnt, and what its locks keep true. */
  ghost predicate TxOk(s: State, clock: nat, tx: Tx) {
    var rows := RowsOf(s, tx.device);
    && (IsOwner(tx) ==> (tx.device in s.devices ==> s.devices[tx.device].owner == tx.owner))
    && (IsOwner(tx) && tx.kind.Granting? && !tx.progress.Owned? ==> tx.owner != tx.kind.friend)
    && (tx.progress.Begun? || tx.progress.Updating? || tx.progress.Updated? || tx.progress.Inserted? ==> tx.progress.start <= clock)
    && (tx.Holds() ==> tx.device in s.devices)
    && (tx.progress.Updating? || tx.progress.Updated? || tx.progress.Inserted? ==>
          tx.device in s.devices ==> tx.progress.upto <= |rows|)
    && (forall i :: i in tx.Locks() ==> IsOpen(rows, i) && i < tx.progress.upto)
    && (tx.progress.Updated? ==> forall i :: IsOpen(rows, i) && i < tx.progress.upto ==> i in tx.Locks())
    && (tx.progress.Inserted? ==> tx.kind.Granting? && forall i :: IsOpen(rows, i) ==> i in tx.Locks())
  }

  /** Two transactions on one device hold different rows, and only one has inserted. */
  predicate Apart(a: Tx, b: Tx) {
    a.device == b.device ==> a.Locks() !! b.Locks() && !(a.progress.Inserted? && b.progress.Inserted?)
  }

  ghost predicate TxsOk(w: World) {
    && (forall x :: 0 <= x < |w.txs| ==> TxOk(w.s, w.clock, w.txs[x]))
    && (forall x, y :: 0 <= x < |w.txs| && 0 <= y < |w.txs| && x != y ==> Apart(w.txs[x], w.txs[y]))
  }

  ghost predicate Inv(w: World) {
    TablesOk(w.s, w.clock) && TxsOk(w) && w.starts.Keys <= w.s.devices.Keys
  }

  // ---------- one action ----------

  /** One transaction moves on without writing. */
  lemma InvProgress(w: World, x: TxId, p: Progress, clock: nat)
    requires Inv(w) && InTx(w, x) && w.clock <= clock
    requires TxOk(w.s, clock, w.txs[x].(progress := p)) && !w.txs[x].(progress := p).Holds()
    ensures Inv(SetProgress(w, x, p).(clock := clock))
  {
    var w' := SetProgress(w, x, p).(clock := clock);
    forall y | 0 <= y < |w'.txs| ensures TxOk(w'.s, w'.clock, w'.txs[y]) {
      assert TxOk(w.s, w.clock, w.txs[y]);
    }
    forall d | d in w.s.devices ensures RowsOk(w.s.rows[d], w.s.devices[d].owner, clock) {
      assert RowsOk(w.s.rows[d], w.s.devices[d].owner, w.clock);
    }
    ApartPut(w, x, p);
  }

  lemma ApartPut(w: World, x: TxId, p: Progress)
    requires TxsOk(w) && InTx(w, x)
    requires forall y :: 0 <= y < |w.txs| && y != x ==> Apart(w.txs[x].(progress := p), w.txs[y])
    ensures forall y, z :: 0 <= y < |w.txs| && 0 <= z < |w.txs| && y != z ==>
                             Apart(SetProgress(w, x, p).txs[y], SetProgress(w, x, p).txs[z])
  {
  }

  lemma InvUpdate(w: World, x: TxId)
    requires Inv(w) && Enabled(w, Update(x))
    ensures Inv(Apply(w, Update(x)))
  {
    var tx, w' := w.txs[x], Apply(w, Update(x));
    assert TxOk(w.s, w.clock, tx);
    forall y | 0 <= y < |w.txs| && y != x ensures Apart(w'.txs[x], w.txs[y]) {
      assert TxOk(w.s, w.clock, w.txs[y]);
    }
    ApartPut(w, x, w'.txs[x].progress);
    MatchingIsOpen(w, x);
    forall y | 0 <= y < |w'.txs| ensures TxOk(w'.s, w'.clock, w'.txs[y]) {
      assert TxOk(w.s, w.clock, w.txs[y]);
    }
  }

  /** The owner in the WHERE clause of a revocation excludes nothing. */
  lemma MatchingIsOpen(w: World, x: TxId)
    requires TablesOk(w.s, w.clock) && InTx(w, x) && w.txs[x].progress.Updating? && TxOk(w.s, w.clock, w.txs[x])
    ensures Matching(w, w.txs[x]) == OpenRows(RowsOf(w.s, w.txs[x].device), w.txs[x].progress.upto)
  {
    var tx := w.txs[x];
    if tx.device in w.s.devices {
      assert RowsOk(w.s.rows[tx.device], w.s.devices[tx.device].owner, w.clock);
    }
  }

  lemma InvInsert(w: World, x: TxId)
    requires Inv(w) && Enabled(w, Insert(x))
    ensures Inv(Apply(w, Insert(x)))
  {
    var tx, w' := w.txs[x], Apply(w, Insert(x));
    assert TxOk(w.s, w.clock, tx);
    if Insertable(w, tx) {
      forall y | 0 <= y < |w.txs| && y != x ensures Apart(w'.txs[x], w.txs[y]) {
        assert w.txs[y].device == tx.device ==> !w.txs[y].Holds();
      }
      ApartPut(w, x, w'.txs[x].progress);
      forall y | 0 <= y < |w'.txs| ensures TxOk(w'.s, w'.clock, w'.txs[y]) {
        assert TxOk(w.s, w.clock, w.txs[y]);
      }
    } else {
      InvProgress(w, x, Aborted, w.clock);
    }
  }

  lemma InvCommit(w: World, x: TxId)
    requires Inv(w) && Enabled(w, Commit(x))
    ensures Inv(Committing(w, x))
  {
    var tx := w.txs[x];
    assert TxOk(w.s, w.clock, tx);
    if tx.Holds() {
      RowsCommit(w, x);
      TxsCommit(w, x);
    } else {
      InvProgress(w, x, Committed, w.clock);
    }
  }

  lemma RowsCommit(w: World, x: TxId)
    requires TablesOk(w.s, w.clock) && Enabled(w, Commit(x)) && TxOk(w.s, w.clock, w.txs[x]) && w.txs[x].Holds()
    ensures TablesOk(Committing(w, x).s, w.clock)
  {
    var tx, s' := w.txs[x], Committing(w, x).s;
    var before, after := w.s.rows[tx.device], s'.rows[tx.device];
    assert RowsOk(before, tx.owner, w.clock);
    forall i | 0 <= i < |before| ensures tx.kind.Granting? ==> after[i].revoked.Some? {
      assert IsOpen(before, i) && tx.kind.Granting? ==> i in tx.Locks();
    }
    assert RowsOk(after, tx.owner, w.clock);
    forall d | d in s'.devices ensures RowsOk(s'.rows[d], s'.devices[d].owner, w.clock) {
      assert RowsOk(w.s.rows[d], w.s.devices[d].owner, w.clock);
    }
  }

  lemma TxsCommit(w: World, x: TxId)
    requires TxsOk(w) && Enabled(w, Commit(x)) && w.txs[x].Holds()
    ensures TxsOk(Committing(w, x))
  {
    var tx, w' := w.txs[x], Committing(w, x);
    ApartPut(w, x, Committed);
    forall y | 0 <= y < |w'.txs| ensures TxOk(w'.s, w'.clock, w'.txs[y]) {
      assert TxOk(w.s, w.clock, tx) && TxOk(w.s, w.clock, w.txs[y]);
      if y != x && w.txs[y].device == tx.device {
        OtherTxCommit(w, x, y);
      }
    }
  }

  /** What another transaction of the same device holds is not touched by the commit. */
  lemma OtherTxCommit(w: World, x: TxId, y: TxId)
    requires Enabled(w, Commit(x)) && w.txs[x].Holds() && InTx(w, y) && x != y && w.txs[y].device == w.txs[x].device
    requires TxOk(w.s, w.clock, w.txs[x]) && TxOk(w.s, w.clock, w.txs[y]) && Apart(w.txs[x], w.txs[y])
    ensures TxOk(Committing(w, x).s, w.clock, w.txs[y])
  {
    var s' := Committing(w, x).s;
    var before, after := RowsOf(w.s, w.txs[x].device), RowsOf(s', w.txs[x].device);
    assert forall i :: 0 <= i < |before| ==> (IsOpen(after, i) <==> IsOpen(before, i) && i !in w.txs[x].Locks());
  }

  lemma InvAtomic(w: World, r: Request)
    requires Inv(w) && Enabled(w, Atomic(r))
    ensures Inv(Apply(w, Atomic(r)))
  {
    var w' := Apply(w, Atomic(r));
    PairsServe(w.s, r);
    forall y | 0 <= y < |w'.txs| ensures TxOk(w'.s, w'.clock, w'.txs[y]) {
      assert TxOk(w.s, w.clock, w.txs[y]);
    }
    forall d | d in w'.s.devices ensures d in w'.s.rows && RowsOk(w'.s.rows[d], w'.s.devices[d].owner, w'.clock) {
      assert d in w.s.devices ==> RowsOk(w.s.rows[d], w.s.devices[d].owner, w.clock);
    }
  }

  lemma PairsServe(s: State, r: Request)
    requires PairsOk(s) && Bound(s, r)
    ensures PairsOk(Serve(s, r).0)
  {
    if r.Send? && r.from != r.to {
      InsertKeepsPairsIff(s, r.id, r.from, r.to);
    }
  }

  lemma InvAsk(w: World, kind: Kind, d: DeviceId, owner: UserId)
    requires Inv(w)
    ensures Inv(w.(txs := w.txs + [Tx(kind, d, owner, Asked)]))
  {
    var w' := w.(txs := w.txs + [Tx(kind, d, owner, Asked)]);
    forall y | 0 <= y < |w'.txs| ensures TxOk(w'.s, w'.clock, w'.txs[y]) {
      assert y < |w.txs| ==> TxOk(w.s, w.clock, w.txs[y]);
    }
  }

  lemma InvCheckFriend(w: World, x: TxId)
    requires Inv(w) && Enabled(w, CheckFriend(x))
    ensures Inv(Apply(w, CheckFriend(x)))
  {
    var w' := Apply(w, CheckFriend(x));
    assert TxOk(w.s, w.clock, w.txs[x]);
    InvProgress(w, x, w'.txs[x].progress, w.clock);
  }

  lemma InvApply(w: World, a: Action)
    requires Inv(w) && Enabled(w, a)
    ensures Inv(Apply(w, a))
  {
    match a
    case Atomic(r) => InvAtomic(w, r);
    case Ask(kind, d, owner) => InvAsk(w, kind, d, owner);
    case CheckDevice(x) => assert TxOk(w.s, w.clock, w.txs[x]); InvProgress(w, x, Apply(w, a).txs[x].progress, w.clock);
    case CheckFriend(x) => InvCheckFriend(w, x);
    case Begin(x, now) => assert TxOk(w.s, w.clock, w.txs[x]); InvProgress(w, x, Begun(now), now);
    case Snapshot(x) => assert TxOk(w.s, w.clock, w.txs[x]); InvProgress(w, x, Apply(w, a).txs[x].progress, w.clock);
    case Update(x) => InvUpdate(w, x);
    case Insert(x) => InvInsert(w, x);
    case Commit(x) => InvCommit(w, x);
    case Rollback(x) => InvProgress(w, x, Aborted, w.clock);
  }

  lemma {:induction false} InvRun(ws: seq<World>, acts: seq<Action>, n: nat)
    requires Run(ws, acts) && n < |ws|
    ensures Inv(ws[n])
  {
    if n > 0 {
      InvRun(ws, acts, n - 1);
      assert ws[n] == Apply(ws[n - 1], acts[n - 1]);
      InvApply(ws[n - 1], acts[n - 1]);
    }
  }

  // ---------- what every run shows ----------

  predicate IsAccepted(s: State, f: FriendshipId) {
    f in s.friends && s.friends[f].status == Accepted
  }

  /** Friendship partition: at most one row per pair, and a friendship becomes accepted
      only by the addressee's own accept of a pending row. */
  lemma FriendshipPartition(ws: seq<World>, acts: seq<Action>, i: nat, f: FriendshipId, g: FriendshipId)
    requires Run(ws, acts) && i < |acts|
    ensures f in ws[i].s.friends && g in ws[i].s.friends && SamePair(ws[i].s.friends[f], ws[i].s.friends[g]) ==> f == g
    ensures IsAccepted(ws[i + 1].s, f) && !IsAccepted(ws[i].s, f) ==>
              && f in ws[i].s.friends && ws[i].s.friends[f].status == Pending
              && acts[i] == Atomic(Accept(f, ws[i].s.friends[f].addressee))
  {
    InvRun(ws, acts, i);
    assert ws[i + 1] == Apply(ws[i], acts[i]);
  }

  /** In every interleaving a device has at most one open delegation, its rows are
      those of an existing device, and the open one is the last to have committed. */
  lemma OneOpenDelegation(ws: seq<World>, acts: seq<Action>, n: nat, d: DeviceId, i: int, j: int)
    requires Run(ws, acts) && n < |ws| && IsOpen(RowsOf(ws[n].s, d), i) && IsOpen(RowsOf(ws[n].s, d), j)
    ensures i == j == |RowsOf(ws[n].s, d)| - 1 && d in ws[n].s.devices
  {
    InvRun(ws, acts, n);
  }

  /** The three views of a delegation agree for everyone but the owner, and at most one
      user besides the owner is authorized. */
  lemma DelegationViewsAgree(ws: seq<World>, acts: seq<Action>, n: nat, d: DeviceId, u: UserId, v: UserId)
    requires Run(ws, acts) && n < |ws| && !OwnsDevice(ws[n].s, d, u) && !OwnsDevice(ws[n].s, d, v)
    ensures IsAuthorized(ws[n].s, d, u) <==> InDelegated(ws[n].s, d, u)
    ensures IsAuthorized(ws[n].s, d, u) <==> Shown(ws[n].s, d, u)
    ensures IsAuthorized(ws[n].s, d, u) && IsAuthorized(ws[n].s, d, v) ==> u == v
  {
    var s := ws[n].s;
    var rows := RowsOf(s, d);
    if DelegatedTo(rows, u) {
      var i :| IsOpen(rows, i) && rows[i].delegate == u;
      forall j | IsOpen(rows, j) ensures i == j && d in s.devices {
        OneOpenDelegation(ws, acts, n, d, i, j);
      }
      assert IsNewest(rows, i);
    }
  }

  /** A row is never changed but by being closed once, and is never reopened, for as long
      as its device exists. */
  lemma RowsOnlyClose(w: World, a: Action, d: DeviceId, i: nat)
    requires Inv(w) && Enabled(w, a) && i < |RowsOf(w.s, d)|
    ensures var r, rows := RowsOf(w.s, d)[i], RowsOf(Apply(w, a).s, d);
            || (a == Atomic(Remove(d, r.owner)) && rows == [])
            || (i < |rows| && rows[i] == r)
            || (i < |rows| && r.revoked == None && a.Commit? && w.txs[a.x].device == d
                && rows[i] == r.(revoked := Some(w.txs[a.x].progress.start)))
  {
    assert RowsOk(w.s.rows[d], w.s.devices[d].owner, w.clock);
    if a.Commit? {
      assert TxOk(w.s, w.clock, w.txs[a.x]);
    } else if a.Atomic? {
      RowsAtomic(w, a.r, d);
    }
  }

  lemma RowsAtomic(w: World, r: Request, d: DeviceId)
    requires Inv(w) && Enabled(w, Atomic(r)) && d in w.s.devices
    ensures RowsOf(Apply(w, Atomic(r)).s, d) == if r == Remove(d, w.s.devices[d].owner) then [] else RowsOf(w.s, d)
  {
  }

  /** No friendship step touches a delegation: the end of a friendship leaves an active
      delegate authorized. */
  lemma UnfriendKeepsDelegation(s: State, f: FriendshipId, caller: UserId, d: DeviceId, u: UserId)
    requires PairsOk(s) && f in s.friends && s.friends[f].status == Accepted
    requires OwnsDevice(s, d, caller) && s.friends[f].Between(caller, u) && IsAuthorized(s, d, u)
    ensures var s' := Serve(s, Leave(f, caller)).0;
            !IsFriend(s', caller, u) && IsAuthorized(s', d, u)
  {
  }
}

/** The times in the delegation rows, which are the times at which transactions began:
    when they form consecutive intervals, and how two grants of one device can race. */
module DelegationTimes {
  import opened Wire
  import opened SocialModel
  import opened DelegationModel
  import opened SocialProofs

  // ---------- intervals ----------

  /** In the order of commit, each row ends before the next begins, and none before it
      began itself. */
  ghost predicate Consecutive(rows: seq<Delegation>) {
    && (forall i :: 0 <= i < |rows| && rows[i].revoked.Some? ==> rows[i].created <= rows[i].revoked.value)
    && (forall i, j :: 0 <= i < j < |rows| ==> rows[i].revoked.Some? && rows[i].revoked.value <= rows[j].created)
  }

  ghost predicate Ascending(times: seq<nat>) {
    forall i, j :: 0 <= i < j < |times| ==> times[i] <= times[j]
  }

  function LastTime(r: Delegation): nat {
    if r.revoked.Some? then r.revoked.value else r.created
  }

  /** The rows of a device against the starts of the transactions that made them. */
  ghost predicate Chain(rows: seq<Delegation>, starts: seq<nat>) {
    && (Consecutive(rows) <==> Ascending(starts))
    && (rows == [] <==> starts == [])
    && (rows != [] ==> LastTime(rows[|rows| - 1]) == starts[|starts| - 1])
    && (forall i :: 0 <= i < |rows| - 1 ==> rows[i].revoked.Some?)
  }

  lemma AscendingAppend(times: seq<nat>, t: nat)
    ensures Ascending(times + [t]) <==> Ascending(times) && (times == [] || times[|times| - 1] <= t)
  {
    var all, n := times + [t], |times|;
    if Ascending(all) {
      forall i, j | 0 <= i < j < n ensures times[i] <= times[j] {
        assert all[i] <= all[j];
      }
      assert n > 0 ==> all[n - 1] <= all[n];
    }
    if Ascending(times) && (n > 0 ==> times[n - 1] <= t) {
      forall i, j | 0 <= i < j < |all| ensures all[i] <= all[j] {
        assert j == n && i < n - 1 ==> times[i] <= times[n - 1];
      }
    }
  }

  lemma ConsecutiveInit(rows: seq<Delegation>, front: seq<Delegation>, r: Delegation)
    requires rows == front + [r] && Consecutive(rows)
    ensures Consecutive(front)
  {
    forall i | 0 <= i < |front| && front[i].revoked.Some? ensures front[i].created <= front[i].revoked.value {
      assert rows[i] == front[i];
    }
    forall i, j | 0 <= i < j < |front| ensures front[i].revoked.Some? && front[i].revoked.value <= front[j].created {
      assert front[i] == rows[i] && front[j] == rows[j];
    }
  }

  /** The last row is closed at t. */
  lemma ConsecutiveClose(rows: seq<Delegation>, t: nat)
    requires rows != [] && rows[|rows| - 1].revoked == None
    ensures var n := |rows| - 1;
            Consecutive(rows[n := rows[n].(revoked := Some(t))]) <==> Consecutive(rows) && rows[n].created <= t
  {
    var n := |rows| - 1;
    var after := rows[n := rows[n].(revoked := Some(t))];
    if Consecutive(after) {
      assert after[n].created <= after[n].revoked.value;
      forall i, j | 0 <= i < j < |rows| ensures rows[i].revoked.Some? && rows[i].revoked.value <= rows[j].created {
        assert after[i].revoked.value <= after[j].created;
      }
      forall i | 0 <= i < n ensures rows[i].created <= rows[i].revoked.value {
        assert after[i].created <= after[i].revoked.value;
      }
    }
    if Consecutive(rows) && rows[n].created <= t {
      forall i, j | 0 <= i < j < |after| ensures after[i].revoked.Some? && after[i].revoked.value <= after[j].created {
        assert rows[i].revoked.value <= rows[j].created;
      }
    }
  }

  /** A row that begins at t follows rows that are all closed. */
  lemma ConsecutiveAppend(rows: seq<Delegation>, r: Delegation)
    requires rows != [] ==> rows[|rows| - 1].revoked.Some?
    requires r.revoked == None
    ensures Consecutive(rows + [r]) <==>
            Consecutive(rows) && (rows == [] || rows[|rows| - 1].revoked.value <= r.created)
  {
    var all, n := rows + [r], |rows|;
    if Consecutive(all) {
      ConsecutiveInit(all, rows, r);
      assert n > 0 ==> all[n - 1].revoked.value <= all[n].created;
    }
    if Consecutive(rows) && (rows == [] || rows[n - 1].revoked.value <= r.created) {
      forall i | 0 <= i < n ensures rows[i].revoked.Some? && rows[i].revoked.value <= r.created {
        assert i < n - 1 ==> rows[i].revoked.value <= rows[n - 1].created <= rows[n - 1].revoked.value;
      }
    }
  }

  /** The rows that a transaction closes are none, or the last one. */
  lemma CloseIsLast(rows: seq<Delegation>, which: set<nat>, t: nat)
    requires forall i :: 0 <= i < |rows| - 1 ==> rows[i].revoked.Some?
    requires forall i :: i in which ==> IsOpen(rows, i)
    ensures which == {} ==> Close(rows, which, t) == rows
    ensures which != {} ==> rows != [] && IsOpen(rows, |rows| - 1)
                            && Close(rows, which, t) == rows[|rows| - 1 := rows[|rows| - 1].(revoked := Some(t))]
  {
    if which != {} {
      var i :| i in which;
      assert i == |rows| - 1;
    }
  }

  lemma ChainRevoke(rows: seq<Delegation>, starts: seq<nat>, which: set<nat>, t: nat)
    requires Chain(rows, starts) && which != {} && forall i :: i in which ==> IsOpen(rows, i)
    ensures Chain(Close(rows, which, t), starts + [t])
  {
    CloseIsLast(rows, which, t);
    ConsecutiveClose(rows, t);
    AscendingAppend(starts, t);
  }

  lemma ChainGrant(rows: seq<Delegation>, starts: seq<nat>, which: set<nat>, r: Delegation)
    requires Chain(rows, starts) && r.revoked == None
    requires forall i: nat :: i in which <==> IsOpen(rows, i)
    ensures Chain(Close(rows, which, r.created) + [r], starts + [r.created])
  {
    var closed := Close(rows, which, r.created);
    CloseIsLast(rows, which, r.created);
    AscendingAppend(starts, r.created);
    if which != {} {
      ConsecutiveClose(rows, r.created);
    } else if rows != [] {
      assert !IsOpen(rows, |rows| - 1);
    }
    ConsecutiveAppend(closed, r);
  }

  // ---------- every run ----------

  ghost predicate ChainsOk(w: World) {
    forall d :: d in w.s.devices ==> Chain(RowsOf(w.s, d), StartsOf(w, d))
  }

  lemma ChainsApply(w: World, a: Action)
    requires Inv(w) && ChainsOk(w) && Enabled(w, a)
    ensures ChainsOk(Apply(w, a))
  {
    if a.Commit? && w.txs[a.x].Holds() {
      ChainsCommit(w, a.x);
    } else if a.Atomic? {
      ChainsAtomic(w, a.r);
    }
  }

  lemma ChainsAtomic(w: World, r: Request)
    requires Inv(w) && ChainsOk(w) && Enabled(w, Atomic(r))
    ensures ChainsOk(Apply(w, Atomic(r)))
  {
    forall d | d in Apply(w, Atomic(r)).s.devices
      ensures Chain(RowsOf(Apply(w, Atomic(r)).s, d), StartsOf(Apply(w, Atomic(r)), d))
    {
      ChainAtomic(w, r, d);
    }
  }

  lemma ChainAtomic(w: World, r: Request, d: DeviceId)
    requires Inv(w) && Enabled(w, Atomic(r)) && d in Apply(w, Atomic(r)).s.devices
    requires d in w.s.devices ==> Chain(RowsOf(w.s, d), StartsOf(w, d))
    ensures Chain(RowsOf(Apply(w, Atomic(r)).s, d), StartsOf(Apply(w, Atomic(r)), d))
  {
    if d in w.s.devices {
      RowsAtomic(w, r, d);
    }
  }

  lemma ChainsCommit(w: World, x: TxId)
    requires Inv(w) && ChainsOk(w) && Enabled(w, Commit(x)) && w.txs[x].Holds()
    ensures ChainsOk(Committing(w, x))
  {
    assert TxOk(w.s, w.clock, w.txs[x]);
    ChainCommit(w.s, w.clock, w.txs[x], StartsOf(w, w.txs[x].device));
    CommitIsLocal(w, x);
    OneChain(w, Committing(w, x), w.txs[x].device);
  }

  lemma CommitIsLocal(w: World, x: TxId)
    requires Enabled(w, Commit(x)) && w.txs[x].Holds()
    ensures var w', tx := Committing(w, x), w.txs[x];
            && w'.s.devices == w.s.devices
            && RowsOf(w'.s, tx.device) == Close(RowsOf(w.s, tx.device), tx.Locks(), tx.progress.start)
                 + (if tx.kind.Granting? then [Delegation(tx.owner, tx.kind.friend, tx.progress.start, None)] else [])
            && StartsOf(w', tx.device) == StartsOf(w, tx.device) + [tx.progress.start]
            && (forall e :: e != tx.device ==> RowsOf(w'.s, e) == RowsOf(w.s, e) && StartsOf(w', e) == StartsOf(w, e))
  {
  }

  lemma OneChain(w: World, w': World, d: DeviceId)
    requires ChainsOk(w) && w'.s.devices == w.s.devices && Chain(RowsOf(w'.s, d), StartsOf(w', d))
    requires forall e :: e != d ==> RowsOf(w'.s, e) == RowsOf(w.s, e) && StartsOf(w', e) == StartsOf(w, e)
    ensures ChainsOk(w')
  {
  }

  lemma ChainCommit(s: State, clock: nat, tx: Tx, starts: seq<nat>)
    requires TxOk(s, clock, tx) && tx.Holds() && (tx.kind.Granting? ==> tx.progress.Inserted?)
    requires Chain(RowsOf(s, tx.device), starts)
    ensures var rows := Close(RowsOf(s, tx.device), tx.Locks(), tx.progress.start);
            Chain(rows + (if tx.kind.Granting? then [Delegation(tx.owner, tx.kind.friend, tx.progress.start, None)] else []),
                  starts + [tx.progress.start])
  {
    var rows := RowsOf(s, tx.device);
    if tx.kind.Granting? {
      ChainGrant(rows, starts, tx.Locks(), Delegation(tx.owner, tx.kind.friend, tx.progress.start, None));
    } else {
      ChainRevoke(rows, starts, tx.Locks(), tx.progress.start);
      assert Close(rows, tx.Locks(), tx.progress.start) + [] == Close(rows, tx.Locks(), tx.progress.start);
    }
  }

  lemma {:induction false} ChainsRun(ws: seq<World>, acts: seq<Action>, n: nat)
    requires Run(ws, acts) && n < |ws|
    ensures ChainsOk(ws[n])
  {
    if n > 0 {
      InvRun(ws, acts, n - 1);
      ChainsRun(ws, acts, n - 1);
      assert ws[n] == Apply(ws[n - 1], acts[n - 1]);
      ChainsApply(ws[n - 1], acts[n - 1]);
    }
  }

  /** In every interleaving, the rows of a device are consecutive intervals if and only
      if the transactions that made them committed in the order in which they began. */
  lemma IntervalsIffInOrder(ws: seq<World>, acts: seq<Action>, n: nat, d: DeviceId)
    requires Run(ws, acts) && n < |ws|
    ensures Consecutive(RowsOf(ws[n].s, d)) <==> Ascending(StartsOf(ws[n], d))
  {
    InvRun(ws, acts, n);
    ChainsRun(ws, acts, n);
    if d in ws[n].s.devices {
      assert Chain(RowsOf(ws[n].s, d), StartsOf(ws[n], d));
    }
  }

  /** A grant is refused by the index if and only if another grant of the device has
      committed since its UPDATE began, and is still open. */
  lemma InsertAbortsIff(ws: seq<World>, acts: seq<Action>, n: nat, x: TxId)
    requires Run(ws, acts) && n < |ws| && Enabled(ws[n], Insert(x)) && ws[n].txs[x].device in ws[n].s.devices
    ensures var rows := RowsOf(ws[n].s, ws[n].txs[x].device);
            Apply(ws[n], Insert(x)).txs[x].progress.Aborted? <==>
            exists i :: ws[n].txs[x].progress.upto <= i < |rows| && IsOpen(rows, i)
  {
    InvRun(ws, acts, n);
    assert TxOk(ws[n].s, ws[n].clock, ws[n].txs[x]);
  }

  // ---------- transactions that do not overlap ----------

  predicate Working(tx: Tx) {
    tx.progress.Begun? || tx.progress.Updating? || tx.progress.Updated? || tx.progress.Inserted?
  }

  /** No transaction begins while another one works on the same device. */
  ghost predicate Serial(ws: seq<World>, acts: seq<Action>)
    requires Run(ws, acts)
  {
    forall i, y :: 0 <= i < |acts| && acts[i].Begin? && 0 <= y < |ws[i].txs| && Working(ws[i].txs[y]) ==>
                     ws[i].txs[y].device != ws[i].txs[acts[i].x].device
  }

  ghost predicate UpTo(times: seq<nat>, t: nat) {
    forall i :: 0 <= i < |times| ==> times[i] <= t
  }

  ghost predicate StartsOk(w: World) {
    forall d :: d in w.starts ==> Ascending(w.starts[d]) && UpTo(w.starts[d], w.clock)
  }

  /** Whoever works on a device works there alone, and began after all commits so far. */
  ghost predicate WorkersOk(w: World) {
    && (forall x :: 0 <= x < |w.txs| && Working(w.txs[x]) ==>
          w.txs[x].progress.start <= w.clock && UpTo(StartsOf(w, w.txs[x].device), w.txs[x].progress.start))
    && (forall x, y :: 0 <= x < y < |w.txs| && Working(w.txs[x]) && Working(w.txs[y]) ==> w.txs[x].device != w.txs[y].device)
  }

  lemma SerialStep(w: World, a: Action)
    requires StartsOk(w) && WorkersOk(w) && Enabled(w, a)
    requires a.Begin? ==> forall y :: 0 <= y < |w.txs| && Working(w.txs[y]) ==> w.txs[y].device != w.txs[a.x].device
    ensures StartsOk(Apply(w, a)) && WorkersOk(Apply(w, a))
  {
    match a
    case Commit(x) => SerialCommit(w, x);
    case Begin(x, now) => SerialBegin(w, x, now);
    case Atomic(r) => SerialAtomic(w, r);
    case _ => SerialProgress(w, a);
  }

  lemma SerialProgress(w: World, a: Action)
    requires StartsOk(w) && WorkersOk(w) && Enabled(w, a) && !a.Commit? && !a.Begin? && !a.Atomic?
    ensures StartsOk(Apply(w, a)) && WorkersOk(Apply(w, a))
  {
    var w' := Apply(w, a);
    assert w'.starts == w.starts && w'.clock == w.clock && |w'.txs| >= |w.txs|;
    assert forall x :: 0 <= x < |w'.txs| && Working(w'.txs[x]) ==>
                         x < |w.txs| && Working(w.txs[x]) && w'.txs[x].device == w.txs[x].device
                         && w'.txs[x].progress.start == w.txs[x].progress.start;
  }

  lemma SerialAtomic(w: World, r: Request)
    requires StartsOk(w) && WorkersOk(w) && Enabled(w, Atomic(r))
    ensures StartsOk(Apply(w, Atomic(r))) && WorkersOk(Apply(w, Atomic(r)))
  {
  }

  lemma SerialBegin(w: World, x: TxId, now: nat)
    requires StartsOk(w) && WorkersOk(w) && Enabled(w, Begin(x, now))
    requires forall y :: 0 <= y < |w.txs| && Working(w.txs[y]) ==> w.txs[y].device != w.txs[x].device
    ensures StartsOk(Apply(w, Begin(x, now))) && WorkersOk(Apply(w, Begin(x, now)))
  {
    assert UpTo(StartsOf(w, w.txs[x].device), w.clock);
  }

  lemma SerialCommit(w: World, x: TxId)
    requires StartsOk(w) && WorkersOk(w) && Enabled(w, Commit(x))
    ensures StartsOk(Committing(w, x)) && WorkersOk(Committing(w, x))
  {
    var d, start := w.txs[x].device, w.txs[x].progress.start;
    AscendingAppend(StartsOf(w, d), start);
    assert Working(w.txs[x]);
    assert Ascending(StartsOf(w, d) + [start]) && UpTo(StartsOf(w, d) + [start], w.clock);
  }

  lemma {:induction false} SerialRun(ws: seq<World>, acts: seq<Action>, n: nat)
    requires Run(ws, acts) && Serial(ws, acts) && n < |ws|
    ensures StartsOk(ws[n]) && WorkersOk(ws[n])
  {
    if n > 0 {
      InvRun(ws, acts, n - 1);
      SerialRun(ws, acts, n - 1);
      assert ws[n] == Apply(ws[n - 1], acts[n - 1]);
      SerialStep(ws[n - 1], acts[n - 1]);
    }
  }

  /** Without overlapping transactions the rows are consecutive intervals. */
  lemma SerialIsConsecutive(ws: seq<World>, acts: seq<Action>, n: nat, d: DeviceId)
    requires Run(ws, acts) && Serial(ws, acts) && n < |ws|
    ensures Consecutive(RowsOf(ws[n].s, d))
  {
    SerialRun(ws, acts, n);
    IntervalsIffInOrder(ws, acts, n, d);
  }

  // ---------- grants, step by step ----------

  lemma {:induction false} StepsThen(w: World, acts: seq<Action>, w': World, a: Action)
    requires Steps(w, acts, w') && Enabled(w', a)
    ensures Steps(w, acts + [a], Apply(w', a))
    decreases |acts|
  {
    if acts == [] {
      assert [a][1..] == [];
    } else {
      StepsThen(Apply(w, acts[0]), acts[1..], w', a);
      assert (acts + [a])[1..] == acts[1..] + [a];
    }
  }

  lemma Do(w0: World, w: World, a: Action) returns (w': World)
    requires Leads(w0, w) && Enabled(w, a)
    ensures Leads(w0, w') && w' == Apply(w, a)
  {
    var acts :| Steps(w0, acts, w);
    StepsThen(w0, acts, w, a);
    w' := Apply(w, a);
  }

  /** The owner asks for a grant to a friend; both checks pass. */
  lemma PassChecks(w0: World, w: World, d: DeviceId, owner: UserId, friend: UserId) returns (w': World)
    requires Leads(w0, w) && OwnsDevice(w.s, d, owner) && IsFriend(w.s, owner, friend)
    ensures Leads(w0, w') && w' == w.(txs := w.txs + [Tx(Granting(friend), d, owner, Befriended)])
  {
    var x := |w.txs|;
    var w1 := Do(w0, w, Ask(Granting(friend), d, owner));
    var w2 := Do(w0, w1, CheckDevice(x));
    assert w2 == w.(txs := w.txs + [Tx(Granting(friend), d, owner, Owned)]);
    w' := Do(w0, w2, CheckFriend(x));
  }

  /** Nobody else has written to the device. */
  ghost predicate Quiet(w: World, d: DeviceId) {
    forall y :: 0 <= y < |w.txs| && w.txs[y].device == d ==> !w.txs[y].Holds()
  }

  function Granted(s: State, tx: Tx, start: nat): State
    requires tx.kind.Granting?
  {
    var rows := RowsOf(s, tx.device);
    s.(rows := s.rows[tx.device :=
        Close(rows, OpenRows(rows, |rows|), start) + [Delegation(tx.owner, tx.kind.friend, start, None)]])
  }

  /** A grant that has begun runs to its end without interference. */
  lemma GrantRuns(w0: World, w: World, x: TxId) returns (w': World)
    requires Leads(w0, w) && InTx(w, x) && w.txs[x].kind.Granting? && w.txs[x].progress.Begun?
    requires w.txs[x].device in w.s.devices && w.txs[x].owner != w.txs[x].kind.friend && Quiet(w, w.txs[x].device)
    ensures Leads(w0, w') && w'.s == Granted(w.s, w.txs[x], w.txs[x].progress.start)
    ensures w'.txs == w.txs[x := w.txs[x].(progress := Committed)] && w'.clock == w.clock
  {
    var tx, rows := w.txs[x], RowsOf(w.s, w.txs[x].device);
    var w1 := Do(w0, w, Snapshot(x));
    assert w1 == SetProgress(w, x, Updating(tx.progress.start, |rows|));
    assert Matching(w1, w1.txs[x]) == OpenRows(rows, |rows|);
    var w2 := Do(w0, w1, Update(x));
    assert w2 == SetProgress(w, x, Updated(tx.progress.start, |rows|, OpenRows(rows, |rows|)));
    w' := InsertAndCommit(w0, w, w2, x);
  }

  lemma InsertAndCommit(w0: World, w: World, w2: World, x: TxId) returns (w': World)
    requires Leads(w0, w2) && InTx(w, x) && w.txs[x].kind.Granting? && w.txs[x].progress.Begun?
    requires w.txs[x].device in w.s.devices && w.txs[x].owner != w.txs[x].kind.friend && Quiet(w, w.txs[x].device)
    requires var rows := RowsOf(w.s, w.txs[x].device);
             w2 == SetProgress(w, x, Updated(w.txs[x].progress.start, |rows|, OpenRows(rows, |rows|)))
    ensures Leads(w0, w') && w'.s == Granted(w.s, w.txs[x], w.txs[x].progress.start)
    ensures w'.txs == w.txs[x := w.txs[x].(progress := Committed)] && w'.clock == w.clock
  {
    var tx, rows := w.txs[x], RowsOf(w.s, w.txs[x].device);
    assert Insertable(w2, w2.txs[x]);
    var w3 := Do(w0, w2, Insert(x));
    assert w3 == SetProgress(w, x, Inserted(tx.progress.start, |rows|, OpenRows(rows, |rows|)));
    w' := Do(w0, w3, Commit(x));
  }

  /** The whole call, from a state in which nobody works on the device, is the step Grant. */
  lemma GrantAlone(w: World, d: DeviceId, owner: UserId, friend: UserId, now: nat) returns (w': World)
    requires Inv(w) && Quiet(w, d) && w.clock <= now && OwnsDevice(w.s, d, owner) && IsFriend(w.s, owner, friend)
    ensures Leads(w, w') && w'.s == Grant(w.s, d, owner, friend, now).0
    ensures w'.txs == w.txs + [Tx(Granting(friend), d, owner, Committed)]
  {
    var x := |w.txs|;
    assert Steps(w, [], w);
    var w1 := PassChecks(w, w, d, owner, friend);
    var w2 := Do(w, w1, Begin(x, now));
    assert w2.txs[x] == Tx(Granting(friend), d, owner, Begun(now)) && w2.s == w.s;
    FriendIsOther(w.s, owner, friend);
    w' := GrantRuns(w, w2, x);
    GrantIsGranted(w.s, w2.txs[x], now);
  }

  /** The same for a revocation. */
  lemma RevokeAlone(w: World, d: DeviceId, owner: UserId, now: nat) returns (v: World)
    requires Inv(w) && Quiet(w, d) && w.clock <= now && OwnsDevice(w.s, d, owner)
    ensures Leads(w, v) && v.s == Revoke(w.s, d, owner, now).0
    ensures v.txs == w.txs + [Tx(Revoking, d, owner, Committed)]
  {
    var w' := RevocationBegins(w, d, owner, now);
    v := RevokeRuns(w, w', |w.txs|);
    NothingToClose(w.s, d);
  }

  lemma RevocationBegins(w: World, d: DeviceId, owner: UserId, now: nat) returns (w': World)
    requires Inv(w) && OwnsDevice(w.s, d, owner) && w.clock <= now
    ensures Leads(w, w') && Inv(w') && w' == w.(txs := w.txs + [Tx(Revoking, d, owner, Begun(now))], clock := now)
  {
    var x := |w.txs|;
    assert Steps(w, [], w);
    var w1 := Do(w, w, Ask(Revoking, d, owner));
    InvApply(w, Ask(Revoking, d, owner));
    var w2 := Do(w, w1, CheckDevice(x));
    InvApply(w1, CheckDevice(x));
    w' := Do(w, w2, Begin(x, now));
    InvApply(w2, Begin(x, now));
  }

  lemma RevokeRuns(w0: World, w: World, x: TxId) returns (w': World)
    requires Leads(w0, w) && Inv(w) && InTx(w, x) && w.txs[x].kind.Revoking? && w.txs[x].progress.Begun?
    requires w.txs[x].device in w.s.devices && Quiet(w, w.txs[x].device)
    ensures var tx, rows := w.txs[x], RowsOf(w.s, w.txs[x].device);
            Leads(w0, w') && w'.s == (if OpenRows(rows, |rows|) == {} then w.s
                                      else w.s.(rows := w.s.rows[tx.device := Close(rows, OpenRows(rows, |rows|), tx.progress.start)]))
    ensures w'.txs == w.txs[x := w.txs[x].(progress := Committed)]
  {
    var tx, rows := w.txs[x], RowsOf(w.s, w.txs[x].device);
    var w1 := SnapshotBefore(w0, w, x);
    InvApply(w, Snapshot(x));
    assert TxOk(w1.s, w1.clock, w1.txs[x]);
    MatchingIsOpen(w1, x);
    var w2 := Do(w0, w1, Update(x));
    assert w2 == SetProgress(w, x, Updated(tx.progress.start, |rows|, OpenRows(rows, |rows|)));
    w' := Do(w0, w2, Commit(x));
    assert Close(rows, OpenRows(rows, |rows|), tx.progress.start) + [] == Close(rows, OpenRows(rows, |rows|), tx.progress.start);
  }

  lemma NothingToClose(s: State, d: DeviceId)
    requires d in s.rows
    ensures OpenRows(s.rows[d], |s.rows[d]|) == {} ==>
              forall now :: s.rows[d := Close(s.rows[d], OpenRows(s.rows[d], |s.rows[d]|), now)] == s.rows
  {
    forall now | OpenRows(s.rows[d], |s.rows[d]|) == {}
      ensures s.rows[d := Close(s.rows[d], OpenRows(s.rows[d], |s.rows[d]|), now)] == s.rows
    {
      assert Close(s.rows[d], {}, now) == s.rows[d];
    }
  }

  // ---------- races ----------

  /** A state in which an owner may grant a device to two friends, and nobody is at it. */
  ghost predicate MayGrant(w: World, d: DeviceId, owner: UserId, f: UserId, g: UserId) {
    Inv(w) && Quiet(w, d) && OwnsDevice(w.s, d, owner) && IsFriend(w.s, owner, f) && IsFriend(w.s, owner, g)
  }

  /** Two grants of one device have begun, at a and at b. */
  lemma TwoBegin(w0: World, w: World, d: DeviceId, owner: UserId, f: UserId, g: UserId, a: nat, b: nat) returns (w': World)
    requires Leads(w0, w) && MayGrant(w, d, owner, f, g) && w.clock <= a <= b
    ensures Leads(w0, w') && w'.s == w.s && Quiet(w', d) && owner != f && owner != g
    ensures w'.txs == w.txs + [Tx(Granting(f), d, owner, Begun(a)), Tx(Granting(g), d, owner, Begun(b))]
  {
    FriendIsOther(w.s, owner, f);
    FriendIsOther(w.s, owner, g);
    var x := |w.txs|;
    var w1 := PassChecks(w0, w, d, owner, f);
    var w2 := PassChecks(w0, w1, d, owner, g);
    var w3 := Do(w0, w2, Begin(x, a));
    assert w3.txs == w.txs + [Tx(Granting(f), d, owner, Begun(a)), Tx(Granting(g), d, owner, Befriended)];
    w' := Do(w0, w3, Begin(x + 1, b));
  }

  /** After a grant the new row is the only open one. */
  lemma OnlyNewIsOpen(s: State, tx: Tx, start: nat)
    requires tx.kind.Granting?
    ensures var rows, after := RowsOf(s, tx.device), RowsOf(Granted(s, tx, start), tx.device);
            && |after| == |rows| + 1 && after[|rows|] == Delegation(tx.owner, tx.kind.friend, start, None)
            && OpenRows(after, |rows|) == {} && OpenRows(after, |after|) == {|rows|}
  {
  }

  /** Whenever an owner may grant, two grants can race so that the later one commits
      first: its row is then closed before it was created. */
  lemma RacingGrants(w0: World, w: World, d: DeviceId, owner: UserId, f: UserId, g: UserId, a: nat, b: nat) returns (w': World)
    requires Leads(w0, w) && MayGrant(w, d, owner, f, g) && w.clock <= a < b
    ensures Leads(w0, w') && |RowsOf(w'.s, d)| == |RowsOf(w.s, d)| + 2
    ensures var rows, n := RowsOf(w'.s, d), |RowsOf(w.s, d)|;
            && rows[n] == Delegation(owner, g, b, Some(a)) && rows[n + 1] == Delegation(owner, f, a, None)
            && !Consecutive(rows)
  {
    var x := |w.txs|;
    var w1 := TwoBegin(w0, w, d, owner, f, g, a, b);
    var w2 := GrantRuns(w0, w1, x + 1);
    OnlyNewIsOpen(w1.s, w1.txs[x + 1], b);
    w' := GrantRuns(w0, w2, x);
    assert RowsOf(w'.s, d)[|RowsOf(w.s, d)|] == Delegation(owner, g, b, Some(a));
  }

  lemma FriendIsOther(s: State, a: UserId, b: UserId)
    requires PairsOk(s) && IsFriend(s, a, b)
    ensures a != b
  {
  }

  /** And if the first one's UPDATE has begun before the other commits, it is refused by
      the index: the row that it should have closed is one that it cannot see. */
  lemma SecondGrantMayFail(w0: World, w: World, d: DeviceId, owner: UserId, f: UserId, g: UserId, a: nat, b: nat)
    returns (w': World)
    requires Leads(w0, w) && MayGrant(w, d, owner, f, g) && w.clock <= a <= b
    ensures Leads(w0, w') && InTx(w', |w.txs|) && w'.txs[|w.txs|] == Tx(Granting(f), d, owner, Aborted)
    ensures w'.s == Grant(w.s, d, owner, g, b).0
  {
    var x := |w.txs|;
    var w1 := TwoBegin(w0, w, d, owner, f, g, a, b);
    var w2 := SnapshotBefore(w0, w1, x);
    var w3 := GrantRuns(w0, w2, x + 1);
    OnlyNewIsOpen(w2.s, w2.txs[x + 1], b);
    w' := TooLate(w0, w3, x);
    GrantIsGranted(w.s, w2.txs[x + 1], b);
  }

  lemma SnapshotBefore(w0: World, w: World, x: TxId) returns (w': World)
    requires Leads(w0, w) && InTx(w, x) && w.txs[x].progress.Begun? && Quiet(w, w.txs[x].device)
    ensures w' == SetProgress(w, x, Updating(w.txs[x].progress.start, |RowsOf(w.s, w.txs[x].device)|))
    ensures Leads(w0, w') && Quiet(w', w.txs[x].device)
  {
    w' := Do(w0, w, Snapshot(x));
  }

  lemma GrantIsGranted(s: State, tx: Tx, start: nat)
    requires tx.kind.Granting? && OwnsDevice(s, tx.device, tx.owner) && IsFriend(s, tx.owner, tx.kind.friend)
    ensures Grant(s, tx.device, tx.owner, tx.kind.friend, start) == (Granted(s, tx, start), Ok)
  {
  }

  /** Every row that the UPDATE saw has been closed meanwhile, and a later one is open. */
  lemma TooLate(w0: World, w: World, x: TxId) returns (w': World)
    requires Leads(w0, w) && InTx(w, x) && w.txs[x].kind.Granting? && w.txs[x].progress.Updating?
    requires var rows, upto := RowsOf(w.s, w.txs[x].device), w.txs[x].progress.upto;
             OpenRows(rows, upto) == {} && IsOpen(rows, upto)
    requires forall y :: 0 <= y < |w.txs| && y != x && w.txs[y].device == w.txs[x].device ==> !w.txs[y].Holds()
    ensures Leads(w0, w') && w'.s == w.s && w'.txs == w.txs[x := w.txs[x].(progress := Aborted)]
  {
    var p := w.txs[x].progress;
    assert Matching(w, w.txs[x]) == {};
    var w1 := Do(w0, w, Update(x));
    assert w1 == SetProgress(w, x, Updated(p.start, p.upto, {}));
    assert !Insertable(w1, w1.txs[x]);
    w' := Do(w0, w1, Insert(x));
  }

  /** A state from which such races start: user 1 owns device 1, and is a friend of user 2. */
  lemma Prepared() returns (w: World)
    ensures Leads(INIT, w) && MayGrant(w, 1, 1, 2, 2) && w.clock == 0 && RowsOf(w.s, 1) == []
    ensures w.s.friends == map[1 := Friendship(1, 2, Accepted)]
  {
    var w1 := Registered();
    var w2 := DoAtomic(w1, Send(1, 1, 2));
    assert w2.s.friends == map[1 := Friendship(1, 2, Pending)] && w2.s.devices == w1.s.devices && w2.s.rows == w1.s.rows;
    w := DoAtomic(w2, Accept(1, 2));
    assert w.s.friends == map[1 := Friendship(1, 2, Accepted)] && w.s.friends[1].Between(1, 2);
  }

  lemma Registered() returns (w: World)
    ensures Leads(INIT, w) && Inv(w) && w.clock == 0 && w.txs == []
    ensures w.s == State(map[], map[1 := Device(1, "phone", 0)], map[1 := []])
  {
    assert Steps(INIT, [], INIT);
    w := DoAtomic(INIT, Register(1, 1, "phone", 0));
  }

  lemma DoAtomic(w: World, r: Request) returns (w': World)
    requires Leads(INIT, w) && Inv(w) && Enabled(w, Atomic(r)) && w.txs == [] && w.clock == 0 && (r.Register? ==> r.now == 0)
    ensures Leads(INIT, w') && Inv(w') && w'.s == Serve(w.s, r).0 && w'.txs == [] && w'.clock == 0
  {
    w' := Do(INIT, w, Atomic(r));
    InvApply(w, Atomic(r));
  }

  /** So a run from nothing leads to a row that is closed before it was created. */
  lemma ClosedBeforeCreated() returns (w: World)
    ensures Leads(INIT, w) && |RowsOf(w.s, 1)| == 2
    ensures RowsOf(w.s, 1)[0] == Delegation(1, 2, 2, Some(1))
  {
    var w0 := Prepared();
    w := RacingGrants(INIT, w0, 1, 1, 2, 2, 1, 2);
  }
}

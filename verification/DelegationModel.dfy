/** Grants and revocations as transactions at the read-committed level, between the
    one-step requests of the other services. A statement sees the rows that were
    committed when it began; a row that another transaction has written is waited for
    and then looked at again; the partial unique index admits one active row per device. */
module DelegationModel {
  import opened Wire
  import opened SocialModel

  type TxId = nat

  datatype Kind = Granting(friend: UserId) | Revoking

  /** start is NOW(), the time at which the transaction began. upto is the number of rows
      of the device that the UPDATE saw; closed are those it has written and locked. */
  datatype Progress =
    | Asked
    | Owned
    | Befriended
    | Begun(start: nat)
    | Updating(start: nat, upto: nat)
    | Updated(start: nat, upto: nat, closed: set<nat>)
    | Inserted(start: nat, upto: nat, closed: set<nat>)
    | Committed
    | Aborted
    | Denied(answer: Answer)

  /** One call of the delegation service. */
  datatype Tx = Tx(kind: Kind, device: DeviceId, owner: UserId, progress: Progress) {
    /** The rows it has written and not committed. */
    function Locks(): set<nat> {
      if progress.Updated? || progress.Inserted? then progress.closed else {}
    }

    /** Others must wait for it: it has written or inserted a row of its device. */
    predicate Holds() {
      Locks() != {} || progress.Inserted?
    }
  }

  /** starts is history: of the transactions that changed a device's delegations, when
      they began, in the order in which they committed. */
  datatype World = World(s: State, clock: nat, txs: seq<Tx>, starts: map<DeviceId, seq<nat>>)

  const INIT := World(INIT_STATE, 0, [], map[])

  datatype Action =
    | Atomic(r: Request)
    | Ask(kind: Kind, device: DeviceId, owner: UserId)
    | CheckDevice(x: TxId)
    | CheckFriend(x: TxId)
    | Begin(x: TxId, now: nat)
    | Snapshot(x: TxId)
    | Update(x: TxId)
    | Insert(x: TxId)
    | Commit(x: TxId)
    | Rollback(x: TxId)

  // ---------- enabling conditions ----------

  predicate InTx(w: World, x: TxId) {
    x < |w.txs|
  }

  /** Another transaction on the same device holds something. */
  predicate HeldByOther(w: World, x: TxId)
    requires InTx(w, x)
  {
    exists y :: 0 <= y < |w.txs| && y != x && w.txs[y].device == w.txs[x].device && w.txs[y].Holds()
  }

  /** Another transaction has written one of the rows that the UPDATE of x saw. */
  predicate RowLocked(w: World, x: TxId)
    requires InTx(w, x) && w.txs[x].progress.Updating?
  {
    exists y, i :: 0 <= y < |w.txs| && y != x && w.txs[y].device == w.txs[x].device
      && i in w.txs[y].Locks() && i < w.txs[x].progress.upto
  }

  /** A delete of the device waits for the rows and the foreign key it would touch. */
  predicate DeviceHeld(w: World, d: DeviceId) {
    exists y :: 0 <= y < |w.txs| && w.txs[y].device == d && w.txs[y].Holds()
  }

  /** A generated device id is one that nobody has named. */
  predicate Named(w: World, d: DeviceId) {
    exists y :: 0 <= y < |w.txs| && w.txs[y].device == d
  }

  /** An action that would wait for a lock is not enabled. */
  predicate Enabled(w: World, a: Action) {
    match a
    case Atomic(r) =>
      Bound(w.s, r) && (r.Register? ==> !Named(w, r.device) && w.clock <= r.now)
      && (r.Remove? ==> !DeviceHeld(w, r.device))
    case Ask(_, _, _) => true
    case CheckDevice(x) => InTx(w, x) && w.txs[x].progress.Asked?
    case CheckFriend(x) => InTx(w, x) && w.txs[x].progress.Owned? && w.txs[x].kind.Granting?
    case Begin(x, now) =>
      InTx(w, x) && (if w.txs[x].kind.Granting? then w.txs[x].progress.Befriended? else w.txs[x].progress.Owned?)
      && w.clock <= now
    case Snapshot(x) => InTx(w, x) && w.txs[x].progress.Begun?
    case Update(x) => InTx(w, x) && w.txs[x].progress.Updating? && !RowLocked(w, x)
    case Insert(x) => InTx(w, x) && w.txs[x].progress.Updated? && w.txs[x].kind.Granting? && !HeldByOther(w, x)
    case Commit(x) =>
      InTx(w, x) && if w.txs[x].kind.Granting? then w.txs[x].progress.Inserted? else w.txs[x].progress.Updated?
    case Rollback(x) =>
      InTx(w, x) && (w.txs[x].progress.Begun? || w.txs[x].progress.Updating?
                     || w.txs[x].progress.Updated? || w.txs[x].progress.Inserted?)
  }

  // ---------- effects ----------

  function SetProgress(w: World, x: TxId, p: Progress): World
    requires InTx(w, x)
  {
    w.(txs := w.txs[x := w.txs[x].(progress := p)])
  }

  function StartsOf(w: World, d: DeviceId): seq<nat> {
    if d in w.starts then w.starts[d] else []
  }

  /** The rows that match: seen by the statement and still active; a revocation also
      names the owner. */
  function Matching(w: World, tx: Tx): set<nat>
    requires tx.progress.Updating?
  {
    set i | i in OpenRows(RowsOf(w.s, tx.device), tx.progress.upto)
            && (tx.kind.Revoking? ==> RowsOf(w.s, tx.device)[i].owner == tx.owner)
  }

  /** The foreign key, the check constraint and the unique index. */
  predicate Insertable(w: World, tx: Tx) {
    && tx.device in w.s.devices
    && tx.kind.Granting? && tx.owner != tx.kind.friend
    && (forall i :: 0 <= i < |RowsOf(w.s, tx.device)| && IsOpen(RowsOf(w.s, tx.device), i) ==> i in tx.Locks())
  }

  /** COMMIT publishes the written rows and the new one, together. */
  function Committing(w: World, x: TxId): World
    requires InTx(w, x) && (w.txs[x].progress.Updated? || w.txs[x].progress.Inserted?)
  {
    var tx := w.txs[x];
    var d, start := tx.device, tx.progress.start;
    var rows := Close(RowsOf(w.s, d), tx.Locks(), start)
                + (if tx.kind.Granting? then [Delegation(tx.owner, tx.kind.friend, start, None)] else []);
    if tx.Holds() then
      SetProgress(w, x, Committed).(s := w.s.(rows := w.s.rows[d := rows]), starts := w.starts[d := StartsOf(w, d) + [start]])
    else
      SetProgress(w, x, Committed)
  }

  function Apply(w: World, a: Action): World
    requires Enabled(w, a)
  {
    match a
    case Atomic(r) =>
      w.(s := Serve(w.s, r).0,
         clock := if r.Register? then r.now else w.clock,
         starts := if r.Remove? && Serve(w.s, r).1 == Ok then w.starts - {r.device} else w.starts)
    case Ask(kind, d, owner) => w.(txs := w.txs + [Tx(kind, d, owner, Asked)])
    case CheckDevice(x) =>
      SetProgress(w, x, if OwnsDevice(w.s, w.txs[x].device, w.txs[x].owner) then Owned else Denied(DeviceNotFound))
    case CheckFriend(x) =>
      SetProgress(w, x, if IsFriend(w.s, w.txs[x].owner, w.txs[x].kind.friend) then Befriended else Denied(NotFriends))
    case Begin(x, now) => SetProgress(w, x, Begun(now)).(clock := now)
    case Snapshot(x) => SetProgress(w, x, Updating(w.txs[x].progress.start, |RowsOf(w.s, w.txs[x].device)|))
    case Update(x) =>
      var p := w.txs[x].progress;
      SetProgress(w, x, Updated(p.start, p.upto, Matching(w, w.txs[x])))
    case Insert(x) =>
      var p := w.txs[x].progress;
      SetProgress(w, x, if Insertable(w, w.txs[x]) then Inserted(p.start, p.upto, p.closed) else Aborted)
    case Commit(x) => Committing(w, x)
    case Rollback(x) => SetProgress(w, x, Aborted)
  }

  // ---------- runs ----------

  /** ws[i] is the world before action i, ws[i + 1] the one after it. */
  ghost predicate Run(ws: seq<World>, acts: seq<Action>) {
    && |ws| == |acts| + 1 && ws[0] == INIT
    && (forall i {:trigger acts[i]} :: 0 <= i < |acts| ==> Enabled(ws[i], acts[i]) && ws[i + 1] == Apply(ws[i], acts[i]))
  }

  ghost predicate Steps(w: World, acts: seq<Action>, w': World)
    decreases |acts|
  {
    if acts == [] then w == w'
    else Enabled(w, acts[0]) && Steps(Apply(w, acts[0]), acts[1..], w')
  }

  ghost predicate Leads(w: World, w': World) {
    exists acts :: Steps(w, acts, w')
  }
}

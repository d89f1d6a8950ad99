/** Tracks, votes and the two-statement vote transaction of an event, with the
    locks that PostgreSQL takes at the read-committed level. */
module VoteModel {
  import opened Wire

  type EventId = nat
  type VoteId = nat
  type TxId = nat

  /** votes is the cached counter vote_count. */
  datatype Track = Track(event: EventId, external: string, votes: nat, created: nat)

  datatype VoteRow = VoteRow(track: TrackId, user: UserId)

  /** Counted holds the row version that UPDATE has written and not committed. */
  datatype Progress =
    | Begun
    | Inserted(id: VoteId)
    | Counted(id: VoteId, count: nat)
    | Committed
    | Aborted

  datatype Tx = Tx(track: TrackId, user: UserId, progress: Progress) {
    /** An uncommitted vote row exists. */
    predicate Pending() {
      progress.Inserted? || progress.Counted?
    }
  }

  /** tracks and votes are committed; txs are the calls of Vote. */
  datatype Db = Db(tracks: map<TrackId, Track>, votes: map<VoteId, VoteRow>, txs: seq<Tx>)

  datatype Action =
    | Suggest(id: TrackId, event: EventId, external: string, created: nat)
    | Begin(track: TrackId, user: UserId)
    | Insert(x: TxId, id: VoteId)
    | Count(x: TxId)
    | Commit(x: TxId)
    | Rollback(x: TxId)
    | Delete(id: TrackId)
    | DeleteEvent(event: EventId)

  predicate InTx(db: Db, x: TxId) {
    x < |db.txs|
  }

  /** The unique index on (track_id, user_id) already has the pair, committed. */
  predicate Voted(db: Db, t: TrackId, u: UserId) {
    exists v :: v in db.votes && db.votes[v] == VoteRow(t, u)
  }

  /** Another transaction has inserted the pair and not ended: the index entry is waited for. */
  predicate PairHeld(db: Db, t: TrackId, u: UserId) {
    exists y :: 0 <= y < |db.txs| && db.txs[y].Pending() && db.txs[y].track == t && db.txs[y].user == u
  }

  /** Another transaction has updated the row and not ended: its lock is waited for. */
  predicate RowLocked(db: Db, t: TrackId) {
    exists y :: 0 <= y < |db.txs| && db.txs[y].progress.Counted? && db.txs[y].track == t
  }

  /** A vote row refers to the track, or its row is being updated: a delete waits. */
  predicate Referenced(db: Db, t: TrackId) {
    exists y :: 0 <= y < |db.txs| && db.txs[y].Pending() && db.txs[y].track == t
  }

  /** gen_random_uuid is new. */
  predicate NewVoteId(db: Db, id: VoteId) {
    id !in db.votes
    && forall y :: 0 <= y < |db.txs| && db.txs[y].Pending() ==> db.txs[y].progress.id != id
  }

  /** An action that would wait for a lock is not enabled. */
  predicate Enabled(db: Db, a: Action) {
    match a
    case Suggest(id, _, _, _) => id !in db.tracks
    case Begin(_, _) => true
    case Insert(x, id) =>
      InTx(db, x) && db.txs[x].progress.Begun? && NewVoteId(db, id)
      && !PairHeld(db, db.txs[x].track, db.txs[x].user)
    case Count(x) => InTx(db, x) && db.txs[x].progress.Inserted? && !RowLocked(db, db.txs[x].track)
    case Commit(x) => InTx(db, x) && db.txs[x].progress.Counted?
    case Rollback(x) => InTx(db, x) && (db.txs[x].progress.Begun? || db.txs[x].Pending())
    case Delete(id) => !Referenced(db, id)
    case DeleteEvent(e) => forall t :: t in db.tracks && db.tracks[t].event == e ==> !Referenced(db, t)
  }

  predicate Suggested(db: Db, e: EventId, external: string) {
    exists t :: t in db.tracks && db.tracks[t].event == e && db.tracks[t].external == external
  }

  function SetProgress(db: Db, x: TxId, p: Progress): Db
    requires InTx(db, x)
  {
    db.(txs := db.txs[x := db.txs[x].(progress := p)])
  }

  /** DELETE of tracks; ON DELETE CASCADE takes their votes along. */
  function Drop(db: Db, gone: set<TrackId>): Db {
    db.(tracks := db.tracks - gone,
        votes := map v | v in db.votes && db.votes[v].track !in gone :: db.votes[v])
  }

  function EventTracks(db: Db, e: EventId): set<TrackId> {
    set t | t in db.tracks && db.tracks[t].event == e
  }

  /** A violated constraint aborts the transaction; so does anything after it fails. */
  function Apply(db: Db, a: Action): Db
    requires Enabled(db, a)
  {
    match a
    case Suggest(id, e, external, created) =>
      if Suggested(db, e, external) then db
      else db.(tracks := db.tracks[id := Track(e, external, 0, created)])
    case Begin(t, u) => db.(txs := db.txs + [Tx(t, u, Begun)])
    case Insert(x, id) =>
      var tx := db.txs[x];
      if tx.track !in db.tracks || Voted(db, tx.track, tx.user) then SetProgress(db, x, Aborted)
      else SetProgress(db, x, Inserted(id))
    case Count(x) =>
      var tx := db.txs[x];
      if tx.track !in db.tracks then SetProgress(db, x, Aborted)
      else SetProgress(db, x, Counted(tx.progress.id, db.tracks[tx.track].votes + 1))
    case Commit(x) => Committing(db, x)
    case Rollback(x) => SetProgress(db, x, Aborted)
    case Delete(id) => Drop(db, {id})
    case DeleteEvent(e) => Drop(db, EventTracks(db, e))
  }

  /** COMMIT publishes the vote row and the written row version, together. */
  function Committing(db: Db, x: TxId): Db
    requires InTx(db, x) && db.txs[x].progress.Counted?
  {
    var tx := db.txs[x];
    var published := if tx.track in db.tracks
                     then db.tracks[tx.track := db.tracks[tx.track].(votes := tx.progress.count)] else db.tracks;
    SetProgress(db, x, Committed).(
      tracks := published,
      votes := db.votes[tx.progress.id := VoteRow(tx.track, tx.user)])
  }

  ghost predicate Steps(db: Db, acts: seq<Action>, db': Db)
    decreases |acts|
  {
    if acts == [] then db == db'
    else Enabled(db, acts[0]) && Steps(Apply(db, acts[0]), acts[1..], db')
  }
}

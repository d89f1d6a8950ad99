/** The cached counters agree with the votes in every interleaving. */
module VoteProofs {
  import opened Wire
  import opened VoteModel

  function Ballots(db: Db, t: TrackId): set<VoteId> {
    set v | v in db.votes && db.votes[v].track == t
  }

  // ---------- the invariant ----------

  ghost predicate VotesOk(db: Db) {
    && (forall v :: v in db.votes ==> db.votes[v].track in db.tracks)
    && (forall v, w :: v in db.votes && w in db.votes && db.votes[v] == db.votes[w] ==> v == w)
  }

  ghost predicate CountsOk(db: Db) {
    forall t :: t in db.tracks ==> db.tracks[t].votes == |Ballots(db, t)|
  }

  /** An open transaction's vote row is new, and its counter is one above the committed one. */
  ghost predicate TxOk(db: Db, x: TxId)
    requires InTx(db, x)
  {
    var tx := db.txs[x];
    && (tx.Pending() ==> tx.track in db.tracks && tx.progress.id !in db.votes && !Voted(db, tx.track, tx.user))
    && (tx.progress.Counted? ==> tx.progress.count == db.tracks[tx.track].votes + 1)
  }

  ghost predicate TxsOk(db: Db) {
    && (forall x :: 0 <= x < |db.txs| ==> TxOk(db, x))
    && (forall x, y :: 0 <= x < y < |db.txs| && db.txs[x].Pending() && db.txs[y].Pending() ==> Apart(db.txs[x], db.txs[y]))
  }

  predicate Apart(a: Tx, b: Tx)
    requires a.Pending() && b.Pending()
  {
    && a.progress.id != b.progress.id
    && (a.track != b.track || a.user != b.user)
    && (a.progress.Counted? && b.progress.Counted? ==> a.track != b.track)
  }

  ghost predicate Inv(db: Db) {
    VotesOk(db) && CountsOk(db) && TxsOk(db)
  }

  // ---------- one action ----------

  lemma InvSetProgress(db: Db, x: TxId, p: Progress)
    requires Inv(db) && InTx(db, x)
    requires TxOk(SetProgress(db, x, p), x)
    requires forall y :: 0 <= y < |db.txs| && y != x && db.txs[y].Pending() && (p.Inserted? || p.Counted?) ==>
                           Apart(db.txs[y], db.txs[x].(progress := p))
    ensures Inv(SetProgress(db, x, p))
  {
    var db' := SetProgress(db, x, p);
    forall y | 0 <= y < |db'.txs| ensures TxOk(db', y) {
      assert TxOk(db, y);
    }
    assert forall t :: Ballots(db', t) == Ballots(db, t);
  }

  lemma InvInsert(db: Db, x: TxId, id: VoteId)
    requires Inv(db) && Enabled(db, Insert(x, id))
    ensures Inv(Apply(db, Insert(x, id)))
  {
    var tx := db.txs[x];
    if tx.track !in db.tracks || Voted(db, tx.track, tx.user) {
      InvSetProgress(db, x, Aborted);
    } else {
      InvSetProgress(db, x, Inserted(id));
    }
  }

  lemma InvCount(db: Db, x: TxId)
    requires Inv(db) && Enabled(db, Count(x))
    ensures Inv(Apply(db, Count(x)))
  {
    var tx := db.txs[x];
    assert TxOk(db, x);
    forall y | 0 <= y < |db.txs| && y != x && db.txs[y].Pending()
      ensures Apart(db.txs[y], tx.(progress := Counted(tx.progress.id, db.tracks[tx.track].votes + 1)))
    {
      assert if x < y then Apart(tx, db.txs[y]) else Apart(db.txs[y], tx);
    }
    InvSetProgress(db, x, Counted(tx.progress.id, db.tracks[tx.track].votes + 1));
  }

  /** The row lock makes the written counter still right when it is published. */
  lemma InvCommit(db: Db, x: TxId)
    requires Inv(db) && InTx(db, x) && db.txs[x].progress.Counted?
    ensures Inv(Committing(db, x))
  {
    assert TxOk(db, x);
    CountsCommit(db, x);
    TxsCommit(db, x);
  }

  lemma CountsCommit(db: Db, x: TxId)
    requires CountsOk(db) && InTx(db, x) && db.txs[x].progress.Counted? && TxOk(db, x)
    ensures CountsOk(Committing(db, x))
  {
    var db' := Committing(db, x);
    var tx := db.txs[x];
    forall t | t in db'.tracks ensures db'.tracks[t].votes == |Ballots(db', t)| {
      assert Ballots(db', t) == if t == tx.track then Ballots(db, t) + {tx.progress.id} else Ballots(db, t);
    }
  }

  lemma TxsCommit(db: Db, x: TxId)
    requires TxsOk(db) && InTx(db, x) && db.txs[x].progress.Counted? && TxOk(db, x)
    ensures TxsOk(Committing(db, x))
  {
    var db' := Committing(db, x);
    var tx := db.txs[x];
    forall y | 0 <= y < |db'.txs| ensures TxOk(db', y) {
      assert TxOk(db, y);
      if y != x && db.txs[y].Pending() {
        assert if x < y then Apart(tx, db.txs[y]) else Apart(db.txs[y], tx);
      }
    }
  }

  lemma InvDrop(db: Db, gone: set<TrackId>)
    requires Inv(db) && forall t :: t in gone && t in db.tracks ==> !Referenced(db, t)
    ensures Inv(Drop(db, gone))
  {
    var db' := Drop(db, gone);
    forall t | t in db'.tracks ensures db'.tracks[t].votes == |Ballots(db', t)| {
      assert Ballots(db', t) == Ballots(db, t);
    }
    forall y | 0 <= y < |db'.txs| ensures TxOk(db', y) {
      assert TxOk(db, y);
    }
  }

  lemma InvSuggest(db: Db, id: TrackId, e: EventId, external: string, created: nat)
    requires Inv(db) && id !in db.tracks
    ensures Inv(db.(tracks := db.tracks[id := Track(e, external, 0, created)]))
  {
    var db' := db.(tracks := db.tracks[id := Track(e, external, 0, created)]);
    assert forall t :: Ballots(db', t) == Ballots(db, t);
    assert Ballots(db, id) == {};
    forall y | 0 <= y < |db'.txs| ensures TxOk(db', y) {
      assert TxOk(db, y);
    }
  }

  lemma InvBegin(db: Db, t: TrackId, u: UserId)
    requires Inv(db)
    ensures Inv(db.(txs := db.txs + [Tx(t, u, Begun)]))
  {
    var db' := db.(txs := db.txs + [Tx(t, u, Begun)]);
    assert forall k :: Ballots(db', k) == Ballots(db, k);
    forall y | 0 <= y < |db'.txs| ensures TxOk(db', y) {
      assert y < |db.txs| ==> TxOk(db, y);
    }
  }

  lemma InvApply(db: Db, a: Action)
    requires Inv(db) && Enabled(db, a)
    ensures Inv(Apply(db, a))
  {
    match a
    case Suggest(id, e, external, created) => InvSuggest(db, id, e, external, created);
    case Begin(t, u) => InvBegin(db, t, u);
    case Insert(x, id) => InvInsert(db, x, id);
    case Count(x) => InvCount(db, x);
    case Commit(x) => InvCommit(db, x);
    case Rollback(x) => InvSetProgress(db, x, Aborted);
    case Delete(id) => InvDrop(db, {id});
    case DeleteEvent(e) => InvDrop(db, EventTracks(db, e));
  }

  lemma {:induction false} InvRun(db: Db, acts: seq<Action>, db': Db)
    requires Inv(db) && Steps(db, acts, db')
    ensures Inv(db')
    decreases |acts|
  {
    if acts != [] {
      InvApply(db, acts[0]);
      InvRun(Apply(db, acts[0]), acts[1..], db');
    }
  }

  // ---------- agreement ----------

  function Total(db: Db, ts: set<TrackId>): nat
    requires ts <= db.tracks.Keys
  {
    if ts == {} then 0 else
      var t := Least(ts);
      db.tracks[t].votes + Total(db, ts - {t})
  }

  function Least(ts: set<TrackId>): (t: TrackId)
    requires ts != {}
    ensures t in ts && forall u :: u in ts ==> t <= u
  {
    LeastExists(ts);
    var t :| t in ts && forall u :: u in ts ==> t <= u;
    t
  }

  lemma LeastExists(ts: set<TrackId>)
    requires ts != {}
    ensures exists t :: t in ts && forall u :: u in ts ==> t <= u
  {
    var m := LeastOf(ts);
  }

  lemma {:induction false} LeastOf(ts: set<TrackId>) returns (m: TrackId)
    requires ts != {}
    ensures m in ts && forall u :: u in ts ==> m <= u
  {
    m :| m in ts;
    if u :| u in ts && u < m {
      var rest := ts - {m};
      assert u in rest;
      var least := LeastOf(rest);
      assert least <= u < m;
      forall v | v in ts ensures least <= v {
        assert v != m ==> v in rest;
      }
      m := least;
    }
  }

  ghost function Cast(db: Db, ts: set<TrackId>): set<VoteId> {
    set v | v in db.votes && db.votes[v].track in ts
  }

  lemma {:induction false} TotalIsCast(db: Db, ts: set<TrackId>)
    requires Inv(db) && ts <= db.tracks.Keys
    ensures Total(db, ts) == |Cast(db, ts)|
  {
    if ts == {} {
      assert Cast(db, ts) == {};
    } else {
      var t := Least(ts);
      TotalIsCast(db, ts - {t});
      assert Cast(db, ts) == Cast(db, ts - {t}) + Ballots(db, t);
    }
  }

  /** Tally agreement: in every interleaving of vote transactions, with rollbacks,
      suggestions and deletions, each counter is the number of its votes, no user has
      two votes for one track, and all counters together are all the votes. */
  lemma TallyAgreement(acts: seq<Action>, db: Db)
    requires Steps(Db(map[], map[], []), acts, db)
    ensures forall t :: t in db.tracks ==> db.tracks[t].votes == |Ballots(db, t)|
    ensures forall v, w :: v in db.votes && w in db.votes && db.votes[v] == db.votes[w] ==> v == w
    ensures Total(db, db.tracks.Keys) == |db.votes|
  {
    var start := Db(map[], map[], []);
    InvRun(start, acts, db);
    TotalIsCast(db, db.tracks.Keys);
    assert Cast(db, db.tracks.Keys) == db.votes.Keys;
  }

  /** A vote changes one counter, by one, and no other action changes a counter. */
  lemma OnlyCommitCounts(db: Db, a: Action, t: TrackId)
    requires Inv(db) && Enabled(db, a) && t in db.tracks && t in Apply(db, a).tracks
    ensures Apply(db, a).tracks[t] ==
            if a.Commit? && db.txs[a.x].track == t then db.tracks[t].(votes := db.tracks[t].votes + 1) else db.tracks[t]
  {
    if a.Commit? {
      assert TxOk(db, a.x);
    }
  }
}

/** What suggestions, votes and deletions leave in the tables, over every interleaving,
    and what the order of the queue means. */
module VoteOutcomes {
  import opened Wire
  import opened Sequences
  import opened VoteModel
  import opened VoteProofs
  import opened QueueModel

  // ---------- tracks ----------

  /** No event has two tracks with one external id. */
  ghost predicate ExternalsUnique(db: Db) {
    forall s, t :: s in db.tracks && t in db.tracks && SameExternal(db.tracks[s], db.tracks[t]) ==> s == t
  }

  predicate SameExternal(a: Track, b: Track) {
    a.event == b.event && a.external == b.external
  }

  predicate Removes(db: Db, a: Action, t: TrackId) {
    (a.Delete? && a.id == t) || (a.DeleteEvent? && t in db.tracks && db.tracks[t].event == a.event)
  }

  /** A suggestion is stored as it came, without votes, exactly when the event does not have
      the external id yet. */
  lemma SuggestMeans(db: Db, id: TrackId, e: EventId, external: string, created: nat)
    requires id !in db.tracks
    ensures var db' := Apply(db, Suggest(id, e, external, created));
            && (db' == db <==> exists t :: t in db.tracks && db.tracks[t].event == e && db.tracks[t].external == external)
            && (db' != db ==>
                  && db'.tracks.Keys == db.tracks.Keys + {id} && (forall t :: t in db.tracks ==> db'.tracks[t] == db.tracks[t])
                  && db'.tracks[id].event == e && db'.tracks[id].external == external && db'.tracks[id].created == created
                  && db'.tracks[id].votes == 0 && db'.votes == db.votes && db'.txs == db.txs)
  {
    assert Apply(db, Suggest(id, e, external, created)) != db ==>
           id in Apply(db, Suggest(id, e, external, created)).tracks;
  }

  /** A track and its votes are there after an action unless the action removes the track;
      a removal takes along the track and exactly its votes. */
  lemma RemovalMeans(db: Db, a: Action, t: TrackId, v: VoteId)
    requires Inv(db) && Enabled(db, a) && t in db.tracks
    ensures t in Apply(db, a).tracks <==> !Removes(db, a, t)
    ensures t in Apply(db, a).tracks ==>
              var before, after := db.tracks[t], Apply(db, a).tracks[t];
              after.event == before.event && after.external == before.external && after.created == before.created
    ensures v in db.votes && db.votes[v].track == t ==>
              && (v in Apply(db, a).votes <==> !Removes(db, a, t))
              && (v in Apply(db, a).votes ==> Apply(db, a).votes[v] == db.votes[v])
  {
    if a.Commit? {
      assert TxOk(db, a.x);
    }
  }

  lemma UniqueApply(db: Db, a: Action)
    requires ExternalsUnique(db) && Inv(db) && Enabled(db, a)
    ensures ExternalsUnique(Apply(db, a))
  {
    if a.Commit? {
      assert TxOk(db, a.x);
    }
  }

  lemma {:induction false} UniqueFrom(db: Db, acts: seq<Action>, db': Db)
    requires ExternalsUnique(db) && Inv(db) && Steps(db, acts, db')
    ensures ExternalsUnique(db')
    decreases |acts|
  {
    if acts != [] {
      UniqueApply(db, acts[0]);
      InvApply(db, acts[0]);
      UniqueFrom(Apply(db, acts[0]), acts[1..], db');
    }
  }

  /** In every interleaving no event ever has the same track twice. */
  lemma NoTrackTwice(acts: seq<Action>, db: Db)
    requires Steps(Db(map[], map[], []), acts, db)
    ensures ExternalsUnique(db)
  {
    UniqueFrom(Db(map[], map[], []), acts, db);
  }

  // ---------- votes ----------

  /** Which votes there are after an action: a commit adds the vote of its own user for its
      own track; a removal of a track takes its votes; nothing else changes them. */
  lemma VotedStep(db: Db, a: Action, t: TrackId, u: UserId)
    requires Inv(db) && Enabled(db, a)
    ensures Voted(Apply(db, a), t, u) <==>
            || (a.Commit? && db.txs[a.x].track == t && db.txs[a.x].user == u)
            || (Voted(db, t, u) && !Removes(db, a, t))
  {
    var db' := Apply(db, a);
    if a.Commit? {
      assert TxOk(db, a.x);
      var id := db.txs[a.x].progress.id;
      assert db'.votes[id] == VoteRow(db.txs[a.x].track, db.txs[a.x].user);
      if v :| v in db.votes && db.votes[v] == VoteRow(t, u) {
        assert db'.votes[v] == VoteRow(t, u);
      }
    } else if v :| v in db.votes && db.votes[v] == VoteRow(t, u) && !Removes(db, a, t) {
      assert v in db'.votes && db'.votes[v] == VoteRow(t, u);
    }
  }

  /** Call x is one of u for t that has committed. */
  predicate HasCast(db: Db, x: TxId, t: TrackId, u: UserId) {
    x < |db.txs| && db.txs[x] == Tx(t, u, Committed)
  }

  ghost predicate SomeCast(db: Db, t: TrackId, u: UserId) {
    exists x :: HasCast(db, x, t, u)
  }

  lemma CastStep(db: Db, a: Action, t: TrackId, u: UserId)
    requires Enabled(db, a)
    ensures SomeCast(Apply(db, a), t, u) <==>
            SomeCast(db, t, u) || (a.Commit? && db.txs[a.x].track == t && db.txs[a.x].user == u)
  {
    var db' := Apply(db, a);
    if x :| HasCast(db, x, t, u) {
      assert HasCast(db', x, t, u);
    }
    if a.Commit? && db.txs[a.x].track == t && db.txs[a.x].user == u {
      assert HasCast(db', a.x, t, u);
    }
    if x :| HasCast(db', x, t, u) {
      assert (a.Commit? && a.x == x) || HasCast(db, x, t, u);
    }
  }

  /** No action of this run, from db on, removes t. */
  ghost predicate Keeps(db: Db, acts: seq<Action>, t: TrackId)
    decreases |acts|
  {
    acts != [] ==> Enabled(db, acts[0]) && !Removes(db, acts[0], t) && Keeps(Apply(db, acts[0]), acts[1..], t)
  }

  lemma {:induction false} VotedFrom(db: Db, acts: seq<Action>, db': Db, t: TrackId, u: UserId)
    requires Inv(db) && Steps(db, acts, db') && (Voted(db, t, u) ==> SomeCast(db, t, u))
    ensures Voted(db', t, u) ==> SomeCast(db', t, u)
    ensures Keeps(db, acts, t) && (SomeCast(db, t, u) ==> Voted(db, t, u)) ==> (SomeCast(db', t, u) ==> Voted(db', t, u))
    decreases |acts|
  {
    if acts != [] {
      VotedStep(db, acts[0], t, u);
      CastStep(db, acts[0], t, u);
      InvApply(db, acts[0]);
      VotedFrom(Apply(db, acts[0]), acts[1..], db', t, u);
    }
  }

  /** In every interleaving a user has a vote for a track only if a call of this user for
      this track has committed; and if the track was never removed, exactly then. */
  lemma VotedIffCast(acts: seq<Action>, db: Db, t: TrackId, u: UserId)
    requires Steps(Db(map[], map[], []), acts, db)
    ensures Voted(db, t, u) ==> SomeCast(db, t, u)
    ensures Keeps(Db(map[], map[], []), acts, t) ==> (Voted(db, t, u) <==> SomeCast(db, t, u))
  {
    VotedFrom(Db(map[], map[], []), acts, db, t, u);
  }

  // ---------- the order of the queue ----------

  /** More votes come first, and among equally many the earlier suggestion. */
  ghost predicate InOrder(ts: Tracks, q: seq<TrackId>) {
    forall i, j :: 0 <= i < j < |q| ==>
      && q[i] in ts && q[j] in ts && ts[q[i]].votes >= ts[q[j]].votes
      && (ts[q[i]].votes == ts[q[j]].votes ==> ts[q[i]].created <= ts[q[j]].created)
  }

  /** The tracks of an event, each once, in this order, are its queue, and nothing else is. */
  lemma QueueOrder(ts: Tracks, e: EventId, q: seq<TrackId>)
    ensures IsQueue(ts, e, q) <==>
            Distinct(q) && (forall k :: k in q <==> k in ts && ts[k].event == e) && InOrder(ts, q)
  {
    if Distinct(q) && (forall k :: k in q <==> k in ts && ts[k].event == e) {
      forall i, j | 0 <= i < j < |q|
        ensures q[i] in ts && q[j] in ts
        ensures !Ahead(ts, q[j], q[i]) <==>
                && ts[q[i]].votes >= ts[q[j]].votes
                && (ts[q[i]].votes == ts[q[j]].votes ==> ts[q[i]].created <= ts[q[j]].created)
      {
        assert q[i] in q && q[j] in q;
      }
      assert forall k :: k in InEvent(ts, e) <==> k in ts && ts[k].event == e;
    }
  }
}

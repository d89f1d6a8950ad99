/** The queue of an event: its tracks by vote_count descending, then created_at
    ascending, and how one vote moves one track. */
module QueueModel {
  import opened Wire
  import opened Sequences
  import opened VoteModel
  import opened VoteProofs

  type Tracks = map<TrackId, Track>

  ghost function InEvent(ts: Tracks, e: EventId): set<TrackId> {
    set t | t in ts && ts[t].event == e
  }

  /** j may not come before k: ORDER BY vote_count DESC, created_at ASC. */
  predicate Ahead(ts: Tracks, j: TrackId, k: TrackId) {
    j in ts && k in ts
    && (ts[j].votes > ts[k].votes || (ts[j].votes == ts[k].votes && ts[j].created < ts[k].created))
  }

  /** q is an answer to GetQueue. */
  ghost predicate IsQueue(ts: Tracks, e: EventId, q: seq<TrackId>) {
    && Distinct(q)
    && (forall k :: k in q <==> k in InEvent(ts, e))
    && (forall i, j :: 0 <= i < j < |q| ==> !Ahead(ts, q[j], q[i]))
  }

  ghost predicate DistinctTimes(ts: Tracks, e: EventId) {
    forall j, k :: j in InEvent(ts, e) && k in InEvent(ts, e) && ts[j].created == ts[k].created ==> j == k
  }

  /** With distinct times there is one queue, and it is sorted strictly. */
  lemma QueueIsStrict(ts: Tracks, e: EventId, q: seq<TrackId>)
    requires IsQueue(ts, e, q) && DistinctTimes(ts, e)
    ensures Sorted((j, k) => Ahead(ts, j, k), q)
  {
    forall i, j | 0 <= i < j < |q| ensures Ahead(ts, q[i], q[j]) {
      assert q[i] in InEvent(ts, e) && q[j] in InEvent(ts, e);
    }
  }

  lemma StrictAt(ts: Tracks, e: EventId, q: seq<TrackId>, x: nat, y: nat)
    requires IsQueue(ts, e, q) && DistinctTimes(ts, e) && x < y < |q|
    ensures Ahead(ts, q[x], q[y])
  {
    assert q[x] in InEvent(ts, e) && q[y] in InEvent(ts, e);
  }

  lemma QueueUnique(ts: Tracks, e: EventId, q1: seq<TrackId>, q2: seq<TrackId>)
    requires IsQueue(ts, e, q1) && IsQueue(ts, e, q2) && DistinctTimes(ts, e)
    ensures q1 == q2
  {
    QueueIsStrict(ts, e, q1);
    QueueIsStrict(ts, e, q2);
    assert Elements(q1) == Elements(q2) == InEvent(ts, e);
    SortedUnique((j, k) => Ahead(ts, j, k), q1, q2);
  }

  function PlusOne(ts: Tracks, t: TrackId): Tracks
    requires t in ts
  {
    ts[t := ts[t].(votes := ts[t].votes + 1)]
  }

  /** How many of q's first n tracks stay ahead of t after a vote for t. */
  function Landing(ts: Tracks, q: seq<TrackId>, t: TrackId, n: nat): (j: nat)
    requires t in ts && n <= |q|
    ensures j <= n
    ensures forall k :: 0 <= k < j ==> Ahead(PlusOne(ts, t), q[k], t)
    ensures j < n ==> !Ahead(PlusOne(ts, t), q[j], t)
    decreases n
  {
    if n == 0 then 0
    else
      var j := Landing(ts, q, t, n - 1);
      if j == n - 1 && Ahead(PlusOne(ts, t), q[n - 1], t) then n else j
  }

  /** After one vote for the track at index i, it stands at an index j <= i, the tracks
      between have moved one back, and everything else, in particular the whole queue
      behind i, is where it was. */
  lemma VoteMovesOneTrack(ts: Tracks, e: EventId, q: seq<TrackId>, i: nat, q': seq<TrackId>)
    requires IsQueue(ts, e, q) && DistinctTimes(ts, e) && i < |q| && q[i] in ts
    requires IsQueue(PlusOne(ts, q[i]), e, q')
    ensures var j := Landing(ts, q, q[i], i);
            j <= i && q' == q[..j] + [q[i]] + q[j..i] + q[i + 1..] == Spliced(q, i, j)
  {
    var t := q[i];
    var ts' := PlusOne(ts, t);
    var j := Landing(ts, q, t, i);
    var r := q[..j] + [t] + q[j..i] + q[i + 1..];
    MovedIsSpliced(q, i, j);
    VoteKeepsTimes(ts, e, t);
    MovedIsQueue(ts, e, q, i, j, r);
    QueueUnique(ts', e, r, q');
  }

  lemma MovedIsSpliced(q: seq<TrackId>, i: nat, j: nat)
    requires j <= i < |q|
    ensures q[..j] + [q[i]] + q[j..i] + q[i + 1..] == Spliced(q, i, j)
  {
  }

  lemma VoteKeepsTimes(ts: Tracks, e: EventId, t: TrackId)
    requires t in ts
    ensures InEvent(PlusOne(ts, t), e) == InEvent(ts, e)
    ensures DistinctTimes(ts, e) ==> DistinctTimes(PlusOne(ts, t), e)
  {
  }

  lemma MovedIsQueue(ts: Tracks, e: EventId, q: seq<TrackId>, i: nat, j: nat, r: seq<TrackId>)
    requires IsQueue(ts, e, q) && DistinctTimes(ts, e) && i < |q| && q[i] in ts
    requires j == Landing(ts, q, q[i], i) && r == q[..j] + [q[i]] + q[j..i] + q[i + 1..]
    ensures IsQueue(PlusOne(ts, q[i]), e, r)
  {
    MovedElements(ts, e, q, i, j, r);
    forall a, b | 0 <= a < b < |r| ensures !Ahead(PlusOne(ts, q[i]), r[b], r[a]) {
      MovedOrder(ts, e, q, i, a, b);
    }
  }

  /** The old index of the track that stands at m after the move from i to j. */
  function Source(i: nat, j: nat, m: nat): nat
    requires j <= i
  {
    if m < j || m > i then m else if m == j then i else m - 1
  }

  lemma MovedElements(ts: Tracks, e: EventId, q: seq<TrackId>, i: nat, j: nat, r: seq<TrackId>)
    requires IsQueue(ts, e, q) && i < |q| && q[i] in ts && j <= i && r == q[..j] + [q[i]] + q[j..i] + q[i + 1..]
    ensures Distinct(r) && (forall k :: k in r <==> k in InEvent(PlusOne(ts, q[i]), e))
    ensures |r| == |q| && forall m :: 0 <= m < |r| ==> r[m] == q[Source(i, j, m)]
  {
    assert forall m :: 0 <= m < |r| ==> r[m] == q[Source(i, j, m)];
    assert InEvent(PlusOne(ts, q[i]), e) == InEvent(ts, e);
    forall k | k in q ensures k in r {
      var n := IndexOf(q, k);
      assert k == r[if n == i then j else if j <= n < i then n + 1 else n];
    }
  }

  lemma MovedOrder(ts: Tracks, e: EventId, q: seq<TrackId>, i: nat, a: nat, b: nat)
    requires IsQueue(ts, e, q) && DistinctTimes(ts, e)
    requires i < |q| && q[i] in ts && a < b < |q|
    ensures var j := Landing(ts, q, q[i], i);
            !Ahead(PlusOne(ts, q[i]), q[Source(i, j, b)], q[Source(i, j, a)])
  {
    var j := Landing(ts, q, q[i], i);
    var x, y := Source(i, j, a), Source(i, j, b);
    if x == i {
      BehindTheVoted(ts, e, q, i, j, y);
    } else if y == i {
      assert Ahead(PlusOne(ts, q[i]), q[x], q[i]);
    } else {
      StrictAt(ts, e, q, x, y);
      assert q[x] != q[i] && q[y] != q[i];
    }
  }

  /** Whoever does not stay ahead of the voted track at j, nor stood before j, is behind it. */
  lemma BehindTheVoted(ts: Tracks, e: EventId, q: seq<TrackId>, i: nat, j: nat, y: nat)
    requires IsQueue(ts, e, q) && DistinctTimes(ts, e) && i < |q| && q[i] in ts && j <= y < |q| && y != i
    requires j <= i && (j < i ==> !Ahead(PlusOne(ts, q[i]), q[j], q[i]))
    ensures !Ahead(PlusOne(ts, q[i]), q[y], q[i])
  {
    assert q[y] != q[i];
    if y > i {
      StrictAt(ts, e, q, i, y);
    } else if y > j {
      StrictAt(ts, e, q, j, y);
      assert q[j] != q[i];
    }
  }

  /** A committed vote is exactly such a step, for its event's queue; the queues of the
      other events do not change. */
  lemma CommitMovesOneTrack(db: Db, x: TxId, e: EventId, q: seq<TrackId>, q': seq<TrackId>)
    requires Inv(db) && Enabled(db, Commit(x)) && DistinctTimes(db.tracks, e)
    requires IsQueue(db.tracks, e, q) && IsQueue(Apply(db, Commit(x)).tracks, e, q')
    ensures db.txs[x].track !in q ==> q' == q
    ensures db.txs[x].track in q ==>
              var i := IndexOf(q, db.txs[x].track);
              var j := Landing(db.tracks, q, q[i], i);
              j <= i && q' == q[..j] + [q[i]] + q[j..i] + q[i + 1..]
  {
    var t := db.txs[x].track;
    CommitIsPlusOne(db, x);
    if t in q {
      VoteMovesOneTrack(db.tracks, e, q, IndexOf(q, t), q');
    } else {
      VoteElsewhere(db.tracks, e, t, q, q');
    }
  }

  lemma CommitIsPlusOne(db: Db, x: TxId)
    requires Inv(db) && Enabled(db, Commit(x))
    ensures db.txs[x].track in db.tracks && Apply(db, Commit(x)).tracks == PlusOne(db.tracks, db.txs[x].track)
  {
    assert TxOk(db, x);
  }

  /** A vote for a track that is not in this queue. */
  lemma VoteElsewhere(ts: Tracks, e: EventId, t: TrackId, q: seq<TrackId>, q': seq<TrackId>)
    requires DistinctTimes(ts, e) && IsQueue(ts, e, q) && t in ts && t !in q && IsQueue(PlusOne(ts, t), e, q')
    ensures q' == q
  {
    VoteKeepsTimes(ts, e, t);
    assert t !in InEvent(ts, e);
    QueueUnique(ts, e, q, q');
  }
}

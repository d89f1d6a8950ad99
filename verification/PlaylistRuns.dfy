/** Whole histories of playlist requests: density, and convergence of replicas. */
module PlaylistRuns {
  import opened Wire
  import opened Sequences
  import opened PlaylistModel
  import opened PlaylistProofs

  datatype Entry = Entry(p: PlaylistId, r: Request, o: Outcome)

  /** ts[i] is the committed table before entry i, ts[i + 1] the one after it. */
  ghost predicate History(ts: seq<Table>, es: seq<Entry>) {
    && |ts| == |es| + 1
    && (forall i :: 0 <= i < |es| ==> Step(ts[i], es[i].p, es[i].r, ts[i + 1], es[i].o))
  }

  // ---------- the replica ----------

  /** The rule of a client that keeps its own copy of the ordered list. */
  function OnEvent(s: seq<TrackId>, e: Payload): seq<TrackId> {
    match e
    case TrackAdded(k) => s + [k]
    case TrackRemoved(k) => Without(s, k)
    case TrackMoved(k, pos) => if k in s then Reinsert(s, k, pos) else s
    case Text(_) => s
  }

  function Replay(s: seq<TrackId>, events: seq<Payload>): seq<TrackId>
    decreases |events|
  {
    if events == [] then s else Replay(OnEvent(s, events[0]), events[1..])
  }

  /** The frames pushed to the room of p, in commit order. */
  function Events(es: seq<Entry>, p: PlaylistId): seq<Payload> {
    if es == [] then []
    else (if es[0].p == p then Event(es[0].r, es[0].o) else []) + Events(es[1..], p)
  }

  lemma {:induction false} ReplayConcat(s: seq<TrackId>, a: seq<Payload>, b: seq<Payload>)
    ensures Replay(s, a + b) == Replay(Replay(s, a), b)
    decreases |a|
  {
    if a == [] {
      assert a + b == b;
    } else {
      assert (a + b)[1..] == a[1..] + b;
      ReplayConcat(OnEvent(s, a[0]), a[1..], b);
    }
  }

  lemma {:induction false} EventsConcat(a: seq<Entry>, b: seq<Entry>, p: PlaylistId)
    ensures Events(a + b, p) == Events(a, p) + Events(b, p)
  {
    if a == [] {
      assert a + b == b;
    } else {
      assert (a + b)[1..] == a[1..] + b;
      EventsConcat(a[1..], b, p);
    }
  }

  // ---------- one step ----------

  /** A request leaves the other playlists as they are. */
  lemma StepOther(t: Table, p: PlaylistId, r: Request, t': Table, o: Outcome, q: PlaylistId, s: seq<TrackId>)
    requires Step(t, p, r, t', o) && q != p && Represents(t, q, s)
    ensures Represents(t', q, s)
  {
    if o == Ok {
      match r
      case Add(id, external) =>
        SameRows(t, t', q, s);
      case Remove(id) =>
        var order :| Ordered(t - {id}, p, order) && t' == Renumbered(t - {id}, order);
        assert forall k :: k in order ==> k in TracksOf(t - {id}, p);
        SameRows(t, t', q, s);
      case Move(id, pos) =>
        SameRows(t, t', q, s);
    }
  }

  lemma SameRows(t: Table, t': Table, q: PlaylistId, s: seq<TrackId>)
    requires Represents(t, q, s)
    requires forall k :: k in TracksOf(t', q) <==> k in TracksOf(t, q)
    requires forall k :: k in TracksOf(t, q) ==> t'[k] == t[k]
    ensures Represents(t', q, s)
  {
    forall i | 0 <= i < |s| ensures Pos(t', s[i]) == i + 1 {
      assert s[i] in TracksOf(t, q);
    }
  }

  /** One request on p does to the list what its event does to a replica. */
  lemma StepIsEvent(t: Table, p: PlaylistId, r: Request, t': Table, o: Outcome, s: seq<TrackId>)
    requires Step(t, p, r, t', o) && Represents(t, p, s)
    ensures Represents(t', p, Replay(s, Event(r, o)))
  {
    if o == Ok {
      var next := OnEvent(s, Event(r, o)[0]);
      assert Replay(s, Event(r, o)) == next by {
        assert Event(r, o)[1..] == [];
      }
      match r
      case Add(id, external) =>
        AddAppends(t, p, s, id, external);
      case Remove(id) =>
        var order :| Ordered(t - {id}, p, order) && t' == Renumbered(t - {id}, order);
        RemoveDeletes(t, p, s, id, order);
      case Move(id, pos) =>
        LengthIsCount(t, p, s);
        MoveRefinesReinsert(t, p, s, id, pos);
    }
  }

  /** A successful removal leaves positions exactly 1..n, whatever they were before. */
  lemma RemoveRepairs(t: Table, p: PlaylistId, id: TrackId, t': Table)
    requires Step(t, p, Remove(id), t', Ok)
    ensures Dense(t', p) && TracksOf(t', p) == TracksOf(t, p) - {id}
    ensures forall j, k :: j in TracksOf(t', p) && k in TracksOf(t', p) && t[j].position < t[k].position ==>
                             t'[j].position < t'[k].position
  {
    var order :| Ordered(t - {id}, p, order) && t' == Renumbered(t - {id}, order);
    RenumberRepairs(t - {id}, p, order);
    assert TracksOf(t - {id}, p) == TracksOf(t', p);
  }

  // ---------- histories ----------

  /** Replica convergence. A copy taken at commit i that applies the events of p in
      commit order is the server's list at every later commit j, and is the only
      answer that ListTracks can then give. */
  lemma {:induction false} ReplicaConverges(ts: seq<Table>, es: seq<Entry>, p: PlaylistId, i: nat, j: nat, s: seq<TrackId>)
    requires History(ts, es) && i <= j <= |es| && Represents(ts[i], p, s)
    ensures Represents(ts[j], p, Replay(s, Events(es[i..j], p)))
    ensures forall answer :: Ordered(ts[j], p, answer) ==> answer == Replay(s, Events(es[i..j], p))
    decreases j - i
  {
    if i < j {
      var e := es[i];
      assert es[i..j][0] == e && es[i..j][1..] == es[i + 1..j];
      var now := if e.p == p then Event(e.r, e.o) else [];
      if e.p == p {
        StepIsEvent(ts[i], p, e.r, ts[i + 1], e.o, s);
      } else {
        StepOther(ts[i], e.p, e.r, ts[i + 1], e.o, p, s);
      }
      ReplicaConverges(ts, es, p, i + 1, j, Replay(s, now));
      ReplayConcat(s, now, Events(es[i + 1..j], p));
    }
    var last := Replay(s, Events(es[i..j], p));
    forall answer | Ordered(ts[j], p, answer) ensures answer == last {
      ListIsDense(ts[j], p, last);
      OrderedIsList(ts[j], p, answer);
      RepresentsUnique(ts[j], p, answer, last);
    }
  }

  /** Density is kept along every history, whatever mixture of requests succeeds or fails. */
  lemma DenseForever(ts: seq<Table>, es: seq<Entry>, p: PlaylistId, j: nat)
    requires History(ts, es) && j <= |es| && Dense(ts[0], p)
    ensures Dense(ts[j], p)
  {
    DenseMeansList(ts[0], p);
    var s :| Represents(ts[0], p, s);
    ReplicaConverges(ts, es, p, 0, j, s);
    DenseMeansList(ts[j], p);
  }

  /** In particular the positions of a playlist that is empty at first stay exactly 1..n. */
  lemma NewPlaylistIsDense(ts: seq<Table>, es: seq<Entry>, p: PlaylistId, j: nat)
    requires History(ts, es) && j <= |es| && TracksOf(ts[0], p) == {}
    ensures Dense(ts[j], p)
  {
    DenseForever(ts, es, p, j);
  }
}

/** The playlist repository and handler in their own form: a table that each SQL
    statement reassigns, and the frames pushed to the rooms. */
module PlaylistObjects {
  import opened Wire
  import opened Sequences
  import opened PlaylistModel
  import opened PlaylistProofs

  class PlaylistRepository {
    var rows: Table

    constructor ()
      ensures rows == map[]
    {
      rows := map[];
    }

    /** SELECT ... ORDER BY position ASC, row by row. */
    method ListTracks(p: PlaylistId) returns (tracks: seq<TrackId>)
      ensures Ordered(rows, p, tracks)
    {
      tracks := [];
      var pending := TracksOf(rows, p);
      while pending != {}
        invariant pending <= TracksOf(rows, p)
        invariant Distinct(tracks) && (forall k :: k in tracks <==> k in TracksOf(rows, p) - pending)
        invariant forall i, j :: 0 <= i < j < |tracks| ==> Pos(rows, tracks[i]) <= Pos(rows, tracks[j])
        invariant forall i, k :: 0 <= i < |tracks| && k in pending ==> Pos(rows, tracks[i]) <= Pos(rows, k)
        decreases |pending|
      {
        MinExists(rows, pending);
        var next :| next in pending && forall k :: k in pending ==> Pos(rows, next) <= Pos(rows, k);
        assert next !in tracks;
        tracks := tracks + [next];
        pending := pending - {next};
      }
    }

    method AddTrack(p: PlaylistId, id: TrackId, external: string) returns (o: Outcome)
      requires id !in rows
      modifies this
      ensures o == Ok || o == Duplicate
      ensures Step(old(rows), p, Add(id, external), rows, o)
    {
      if Taken(rows, p, external) {
        return Duplicate;
      }
      var max := 0;
      if TracksOf(rows, p) != {} {
        MaxExists(rows, TracksOf(rows, p));
        var k :| k in TracksOf(rows, p) && forall j :: j in TracksOf(rows, p) ==> rows[j].position <= rows[k].position;
        max := rows[k].position;
      }
      rows := rows[id := Row(p, external, max + 1)];
      o := Ok;
    }

    method RemoveTrack(p: PlaylistId, id: TrackId) returns (o: Outcome)
      modifies this
      ensures o == Ok || o == NotFound
      ensures Step(old(rows), p, Remove(id), rows, o)
    {
      if id !in rows || rows[id].playlist != p {
        return NotFound;
      }
      rows := rows - {id};
      var sub := ListTracks(p);
      rows := map k | k in rows :: if k in sub then rows[k].(position := IndexOf(sub, k) + 1) else rows[k];
      o := Ok;
    }

    /** The two range shifts and the final update, statement by statement. */
    method MoveTrack(p: PlaylistId, id: TrackId, newPos: int) returns (o: Outcome)
      modifies this
      ensures o == Ok || o == OutOfRange || o == NotFound
      ensures 1 <= newPos ==> Step(old(rows), p, Move(id, newPos), rows, o)
      ensures o == Ok ==> id in TracksOf(old(rows), p) && rows == Moved(old(rows), p, id, newPos)
      ensures o != Ok ==> rows == old(rows)
    {
      if newPos > |TracksOf(rows, p)| {
        return OutOfRange;
      }
      if id !in rows || rows[id].playlist != p {
        return NotFound;
      }
      var cur := rows[id].position;
      if cur == newPos {
        assert rows == Moved(rows, p, id, newPos);
        return Ok;
      }
      if newPos > cur {
        rows := map k | k in rows ::
          if rows[k].playlist == p && cur < rows[k].position <= newPos
          then rows[k].(position := rows[k].position - 1) else rows[k];
      } else {
        rows := map k | k in rows ::
          if rows[k].playlist == p && newPos <= rows[k].position < cur
          then rows[k].(position := rows[k].position + 1) else rows[k];
      }
      rows := rows[id := rows[id].(position := newPos)];
      assert rows == Moved(old(rows), p, id, newPos);
      o := Ok;
    }
  }

  lemma {:induction false} MinExists(t: Table, ks: set<TrackId>)
    requires ks != {}
    ensures exists k :: k in ks && forall j :: j in ks ==> Pos(t, k) <= Pos(t, j)
  {
    var k :| k in ks;
    if ks == {k} {
      assert forall j :: j in ks ==> Pos(t, k) <= Pos(t, j);
    } else {
      MinExists(t, ks - {k});
      var m :| m in ks - {k} && forall j :: j in ks - {k} ==> Pos(t, m) <= Pos(t, j);
      var best := if Pos(t, k) < Pos(t, m) then k else m;
      assert forall j :: j in ks ==> j == k || j in ks - {k};
      assert best in ks && forall j :: j in ks ==> Pos(t, best) <= Pos(t, j);
    }
  }

  /** allowed is the answer of requireEditAccess; frames are those pushed to each room. */
  class PlaylistHandler {
    const repo: PlaylistRepository
    var frames: map<PlaylistId, seq<Payload>>

    constructor (repo: PlaylistRepository)
      ensures this.repo == repo && frames == map[]
    {
      this.repo := repo;
      frames := map[];
    }

    function Frames(p: PlaylistId): seq<Payload>
      reads this
    {
      if p in frames then frames[p] else []
    }

    method Broadcast(p: PlaylistId, e: Payload)
      modifies this
      ensures Frames(p) == old(Frames(p)) + [e]
      ensures forall q :: q != p ==> Frames(q) == old(Frames(q))
    {
      frames := frames[p := Frames(p) + [e]];
    }

    method AddTrack(p: PlaylistId, allowed: bool, id: TrackId, external: string) returns (o: Outcome)
      requires id !in repo.rows
      modifies this, repo
      ensures o == Refused <==> !allowed
      ensures Step(old(repo.rows), p, Add(id, external), repo.rows, o)
      ensures Frames(p) == old(Frames(p)) + Event(Add(id, external), o)
      ensures forall q :: q != p ==> Frames(q) == old(Frames(q))
    {
      if !allowed {
        return Refused;
      }
      o := repo.AddTrack(p, id, external);
      if o == Ok {
        Broadcast(p, TrackAdded(id));
      }
    }

    method RemoveTrack(p: PlaylistId, allowed: bool, id: TrackId) returns (o: Outcome)
      modifies this, repo
      ensures o == Refused <==> !allowed
      ensures Step(old(repo.rows), p, Remove(id), repo.rows, o)
      ensures Frames(p) == old(Frames(p)) + Event(Remove(id), o)
      ensures forall q :: q != p ==> Frames(q) == old(Frames(q))
    {
      if !allowed {
        return Refused;
      }
      o := repo.RemoveTrack(p, id);
      if o == Ok {
        Broadcast(p, TrackRemoved(id));
      }
    }

    method MoveTrack(p: PlaylistId, allowed: bool, id: TrackId, position: int) returns (o: Outcome)
      modifies this, repo
      ensures o == BadRequest <==> position < 1
      ensures o == Refused <==> position >= 1 && !allowed
      ensures Step(old(repo.rows), p, Move(id, position), repo.rows, o)
      ensures Frames(p) == old(Frames(p)) + Event(Move(id, position), o)
      ensures forall q :: q != p ==> Frames(q) == old(Frames(q))
    {
      if position < 1 {
        return BadRequest;
      }
      if !allowed {
        return Refused;
      }
      o := repo.MoveTrack(p, id, position);
      if o == Ok {
        Broadcast(p, TrackMoved(id, position));
      }
    }
  }
}

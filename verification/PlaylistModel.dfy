/** playlist_tracks as a table of rows with a position column, the statements of
    the repository on it, and the ordered list they stand for. */
module PlaylistModel {
  import opened Wire
  import opened Sequences

  type PlaylistId = nat

  datatype Row = Row(playlist: PlaylistId, external: string, position: int)

  type Table = map<TrackId, Row>

  function TracksOf(t: Table, p: PlaylistId): set<TrackId> {
    set k | k in t && t[k].playlist == p
  }

  /** The position column, total for convenience. */
  function Pos(t: Table, k: TrackId): int {
    if k in t then t[k].position else 0
  }

  // ---------- ordered lists ----------

  /** s has every track of p, each once. */
  ghost predicate Lists(t: Table, p: PlaylistId, s: seq<TrackId>) {
    Distinct(s) && (forall k :: k in s <==> k in TracksOf(t, p))
  }

  /** s is an answer to SELECT ... ORDER BY position; rows with equal positions may
      come in any order. */
  ghost predicate Ordered(t: Table, p: PlaylistId, s: seq<TrackId>) {
    && Lists(t, p, s)
    && (forall i, j :: 0 <= i < j < |s| ==> Pos(t, s[i]) <= Pos(t, s[j]))
  }

  /** The positions of p are exactly 1..n, with no repeats. */
  ghost predicate Dense(t: Table, p: PlaylistId) {
    && (forall k :: k in TracksOf(t, p) ==> 1 <= t[k].position <= |TracksOf(t, p)|)
    && (forall j, k :: j in TracksOf(t, p) && k in TracksOf(t, p) && t[j].position == t[k].position ==> j == k)
  }

  /** p is the list s: the track at index i has position i + 1. */
  ghost predicate Represents(t: Table, p: PlaylistId, s: seq<TrackId>) {
    Lists(t, p, s) && (forall i :: 0 <= i < |s| ==> Pos(t, s[i]) == i + 1)
  }

  function Without(s: seq<TrackId>, k: TrackId): seq<TrackId> {
    if k in s then s[..IndexOf(s, k)] + s[IndexOf(s, k) + 1..] else s
  }

  /** Take k out and put it back so that it becomes the pos-th track. */
  function Reinsert(s: seq<TrackId>, k: TrackId, pos: int): seq<TrackId> {
    var rest := Without(s, k);
    if 1 <= pos <= |rest| + 1 then rest[..pos - 1] + [k] + rest[pos - 1..] else s
  }

  // ---------- the statements ----------

  /** COALESCE(MAX(position), 0) */
  ghost function MaxPosition(t: Table, p: PlaylistId): int {
    if TracksOf(t, p) == {} then 0
    else
      MaxExists(t, TracksOf(t, p));
      var k :| k in TracksOf(t, p) && forall j :: j in TracksOf(t, p) ==> t[j].position <= t[k].position;
      t[k].position
  }

  lemma {:induction false} MaxExists(t: Table, ks: set<TrackId>)
    requires ks != {} && ks <= t.Keys
    ensures exists k :: k in ks && forall j :: j in ks ==> t[j].position <= t[k].position
  {
    var k :| k in ks;
    if ks == {k} {
      assert forall j :: j in ks ==> t[j].position <= t[k].position;
    } else {
      MaxExists(t, ks - {k});
      var m :| m in ks - {k} && forall j :: j in ks - {k} ==> t[j].position <= t[m].position;
      var best := if t[k].position > t[m].position then k else m;
      assert forall j :: j in ks ==> j == k || j in ks - {k};
      assert best in ks && forall j :: j in ks ==> t[j].position <= t[best].position;
    }
  }

  predicate Taken(t: Table, p: PlaylistId, external: string) {
    exists k :: k in t && t[k].playlist == p && t[k].external == external
  }

  /** UPDATE ... SET position = sub.rn, with the rows numbered in the order s. */
  function Renumbered(t: Table, s: seq<TrackId>): Table {
    map k | k in t :: if k in s then t[k].(position := IndexOf(s, k) + 1) else t[k]
  }

  /** The net effect of MoveTrack on one position. */
  function Shifted(position: int, cur: int, newPos: int): int {
    if position == cur then newPos
    else if cur < position <= newPos then position - 1
    else if newPos <= position < cur then position + 1
    else position
  }

  /** MoveTrack as one formula over rows with distinct positions. */
  function Moved(t: Table, p: PlaylistId, id: TrackId, newPos: int): Table
    requires id in t
  {
    map k | k in t ::
      if k == id then t[k].(position := newPos)
      else if t[k].playlist == p && t[k].position != t[id].position
      then t[k].(position := Shifted(t[k].position, t[id].position, newPos))
      else t[k]
  }

  // ---------- requests ----------

  datatype Request =
    | Add(id: TrackId, external: string)
    | Remove(id: TrackId)
    | Move(id: TrackId, position: int)

  datatype Outcome =
    | Ok
    | Duplicate
    | NotFound
    | OutOfRange
    | BadRequest
    | Refused  // no access, or the statement failed

  /** One atomic request against playlist p, as the handler, the service and the
      repository answer it. An id given to Add is a fresh one. */
  ghost predicate Step(t: Table, p: PlaylistId, r: Request, t': Table, o: Outcome) {
    if o != Ok then t' == t && (o != Refused ==> Fails(t, p, r, o))
    else
      match r
      case Add(id, external) =>
        id !in t && !Taken(t, p, external) && t' == t[id := Row(p, external, MaxPosition(t, p) + 1)]
      case Remove(id) =>
        id in TracksOf(t, p) && exists s :: Ordered(t - {id}, p, s) && t' == Renumbered(t - {id}, s)
      case Move(id, pos) =>
        id in TracksOf(t, p) && 1 <= pos <= |TracksOf(t, p)| && t' == Moved(t, p, id, pos)
  }

  /** The error answers, in the order in which the code tests for them. */
  ghost predicate Fails(t: Table, p: PlaylistId, r: Request, o: Outcome) {
    match r
    case Add(_, external) => o == Duplicate && Taken(t, p, external)
    case Remove(id) => o == NotFound && id !in TracksOf(t, p)
    case Move(id, pos) =>
      if pos < 1 then o == BadRequest
      else if pos > |TracksOf(t, p)| then o == OutOfRange
      else o == NotFound && id !in TracksOf(t, p)
  }

  /** The frame pushed to the playlist's room: one for each success, none otherwise. */
  function Event(r: Request, o: Outcome): seq<Payload> {
    if o != Ok then []
    else
      match r
      case Add(id, _) => [TrackAdded(id)]
      case Remove(id) => [TrackRemoved(id)]
      case Move(id, pos) => [TrackMoved(id, pos)]
  }
}

/** The two protocols together: a watcher of a playlist's room, fed by the hub. */
module PlaylistRoom {
  import opened Wire
  import opened HubModel
  import opened HubProperties
  import M = PlaylistModel
  import R = PlaylistRuns

  function Payloads(msgs: seq<Msg>): seq<Payload> {
    seq(|msgs|, i requires 0 <= i < |msgs| => msgs[i].payload)
  }

  /** The frames among the messages that tell of a change; a watcher ignores the others,
      which clients of the room may have sent to each other. */
  function Frames(msgs: seq<Msg>): seq<Payload> {
    if msgs == [] then []
    else (if msgs[0].payload.Text? then [] else [msgs[0].payload]) + Frames(msgs[1..])
  }

  lemma {:induction false} FramesConcat(a: seq<Msg>, b: seq<Msg>)
    ensures Frames(a + b) == Frames(a) + Frames(b)
  {
    if a == [] {
      assert a + b == b;
    } else {
      assert (a + b)[1..] == a[1..] + b;
      FramesConcat(a[1..], b);
    }
  }

  lemma {:induction false} OnlyFramesCount(s: seq<TrackId>, msgs: seq<Msg>)
    ensures R.Replay(s, Payloads(msgs)) == R.Replay(s, Frames(msgs))
    decreases |msgs|
  {
    if msgs != [] {
      var e := msgs[0].payload;
      assert Payloads(msgs)[1..] == Payloads(msgs[1..]);
      OnlyFramesCount(R.OnEvent(s, e), msgs[1..]);
      if !e.Text? {
        assert Frames(msgs)[1..] == Frames(msgs[1..]);
      } else {
        assert Frames(msgs) == Frames(msgs[1..]);
      }
    }
  }

  /** What the hub's log has offered to client c, or had offered when it left. */
  function OfferedLog(w: World, c: ClientId): seq<Msg>
    requires HasHub(w, c)
  {
    var end := SegmentEnd(w.clients[c], HubOf(w, c), c);
    if 0 <= end <= |HubOf(w, c).log| then HubOf(w, c).log[..end] else HubOf(w, c).log
  }

  /** A client registers in the room of p when the frames in the room's log are those of
      the commits start..k, and took its list at commit k. Let any run of the rooms
      follow. If the frames in the part of the log that the client was offered are then
      those of start..j, replaying whatever was put on its channel, in between which
      there may be any other messages, gives the server's list at commit j; and what it
      has read so far is a beginning of that. */
  lemma WatcherConverges(w1: World, c: ClientId, acts: seq<Action>, w2: World,
                         ts: seq<M.Table>, es: seq<R.Entry>, start: nat, k: nat, j: nat, s: seq<TrackId>)
    requires Reachable(w1) && Enabled(w1, Register(c)) && Steps(Apply(w1, Register(c)), acts, w2)
    requires R.History(ts, es) && start <= k <= j <= |es|
    requires Frames(HubOf(w1, c).log) == R.Events(es[start..k], w1.clients[c].entity)
    requires M.Represents(ts[k], w1.clients[c].entity, s)
    requires HasHub(w2, c) && Frames(OfferedLog(w2, c)) == R.Events(es[start..j], w1.clients[c].entity)
    ensures M.Represents(ts[j], w1.clients[c].entity, R.Replay(s, Payloads(w2.clients[c].Sent())))
    ensures w2.clients[c].received <= w2.clients[c].Sent()
  {
    GapFreeDelivery(w1, c, acts, w2);
    var p, sent := w1.clients[c].entity, w2.clients[c].Sent();
    assert OfferedLog(w2, c) == HubOf(w1, c).log + sent;
    FramesConcat(HubOf(w1, c).log, sent);
    assert es[start..j] == es[start..k] + es[k..j];
    R.EventsConcat(es[start..k], es[k..j], p);
    SameRest(R.Events(es[start..k], p), Frames(sent), R.Events(es[k..j], p));
    OnlyFramesCount(s, sent);
    R.ReplicaConverges(ts, es, p, k, j, s);
  }

  lemma SameRest(a: seq<Payload>, b: seq<Payload>, c: seq<Payload>)
    requires a + b == a + c
    ensures b == c
  {
    assert b == (a + b)[|a|..] && c == (a + c)[|a|..];
  }
}

/** The code of the rooms in its own form: objects, the cases of Hub.run as
    methods on the clients set, and the manager's map. Each method is one critical
    section or one case of the select, so it runs without interference; what the
    interleavings add is the subject of the state machine. */
module HubObjects {
  import opened Wire
  import opened HubModel
  import opened HubInvariant
  import opened HubProperties
  import opened HubRounds

  class ClientObject {
    /** The number of this client in the state machine; no code reads it. */
    ghost const id: ClientId
    var hub: HubObject?
    var buffer: seq<Msg>
    var closed: bool

    constructor (ghost id: ClientId)
      ensures this.id == id && hub == null && buffer == [] && !closed
    {
      this.id := id;
      hub, buffer, closed := null, [], false;
    }

    /** select { case c.send <- msg: default: } */
    method TrySend(msg: Msg) returns (ok: bool)
      requires !closed
      modifies `buffer
      ensures ok == (|old(buffer)| < SEND_BUFFER_SIZE)
      ensures buffer == if ok then old(buffer) + [msg] else old(buffer)
    {
      ok := |buffer| < SEND_BUFFER_SIZE;
      if ok {
        buffer := buffer + [msg];
      }
    }
  }

  ghost function Ids(cs: set<ClientObject>): set<ClientId> {
    set c | c in cs :: c.id
  }

  /** Different objects of the crowd are different clients. */
  ghost predicate Apart(crowd: set<ClientObject>) {
    forall c, d :: c in crowd && d in crowd && c.id == d.id ==> c == d
  }

  lemma IdsOf(crowd: set<ClientObject>, cs: set<ClientObject>, c: ClientObject)
    requires Apart(crowd) && cs <= crowd && c in crowd
    ensures Ids(cs + {c}) == Ids(cs) + {c.id} && Ids(cs - {c}) == Ids(cs) - {c.id}
    ensures c.id in Ids(cs) <==> c in cs
  {
  }

  lemma NoIds(cs: set<ClientObject>)
    ensures Ids(cs) == {} <==> cs == {}
  {
    if c :| c in cs {
      assert c.id in Ids(cs);
    }
  }

  datatype Outcome = Accepted | Dropped | WouldBlock

  class HubObject {
    /** The number of this hub in the state machine; no code reads it. */
    ghost const id: HubId
    var clients: set<ClientObject>
    var broadcast: seq<Msg>
    var hadClients: bool
    var stopped: bool

    /** The clients set holds exactly open channels of clients that point back here. */
    ghost predicate Valid()
      reads this, clients
    {
      && |broadcast| <= SEND_BUFFER_SIZE
      && (forall c :: c in clients ==> !c.closed && c.hub == this)
      && (clients != {} ==> hadClients)
      && (stopped <==> hadClients && clients == {})
    }

    constructor (ghost id: HubId)
      ensures this.id == id && Valid() && clients == {} && broadcast == [] && !hadClients && !stopped
    {
      this.id := id;
      clients, broadcast, hadClients, stopped := {}, [], false, false;
    }

    // ---------- the same hub in the state machine ----------

    /** The channels of the crowd, which are those of clients that were given this hub. */
    ghost predicate SameChannels(w: World, crowd: set<ClientObject>)
      reads crowd
    {
      forall c :: c in crowd ==>
                    IsClient(w, c.id) && w.clients[c.id].At(id)
                    && w.clients[c.id].buffer == c.buffer && w.clients[c.id].closed == c.closed
    }

    ghost predicate SameFields(w: World)
      reads this
    {
      IsHub(w, id) && w.hubs[id].clients == Ids(clients)
      && w.hubs[id].queue == broadcast && w.hubs[id].hadClients == hadClients
    }

    /** World w shows the fields of this hub as they are, wherever its loop may be. */
    ghost predicate Shows(w: World)
      reads this
    {
      SameFields(w) && (stopped <==> w.hubs[id].Stopped())
    }

    /** World w shows this hub and the channels of its crowd as they are, between two
        rounds of the loop of run. */
    ghost predicate Mirrors(w: World, crowd: set<ClientObject>)
      reads this, crowd
    {
      && Apart(crowd) && clients <= crowd && SameChannels(w, crowd) && SameFields(w)
      && (if stopped then w.hubs[id].Stopped() else w.hubs[id].loop.Idle?)
    }

    /** case c := <-h.register, the action Register of the state machine. */
    method OnRegister(c: ClientObject, ghost w: World, ghost crowd: set<ClientObject>)
      requires Valid() && !stopped && !c.closed && c.hub == this
      requires Mirrors(w, crowd) && c in crowd && Enabled(w, Register(c.id))
      modifies this
      ensures Valid() && clients == old(clients) + {c}
      ensures hadClients && !stopped && broadcast == old(broadcast)
      ensures Mirrors(Apply(w, Register(c.id)), crowd)
    {
      IdsOf(crowd, clients, c);
      hadClients := true;
      clients := clients + {c};
    }

    /** case c := <-h.unregister, the actions Unregister and Check; done tells whether
        run returns. */
    method OnUnregister(c: ClientObject, ghost w: World, ghost crowd: set<ClientObject>) returns (done: bool, ghost w': World)
      requires Valid() && !stopped
      requires Mirrors(w, crowd) && c in crowd && Enabled(w, Unregister(c.id))
      modifies this, c`closed
      ensures Valid() && clients == old(clients) - {c} && broadcast == old(broadcast)
      ensures hadClients == old(hadClients)
      ensures c.closed == (old(c.closed) || c in old(clients))
      ensures done == stopped == (hadClients && clients == {})
      ensures Steps(w, [Unregister(c.id), Check(id)], w') && Mirrors(w', crowd)
    {
      w' := Leave(w, id, c.id);
      IdsOf(crowd, clients, c);
      if c in clients {
        clients := clients - {c};
        c.closed := true;
      }
      NoIds(clients);
      done := StopIfEmpty();
    }

    /** case msg := <-h.broadcast: every member with room gets the message, every
        member without is evicted, whatever the order of the iteration. */
    method OnBroadcast() returns (done: bool)
      requires Valid() && !stopped && broadcast != []
      modifies this, clients`buffer, clients`closed
      ensures Valid() && hadClients == old(hadClients)
      ensures broadcast == old(broadcast[1..])
      ensures clients == set c | c in old(clients) && |old(c.buffer)| < SEND_BUFFER_SIZE
      ensures forall c :: c in old(clients) ==>
                            && c.hub == this
                            && c.closed == (c !in clients)
                            && c.buffer == if c in clients then old(c.buffer) + [old(broadcast[0])] else old(c.buffer)
      ensures done == stopped == (hadClients && clients == {})
    {
      var msg := broadcast[0];
      broadcast := broadcast[1..];
      OfferToAll(msg);
      done := StopIfEmpty();
    }

    /** The same, next to the state machine, where it is Dequeue, one Deliver for each
        member in any order, and Check. */
    method OnBroadcastMirrored(ghost w: World, ghost crowd: set<ClientObject>)
      returns (done: bool, ghost acts: seq<Action>, ghost w': World)
      requires Valid() && !stopped && broadcast != []
      requires Reachable(w) && Mirrors(w, crowd)
      modifies this, clients`buffer, clients`closed
      ensures done == stopped && Valid()
      ensures Steps(w, acts, w') && IsRound(acts, id) && Mirrors(w', crowd)
    {
      acts, w' := Round(w, id);
      ghost var members, buffers, msg := clients, map c | c in crowd :: c.buffer, broadcast[0];
      done := OnBroadcast();
      RoundMirrored(w, w', crowd, members, buffers, msg);
      NoIds(clients);
    }

    /** After a round of the loop, in which the members had these buffers, the state
        machine still shows the channels and the members as they are. */
    lemma RoundMirrored(w: World, w': World, crowd: set<ClientObject>, members: set<ClientObject>,
                        buffers: map<ClientObject, seq<Msg>>, msg: Msg)
      requires Apart(crowd) && members <= crowd && buffers.Keys == crowd
      requires forall c :: c in crowd ==>
                             IsClient(w, c.id) && w.clients[c.id].At(id) && w.clients[c.id].buffer == buffers[c]
      requires IsHub(w, id) && w.hubs[id].clients == Ids(members) && RoundEffect(w, w', id, msg)
      requires clients == set c | c in members && |buffers[c]| < SEND_BUFFER_SIZE
      requires forall c :: c in members ==>
                             && c.closed == (c !in clients) && IsClient(w, c.id) && !w.clients[c.id].closed
                             && c.buffer == if c in clients then buffers[c] + [msg] else buffers[c]
      requires forall c :: c in crowd && c !in members ==>
                             IsClient(w, c.id) && c.closed == w.clients[c.id].closed && c.buffer == buffers[c]
      ensures SameChannels(w', crowd) && w'.hubs[id].clients == Ids(clients)
    {
      forall c | c in crowd
        ensures IsClient(w', c.id) && w'.clients[c.id].At(id)
        ensures w'.clients[c.id].buffer == c.buffer && w'.clients[c.id].closed == c.closed
      {
        IdsOf(crowd, members, c);
      }
      forall i ensures i in w'.hubs[id].clients <==> i in Ids(clients) {
        if i in Ids(members) {
          var c :| c in members && c.id == i;
          IdsOf(crowd, clients, c);
        }
      }
    }

    /** for c := range h.clients */
    method OfferToAll(msg: Msg)
      requires forall c :: c in clients ==> !c.closed
      modifies `clients, clients`buffer, clients`closed
      ensures clients == set c | c in old(clients) && |old(c.buffer)| < SEND_BUFFER_SIZE
      ensures forall c :: c in old(clients) ==>
                            && c.closed == (c !in clients)
                            && c.buffer == if c in clients then old(c.buffer) + [msg] else old(c.buffer)
    {
      var all, todo := clients, clients;
      while todo != {}
        invariant todo <= all == old(clients) && clients <= all
        invariant forall c :: c in todo ==> c in clients && c.buffer == old(c.buffer)
        invariant forall c :: c in all - todo ==>
                                && (c in clients <==> |old(c.buffer)| < SEND_BUFFER_SIZE)
                                && c.buffer == if c in clients then old(c.buffer) + [msg] else old(c.buffer)
        invariant forall c :: c in all ==> c.closed == (c !in clients)
        decreases |todo|
      {
        var c :| c in todo;
        todo := todo - {c};
        var ok := c.TrySend(msg);
        if !ok {
          c.closed := true;
          clients := clients - {c};
        }
      }
    }

    /** The test that ends both cases. */
    method StopIfEmpty() returns (done: bool)
      requires !stopped
      modifies `stopped
      ensures done == stopped == (hadClients && clients == {})
    {
      done := hadClients && clients == {};
      if done {
        stopped := true;
      }
    }

    /** Hub.Broadcast: both arms of the select may be ready, and then either is taken. */
    method Broadcast(msg: Msg) returns (outcome: Outcome)
      requires |broadcast| <= SEND_BUFFER_SIZE
      modifies `broadcast
      ensures broadcast == if outcome.Accepted? then old(broadcast) + [msg] else old(broadcast)
      ensures outcome.Accepted? ==> |old(broadcast)| < SEND_BUFFER_SIZE
      ensures outcome.Dropped? ==> stopped
      ensures outcome.WouldBlock? <==> |old(broadcast)| == SEND_BUFFER_SIZE && !stopped
    {
      if {
        case |broadcast| < SEND_BUFFER_SIZE =>
          broadcast := broadcast + [msg];
          outcome := Accepted;
        case stopped =>
          outcome := Dropped;
        case |broadcast| == SEND_BUFFER_SIZE && !stopped =>
          outcome := WouldBlock;
      }
    }

    /** The same, next to the state machine, for call s: the actions SenderEnqueue and
        SenderAbort, or neither is enabled. */
    method BroadcastMirrored(msg: Msg, ghost w: World, ghost s: SenderId) returns (outcome: Outcome)
      requires |broadcast| <= SEND_BUFFER_SIZE
      requires Shows(w) && IsSender(w, s) && w.senders[s] == Sender(msg, Blocked(id))
      modifies `broadcast
      ensures outcome.Accepted? ==> Enabled(w, SenderEnqueue(s)) && Shows(Apply(w, SenderEnqueue(s)))
      ensures outcome.Dropped? ==> Enabled(w, SenderAbort(s)) && Shows(Apply(w, SenderAbort(s)))
      ensures outcome.WouldBlock? ==> !Enabled(w, SenderEnqueue(s)) && !Enabled(w, SenderAbort(s)) && Shows(w)
    {
      outcome := Broadcast(msg);
    }
  }

  class HubManager {
    var hubs: map<EntityId, HubObject>

    constructor ()
      ensures hubs == map[] && Mirrors(INIT)
    {
      hubs := map[];
    }

    /** The map of world w is this one. */
    ghost predicate Mirrors(w: World)
      reads this
    {
      hubs.Keys == w.table.Keys && forall e :: e in hubs ==> hubs[e].id == w.table[e]
    }

    /** The action ClientGet of client c, as far as the map is concerned. */
    method GetOrCreate(e: EntityId, ghost w: World, ghost c: ClientId) returns (h: HubObject)
      requires Mirrors(w) && Enabled(w, ClientGet(c)) && w.clients[c].entity == e
      modifies this
      ensures e in old(hubs) ==> h == old(hubs)[e] && hubs == old(hubs)
      ensures e !in old(hubs) ==> fresh(h) && hubs == old(hubs)[e := h] && h.Valid() && !h.hadClients && !h.stopped
      ensures Mirrors(Apply(w, ClientGet(c))) && Apply(w, ClientGet(c)).clients[c].hub == Some(h.id)
      ensures e !in old(hubs) ==> h.Mirrors(Apply(w, ClientGet(c)), {})
    {
      if e in hubs {
        return hubs[e];
      }
      h := new HubObject(|w.hubs|);
      hubs := hubs[e := h];
    }

    /** onEmpty, the action Cleanup as far as the map is concerned. It removes only this
        exact instance; and whenever the loop of h has come here, that is what it finds. */
    method OnEmpty(e: EntityId, h: HubObject, ghost w: World)
      requires Mirrors(w) && IsHub(w, h.id) && w.hubs[h.id].entity == e
      requires forall f :: f in hubs && hubs[f].id == h.id ==> hubs[f] == h
      modifies this
      ensures Mirrors(CleanedUp(w, h.id))
      ensures e in hubs ==> hubs[e] != h
      ensures forall f :: f in old(hubs) && old(hubs)[f] != h ==> f in hubs && hubs[f] == old(hubs)[f]
      ensures hubs.Keys <= old(hubs).Keys
      ensures Reachable(w) && w.hubs[h.id].loop.Cleaning? ==> e in old(hubs) && old(hubs)[e] == h && e !in hubs
    {
      if Reachable(w) && w.hubs[h.id].loop.Cleaning? {
        CleaningIsMapped(w, h.id);
      }
      CleanedTable(w, h.id);
      if e in hubs && hubs[e] == h {
        hubs := hubs - {e};
      }
    }

    /** Never creates a hub; a room that nobody watches costs nothing. */
    method Broadcast(e: EntityId, msg: Msg) returns (outcome: Outcome)
      requires e in hubs ==> |hubs[e].broadcast| <= SEND_BUFFER_SIZE
      modifies if e in hubs then {hubs[e]} else {}
      ensures hubs == old(hubs)
      ensures e !in hubs ==> outcome == Dropped
      ensures e in hubs ==>
                && hubs[e].broadcast == old(hubs[e].broadcast) + (if outcome.Accepted? then [msg] else [])
                && hubs[e].clients == old(hubs[e].clients) && hubs[e].stopped == old(hubs[e].stopped)
                && (outcome.Accepted? ==> |old(hubs[e].broadcast)| < SEND_BUFFER_SIZE)
                && (outcome.Dropped? ==> hubs[e].stopped)
                && (outcome.WouldBlock? <==> |old(hubs[e].broadcast)| == SEND_BUFFER_SIZE && !hubs[e].stopped)
    {
      outcome := Dropped;
      if e in hubs {
        outcome := hubs[e].Broadcast(msg);
      }
    }

    /** The same, next to the state machine: call s looks its room up, and then takes the
        arm of the select that is taken here. */
    method BroadcastMirrored(e: EntityId, msg: Msg, ghost w: World, ghost s: SenderId)
      returns (outcome: Outcome, ghost acts: seq<Action>, ghost w': World)
      requires e in hubs ==> |hubs[e].broadcast| <= SEND_BUFFER_SIZE && hubs[e].Shows(w)
      requires Mirrors(w) && Enabled(w, SenderLookup(s)) && w.senders[s].msg == msg && msg.entity == e
      modifies if e in hubs then {hubs[e]} else {}
      ensures Steps(w, acts, w') && Mirrors(w') && (e in hubs ==> hubs[e].Shows(w'))
      ensures IsSender(w', s)
      ensures match outcome
              case Accepted => w'.senders[s].state == Finished(true)
              case Dropped => w'.senders[s].state == Finished(false)
              case WouldBlock => w'.senders[s].state.Blocked? && !Enabled(w', SenderEnqueue(s)) && !Enabled(w', SenderAbort(s))
    {
      outcome := Dropped;
      acts, w' := Looks(w, s);
      if e in hubs {
        ghost var v := w';
        outcome := hubs[e].BroadcastMirrored(msg, v, s);
        acts, w' := TakesArm(w, acts, v, s, outcome.Accepted?, outcome.Dropped?);
      }
    }

    method HasHub(e: EntityId) returns (yes: bool)
      ensures yes <==> e in hubs
    {
      yes := e in hubs;
    }

    method Len() returns (n: nat)
      ensures n == |hubs.Keys|
    {
      n := |hubs|;
    }
  }
}

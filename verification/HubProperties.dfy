/** What every run of the rooms keeps: delivery without gaps, how memberships end,
    isolation of the rooms, and safe use of the channels. */
module HubProperties {
  import opened Wire
  import opened HubModel
  import opened HubInvariant

  // ---------- what only grows ----------

  /** Every message a hub has accepted, oldest first. */
  function Accepted(hub: Hub): seq<Msg> {
    hub.log + hub.queue
  }

  ghost predicate HubGrows(a: Hub, b: Hub) {
    && b.entity == a.entity
    && a.log <= b.log
    && Accepted(a) <= Accepted(b)
    && (a.hadClients ==> b.hadClients)
    && (a.Stopped() ==> b.Stopped() && b.log == a.log)
    && (a.loop.Gone? ==> b.loop.Gone?)
  }

  ghost predicate ClientGrows(x: Client, y: Client) {
    && y.entity == x.entity
    && x.received <= y.received
    && x.Sent() <= y.Sent()
    && (x.serve.Joined? ==> y.serve.Joined? && y.hub == x.hub && JoinedAt(y) == JoinedAt(x))
    && (x.span.Left? ==> y.span == x.span && y.Sent() == x.Sent())
  }

  ghost predicate Grows(w: World, w': World) {
    && |w.hubs| <= |w'.hubs| && |w.clients| <= |w'.clients|
    && (forall h :: 0 <= h < |w.hubs| ==> HubGrows(w.hubs[h], w'.hubs[h]))
    && (forall c :: 0 <= c < |w.clients| ==> ClientGrows(w.clients[c], w'.clients[c]))
  }

  lemma GrowsPut(w: World, w': World, h: HubId, c: ClientId)
    requires |w'.hubs| == |w.hubs| && |w'.clients| == |w.clients|
    requires IsHub(w, h) ==> w'.hubs == w.hubs[h := w'.hubs[h]] && HubGrows(w.hubs[h], w'.hubs[h])
    requires IsClient(w, c) ==> w'.clients == w.clients[c := w'.clients[c]] && ClientGrows(w.clients[c], w'.clients[c])
    requires !IsHub(w, h) ==> w'.hubs == w.hubs
    requires !IsClient(w, c) ==> w'.clients == w.clients
    ensures Grows(w, w')
  {
  }

  lemma DrainGrows(x: Client)
    requires x.buffer != []
    ensures ClientGrows(x, x.(received := x.received + [x.buffer[0]], buffer := x.buffer[1..]))
  {
    assert (x.received + [x.buffer[0]]) + x.buffer[1..] == x.received + x.buffer;
  }

  lemma EnqueueGrows(hub: Hub, m: Msg)
    ensures HubGrows(hub, hub.(queue := hub.queue + [m]))
  {
    assert hub.log + (hub.queue + [m]) == (hub.log + hub.queue) + [m];
  }

  lemma DequeueGrows(hub: Hub)
    requires hub.queue != [] && hub.loop.Idle?
    ensures HubGrows(hub, Dequeued(hub))
  {
    assert (hub.log + [hub.queue[0]]) + hub.queue[1..] == hub.log + hub.queue;
  }

  lemma GrowsApply(w: World, a: Action)
    requires Inv(w) && Enabled(w, a)
    ensures Grows(w, Apply(w, a))
  {
    if IsLoopAction(a) {
      GrowsLoop(w, a);
    } else if IsPumpAction(a) {
      GrowsPump(w, a);
    } else if a.ForwardEnqueue? || a.SenderEnqueue? {
      GrowsEnqueue(w, a);
    } else if a.Unregister? {
      GrowsUnregister(w, a.c);
    } else {
      GrowsOther(w, a);
    }
  }

  lemma GrowsEnqueue(w: World, a: Action)
    requires Enabled(w, a) && (a.ForwardEnqueue? || a.SenderEnqueue?)
    ensures Grows(w, Apply(w, a))
  {
    if a.ForwardEnqueue? {
      EnqueueGrows(HubOf(w, a.c), w.clients[a.c].reader.msg);
      GrowsPut(w, Apply(w, a), w.clients[a.c].hub.value, a.c);
    } else {
      EnqueueGrows(w.hubs[w.senders[a.s].state.hub], w.senders[a.s].msg);
      GrowsPut(w, Apply(w, a), w.senders[a.s].state.hub, |w.clients|);
    }
  }

  lemma GrowsOther(w: World, a: Action)
    requires ClientsOk(w) && Enabled(w, a)
    requires a.Connect? || a.ClientLock? || a.ClientGet? || a.Register? || a.RegisterFails?
             || a.Submit? || a.SenderLock? || a.SenderLookup? || a.SenderAbort?
    ensures Grows(w, Apply(w, a))
  {
    if a.Register? {
      GrowsPut(w, Apply(w, a), w.clients[a.c].hub.value, a.c);
    } else if a.ClientLock? || a.RegisterFails? {
      GrowsPut(w, Apply(w, a), |w.hubs|, a.c);
    } else if a.ClientGet? {
      GrowsGet(w, a.c);
    } else {
      GrowsAppend(w, Apply(w, a));
    }
  }

  lemma GrowsAppend(w: World, w': World)
    requires w.hubs == w'.hubs && w.clients <= w'.clients
    ensures Grows(w, w')
  {
  }

  lemma GrowsGet(w: World, c: ClientId)
    requires ClientsOk(w) && Enabled(w, ClientGet(c))
    ensures Grows(w, GetOrCreate(w, c))
  {
    assert ClientOk(w.clients[c]);
  }

  lemma GrowsLoop(w: World, a: Action)
    requires Inv(w) && Enabled(w, a) && IsLoopAction(a)
    ensures Grows(w, Apply(w, a))
  {
    match a
    case Deliver(h, c) => GrowsDeliver(w, h, c);
    case Dequeue(h) => DequeueGrows(w.hubs[h]); GrowsPut(w, Apply(w, a), h, |w.clients|);
    case Check(h) => GrowsPut(w, Apply(w, a), h, |w.clients|);
    case HubLock(h) => GrowsPut(w, Apply(w, a), h, |w.clients|);
    case Cleanup(h) => GrowsPut(w, Apply(w, a), h, |w.clients|);
  }

  lemma GrowsPump(w: World, a: Action)
    requires ClientsOk(w) && Enabled(w, a) && IsPumpAction(a)
    ensures Grows(w, Apply(w, a))
  {
    if a.Drain? {
      DrainGrows(w.clients[a.c]);
    }
    GrowsPut(w, Apply(w, a), |w.hubs|, a.c);
  }

  lemma GrowsUnregister(w: World, c: ClientId)
    requires Inv(w) && Enabled(w, Unregister(c))
    ensures Grows(w, Apply(w, Unregister(c)))
  {
    var h := w.clients[c].hub.value;
    if c in w.hubs[h].clients {
      assert IsMember(w.clients, h, c);
    }
    GrowsPut(w, Apply(w, Unregister(c)), h, c);
  }

  lemma GrowsDeliver(w: World, h: HubId, c: ClientId)
    requires Inv(w) && Enabled(w, Deliver(h, c))
    ensures Grows(w, DeliverTo(w, h, c))
  {
    var x := w.clients[c];
    var m := w.hubs[h].loop.msg;
    assert IsMember(w.clients, h, c) && ClientOk(x);
    assert x.received + (x.buffer + [m]) == (x.received + x.buffer) + [m];
    GrowsPut(w, DeliverTo(w, h, c), h, c);
  }

  lemma {:induction false} GrowsSteps(w: World, acts: seq<Action>, w': World)
    requires Inv(w) && Steps(w, acts, w')
    ensures Grows(w, w')
    decreases |acts|
  {
    if acts != [] {
      GrowsApply(w, acts[0]);
      InvApply(w, acts[0]);
      var v := Apply(w, acts[0]);
      GrowsSteps(v, acts[1..], w');
      forall h | 0 <= h < |w.hubs| ensures HubGrows(w.hubs[h], w'.hubs[h]) {
        assert HubGrows(w.hubs[h], v.hubs[h]) && HubGrows(v.hubs[h], w'.hubs[h]);
      }
      forall c | 0 <= c < |w.clients| ensures ClientGrows(w.clients[c], w'.clients[c]) {
        assert ClientGrows(w.clients[c], v.clients[c]) && ClientGrows(v.clients[c], w'.clients[c]);
      }
    }
  }

  // ---------- delivery ----------

  /** Where the segment of a joined client ends: the log position up to which it
      has been served, or the one at which it left. */
  function SegmentEnd(x: Client, hub: Hub, c: ClientId): int {
    if x.span.Left? then x.span.to else hub.Offered(c)
  }

  /** Gap-free delivery. Take any run, let client c register in it, and let any
      further run follow: what was put on its channel is one contiguous segment of
      its hub's log, starting at the length the log had when it registered. */
  lemma GapFreeDelivery(w1: World, c: ClientId, acts: seq<Action>, w2: World)
    requires Reachable(w1) && Enabled(w1, Register(c)) && Steps(Apply(w1, Register(c)), acts, w2)
    ensures IsClient(w2, c) && w2.clients[c].hub == w1.clients[c].hub && HasHub(w2, c)
    ensures var x, hub, from := w2.clients[c], HubOf(w2, c), |HubOf(w1, c).log|;
            && HubOf(w1, c).log <= hub.log
            && from <= SegmentEnd(x, hub, c) <= |hub.log|
            && x.Sent() == hub.log[from..SegmentEnd(x, hub, c)]
            && x.received <= hub.log[from..]
  {
    ReachableApply(w1, Register(c));
    SegmentPersists(Apply(w1, Register(c)), c, acts, w2);
  }

  /** The run after a registration. */
  lemma SegmentPersists(v: World, c: ClientId, acts: seq<Action>, w2: World)
    requires Reachable(v) && IsClient(v, c) && v.clients[c].serve.Joined? && Steps(v, acts, w2)
    ensures HasHub(v, c) && HasHub(w2, c) && w2.clients[c].hub == v.clients[c].hub
    ensures var x, hub, from := w2.clients[c], HubOf(w2, c), JoinedAt(v.clients[c]);
            && HubOf(v, c).log <= hub.log
            && from <= SegmentEnd(x, hub, c) <= |hub.log|
            && x.Sent() == hub.log[from..SegmentEnd(x, hub, c)]
            && x.received <= hub.log[from..]
  {
    JoinedRun(v, c, acts, w2);
    var x, hub := w2.clients[c], HubOf(w2, c);
    var from, to := JoinedAt(x), SegmentEnd(x, hub, c);
    assert Segment(x, hub, from, to);
    assert x.received <= hub.log[from..to] <= hub.log[from..];
  }

  /** What a run says about one client that had joined at its start. */
  lemma JoinedRun(v: World, c: ClientId, acts: seq<Action>, w2: World)
    requires Reachable(v) && IsClient(v, c) && v.clients[c].serve.Joined? && Steps(v, acts, w2)
    ensures HasHub(v, c) && HasHub(w2, c) && w2.clients[c].serve.Joined?
    ensures ClientGrows(v.clients[c], w2.clients[c]) && HubGrows(HubOf(v, c), HubOf(w2, c))
    ensures ClientOk(v.clients[c]) && ClientOk(w2.clients[c]) && LinkOk(c, w2.clients[c], HubOf(w2, c))
  {
    InvReachable(v);
    InvSteps(v, acts, w2);
    GrowsSteps(v, acts, w2);
    JoinedFacts(v, c);
    assert ClientGrows(v.clients[c], w2.clients[c]);
    JoinedFacts(w2, c);
  }

  lemma JoinedFacts(w: World, c: ClientId)
    requires Inv(w) && IsClient(w, c) && w.clients[c].serve.Joined?
    ensures HasHub(w, c) && ClientOk(w.clients[c]) && LinkOk(c, w.clients[c], HubOf(w, c)) && HubOk(HubOf(w, c))
  {
    assert ClientOk(w.clients[c]);
  }

  lemma {:induction false} StepsThen(w: World, acts: seq<Action>, w': World, a: Action)
    requires Steps(w, acts, w') && Enabled(w', a)
    ensures Steps(w, acts + [a], Apply(w', a))
    decreases |acts|
  {
    if acts == [] {
      assert [a][1..] == [];
    } else {
      StepsThen(Apply(w, acts[0]), acts[1..], w', a);
      assert (acts + [a])[1..] == acts[1..] + [a];
    }
  }

  lemma ReachableApply(w: World, a: Action)
    requires Reachable(w) && Enabled(w, a)
    ensures Reachable(Apply(w, a))
  {
    var acts :| Steps(INIT, acts, w);
    StepsThen(INIT, acts, w, a);
  }

  /** A membership ends in exactly two ways: the client unregisters, and has then
      been served the whole log, or it is evicted, and then its queue was full and
      the message being delivered is the one it misses. */
  lemma HowMembershipEnds(w: World, a: Action, c: ClientId)
    requires Reachable(w) && Enabled(w, a) && IsClient(w, c)
    requires w.clients[c].span.Member? && !Apply(w, a).clients[c].span.Member?
    ensures w.clients[c].hub.Some? && IsHub(w, w.clients[c].hub.value)
    ensures var h, y := w.clients[c].hub.value, Apply(w, a).clients[c];
            && y.span.Left? && y.closed
            && (y.span.evicted <==> a == Deliver(h, c))
            && (!y.span.evicted <==> a == Unregister(c))
            && (y.span.evicted ==> |w.clients[c].buffer| == SEND_BUFFER_SIZE && y.span.to == |w.hubs[h].log| - 1)
            && (!y.span.evicted ==> y.span.to == |w.hubs[h].log|)
  {
    InvReachable(w);
    assert ClientOk(w.clients[c]) && LinkOk(c, w.clients[c], HubOf(w, c));
    if a.Deliver? {
      EvictionEnds(w, a.h, a.c, c);
    } else if a.Unregister? && a.c == c {
    } else {
      StaysMember(w, a, c);
    }
  }

  lemma EvictionEnds(w: World, h: HubId, e: ClientId, c: ClientId)
    requires Inv(w) && Enabled(w, Deliver(h, e)) && IsClient(w, c)
    requires w.clients[c].span.Member? && !DeliverTo(w, h, e).clients[c].span.Member?
    ensures e == c && w.clients[c].At(h) && |w.clients[c].buffer| == SEND_BUFFER_SIZE
    ensures var y := DeliverTo(w, h, e).clients[c];
            y.closed && y.span == Left(w.clients[c].span.from, |w.hubs[h].log| - 1, true)
  {
    assert HubOk(w.hubs[h]) && IsMember(w.clients, h, e) && ClientOk(w.clients[c]);
  }

  lemma StaysMember(w: World, a: Action, c: ClientId)
    requires ClientsOk(w) && Enabled(w, a) && IsClient(w, c) && w.clients[c].span.Member?
    requires !a.Deliver? && a != Unregister(c)
    ensures Apply(w, a).clients[c].span.Member?
  {
    assert ClientOk(w.clients[c]);
  }

  /** Nothing a hub has accepted is lost, reordered or duplicated on the way to its log:
      along every run the accepted messages only grow at the end, the log is always their
      beginning, and a stopped hub delivers nothing more. */
  lemma AcceptedInOrder(w1: World, acts: seq<Action>, w2: World, h: HubId)
    requires Reachable(w1) && Steps(w1, acts, w2) && IsHub(w1, h)
    ensures IsHub(w2, h) && Accepted(w1.hubs[h]) <= Accepted(w2.hubs[h])
    ensures w1.hubs[h].log <= w2.hubs[h].log <= Accepted(w2.hubs[h])
    ensures w1.hubs[h].Stopped() ==> w2.hubs[h].log == w1.hubs[h].log
  {
    InvReachable(w1);
    GrowsSteps(w1, acts, w2);
    assert HubGrows(w1.hubs[h], w2.hubs[h]);
  }

  /** A room hears only what was meant for it. */
  lemma RoomsAreIsolated(w: World, c: ClientId, i: nat)
    requires Reachable(w) && IsClient(w, c) && i < |w.clients[c].Sent()|
    ensures w.clients[c].Sent()[i].entity == w.clients[c].entity
  {
    InvReachable(w);
    var x := w.clients[c];
    assert ClientOk(x);
    assert LinkOk(c, x, HubOf(w, c));
    assert HubOk(HubOf(w, c));
  }

  // ---------- channel safety ----------

  /** No send on, and no close of, a closed channel; a joined client is in its
      hub's set exactly while its channel is open, and a stopped hub has closed
      the channel of every client it admitted. */
  lemma ChannelSafety(w: World, c: ClientId)
    requires Reachable(w)
    ensures !w.panicked
    ensures IsClient(w, c) && w.clients[c].serve.Joined? ==>
              && HasHub(w, c)
              && (c in HubOf(w, c).clients <==> !w.clients[c].closed)
              && (HubOf(w, c).Stopped() ==> w.clients[c].closed)
    ensures forall h :: 0 <= h < |w.hubs| && c in w.hubs[h].clients ==> IsClient(w, c) && w.clients[c].At(h)
  {
    InvReachable(w);
    if IsClient(w, c) && w.clients[c].serve.Joined? {
      assert ClientOk(w.clients[c]);
      assert LinkOk(c, w.clients[c], HubOf(w, c)) && HubOk(HubOf(w, c));
      if c in HubOf(w, c).clients {
        assert IsMember(w.clients, w.clients[c].hub.value, c);
      }
    }
    forall h | 0 <= h < |w.hubs| && c in w.hubs[h].clients ensures IsClient(w, c) && w.clients[c].At(h) {
      assert IsMember(w.clients, h, c);
    }
  }

  /** A client registers at most once, and keeps the hub it registered with; once
      closed, its channel stays closed and nothing more is put on it. */
  lemma RegistersOnce(w1: World, c: ClientId, acts: seq<Action>, w2: World)
    requires Reachable(w1) && IsClient(w1, c) && w1.clients[c].serve.Joined? && Steps(w1, acts, w2)
    ensures IsClient(w2, c) && w2.clients[c].hub == w1.clients[c].hub
    ensures !Enabled(w2, Register(c)) && !Enabled(w2, ClientGet(c))
    ensures w1.clients[c].closed ==> w2.clients[c].closed && w2.clients[c].Sent() == w1.clients[c].Sent()
  {
    JoinedRun(w1, c, acts, w2);
  }
}

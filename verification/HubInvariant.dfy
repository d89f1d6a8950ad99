/** The whole-state invariant of the rooms, and its preservation by every action. */
module HubInvariant {
  import opened Wire
  import opened HubModel

  // ---------- the invariant ----------

  ghost predicate AllFor(msgs: seq<Msg>, e: EntityId) {
    forall i :: 0 <= i < |msgs| ==> msgs[i].entity == e
  }

  /** x has been sent exactly the messages from..to of the hub's log. */
  ghost predicate Segment(x: Client, hub: Hub, from: int, to: int) {
    0 <= from <= to <= |hub.log| && x.Sent() == hub.log[from..to]
  }

  predicate Attached(x: Client) {
    x.serve.Registering? || x.serve.Joined?
  }

  /** What a client's own fields say about each other. */
  ghost predicate ClientOk(x: Client) {
    && |x.buffer| <= SEND_BUFFER_SIZE
    && (x.closed <==> x.span.Left?)
    && (x.serve.Joined? <==> !x.span.Outside?)
    && (Attached(x) ==> x.hub.Some?)
    && (!x.serve.Joined? ==> x.Sent() == [] && x.reader.ReaderIdle? && x.writer.WriterIdle?)
    && (x.serve.Joined? ==> !x.reader.ReaderIdle?)
    && (x.span.Member? ==> !x.reader.ReaderDone?)
    && (x.reader.Forwarding? ==> x.reader.msg.entity == x.entity)
  }

  /** What client c and the hub in its hub field say about each other. */
  ghost predicate LinkOk(c: ClientId, x: Client, hub: Hub) {
    && hub.entity == x.entity
    && (x.span.Member? ==> c in hub.clients && Segment(x, hub, x.span.from, hub.Offered(c)))
    && (x.span.Left? ==> Segment(x, hub, x.span.from, x.span.to))
    && (x.span.Left? && x.span.evicted ==>
          x.span.to < |hub.log| && x.span.to - x.span.from >= SEND_BUFFER_SIZE)
  }

  /** What a hub's own fields say about each other. */
  ghost predicate HubOk(hub: Hub) {
    && |hub.queue| <= SEND_BUFFER_SIZE
    && AllFor(hub.queue, hub.entity)
    && AllFor(hub.log, hub.entity)
    && (hub.loop.Sweeping? ==> hub.loop.todo <= hub.clients && hub.loop.todo != {}
                               && |hub.log| > 0 && hub.log[|hub.log| - 1] == hub.loop.msg)
    && (hub.Stopped() ==> hub.hadClients && hub.clients == {})
    && (hub.loop.Idle? && hub.hadClients ==> hub.clients != {})
    && (!hub.hadClients ==> hub.clients == {})
  }

  ghost predicate IsMember(clients: seq<Client>, h: HubId, c: ClientId) {
    c < |clients| && clients[c].At(h) && clients[c].span.Member?
  }

  /** A hub without a first registration is still awaited by its creator. */
  ghost predicate Awaited(clients: seq<Client>, h: HubId, hub: Hub) {
    hub.creator < |clients| && clients[hub.creator].At(h) && clients[hub.creator].serve.Registering?
  }

  ghost predicate ClientsOk(w: World) {
    forall c :: 0 <= c < |w.clients| ==> ClientOk(w.clients[c])
  }

  ghost predicate LinksOk(w: World) {
    forall c :: 0 <= c < |w.clients| && Attached(w.clients[c]) && w.clients[c].hub.Some? ==>
                  w.clients[c].hub.value < |w.hubs| && LinkOk(c, w.clients[c], w.hubs[w.clients[c].hub.value])
  }

  ghost predicate HubsOk(w: World) {
    forall h :: 0 <= h < |w.hubs| ==> HubOk(w.hubs[h])
  }

  ghost predicate MembersOk(w: World) {
    && (forall h, c :: 0 <= h < |w.hubs| && c in w.hubs[h].clients ==> IsMember(w.clients, h, c))
    && (forall h :: 0 <= h < |w.hubs| && !w.hubs[h].hadClients ==> Awaited(w.clients, h, w.hubs[h]))
  }

  ghost predicate SendersOk(w: World) {
    forall s :: 0 <= s < |w.senders| && w.senders[s].state.Blocked? ==>
                  w.senders[s].state.hub < |w.hubs| && w.hubs[w.senders[s].state.hub].entity == w.senders[s].msg.entity
  }

  /** The manager's map holds exactly the hubs whose run has not returned. */
  ghost predicate TableOk(w: World) {
    && (forall e :: e in w.table ==>
                      w.table[e] < |w.hubs| && w.hubs[w.table[e]].entity == e && !w.hubs[w.table[e]].loop.Gone?)
    && (forall h :: 0 <= h < |w.hubs| && !w.hubs[h].loop.Gone? ==>
                      w.hubs[h].entity in w.table && w.table[w.hubs[h].entity] == h)
  }

  ghost predicate MutexOk(w: World) {
    && (forall c :: 0 <= c < |w.clients| ==> (w.clients[c].serve.Locked? <==> w.mu == ByClient(c)))
    && (forall s :: 0 <= s < |w.senders| ==> (w.senders[s].state.InLock? <==> w.mu == BySender(s)))
    && (forall h :: 0 <= h < |w.hubs| ==> (w.hubs[h].loop.Cleaning? <==> w.mu == ByHub(h)))
    && (w.mu.ByClient? ==> w.mu.client < |w.clients|)
    && (w.mu.BySender? ==> w.mu.sender < |w.senders|)
    && (w.mu.ByHub? ==> w.mu.hub < |w.hubs|)
  }

  ghost predicate Inv(w: World) {
    && !w.panicked
    && ClientsOk(w) && LinksOk(w) && HubsOk(w) && MembersOk(w)
    && SendersOk(w) && TableOk(w) && MutexOk(w)
  }

  // ---------- changes to one record ----------

  /** A pump step: nothing that another goroutine relies on has changed. */
  ghost predicate SamePlace(x: Client, y: Client) {
    && y.entity == x.entity && y.serve == x.serve && y.hub == x.hub && y.span == x.span
    && y.Sent() == x.Sent()
  }

  lemma InvPutClient(w: World, c: ClientId, y: Client)
    requires Inv(w) && IsClient(w, c)
    requires ClientOk(y) && SamePlace(w.clients[c], y)
    ensures Inv(PutClient(w, c, y))
  {
  }

  /** A change to the queue, or to a loop outside a sweep. */
  ghost predicate SameRoom(hub: Hub, next: Hub) {
    && next == hub.(queue := next.queue, loop := next.loop)
    && (next.loop == hub.loop || (!hub.loop.Sweeping? && !next.loop.Sweeping?))
    && (next.loop.Gone? <==> hub.loop.Gone?)
    && (next.loop.Cleaning? <==> hub.loop.Cleaning?)
  }

  lemma InvPutHub(w: World, h: HubId, next: Hub)
    requires Inv(w) && IsHub(w, h)
    requires HubOk(next) && SameRoom(w.hubs[h], next)
    ensures Inv(PutHub(w, h, next))
  {
    LinksPutHub(w, h, next);
    MembersPutHub(w, h, next);
    SharedPutRoom(w, h, next);
  }

  lemma SharedPutRoom(w: World, h: HubId, next: Hub)
    requires SendersOk(w) && TableOk(w) && MutexOk(w) && IsHub(w, h) && SameRoom(w.hubs[h], next)
    ensures var w' := PutHub(w, h, next); SendersOk(w') && TableOk(w') && MutexOk(w')
  {
  }

  lemma LinksPutHub(w: World, h: HubId, next: Hub)
    requires LinksOk(w) && IsHub(w, h) && SameRoom(w.hubs[h], next)
    ensures LinksOk(PutHub(w, h, next))
  {
  }

  lemma MembersPutHub(w: World, h: HubId, next: Hub)
    requires MembersOk(w) && IsHub(w, h) && SameRoom(w.hubs[h], next)
    ensures MembersOk(PutHub(w, h, next))
  {
  }

  /** Client c joins, leaves or is served by hub h; the others keep their place. */
  ghost predicate OneTurn(c: ClientId, hub: Hub, next: Hub) {
    && next == hub.(clients := next.clients, hadClients := next.hadClients, loop := next.loop)
    && (forall d :: d != c ==> (d in next.clients <==> d in hub.clients))
    && (forall d :: d != c && d in hub.clients ==> next.Offered(d) == hub.Offered(d))
    && (hub.hadClients ==> next.hadClients)
    && (next.loop.Gone? <==> hub.loop.Gone?)
    && (next.loop.Cleaning? <==> hub.loop.Cleaning?)
  }

  function PutBoth(w: World, h: HubId, next: Hub, c: ClientId, y: Client): World
    requires IsHub(w, h) && IsClient(w, c)
  {
    PutHub(PutClient(w, c, y), h, next)
  }

  lemma InvPutBoth(w: World, h: HubId, next: Hub, c: ClientId, y: Client)
    requires Inv(w) && IsHub(w, h) && IsClient(w, c)
    requires HubOk(next) && OneTurn(c, w.hubs[h], next)
    requires ClientOk(y) && y.serve.Joined? && y.hub == w.clients[c].hub == Some(h)
    requires !w.clients[c].serve.Locked? && next.hadClients
    requires LinkOk(c, y, next) && (c in next.clients <==> y.span.Member?)
    ensures Inv(PutBoth(w, h, next, c, y))
  {
    LinksPutBoth(w, h, next, c, y);
    MembersPutBoth(w, h, next, c, y);
    SharedPutBoth(w, h, next, c, y);
  }

  lemma LinksPutBoth(w: World, h: HubId, next: Hub, c: ClientId, y: Client)
    requires LinksOk(w) && IsHub(w, h) && IsClient(w, c)
    requires OneTurn(c, w.hubs[h], next) && y.hub == Some(h) && LinkOk(c, y, next)
    ensures LinksOk(PutBoth(w, h, next, c, y))
  {
  }

  lemma MembersPutBoth(w: World, h: HubId, next: Hub, c: ClientId, y: Client)
    requires MembersOk(w) && IsHub(w, h) && IsClient(w, c)
    requires OneTurn(c, w.hubs[h], next) && y.hub == w.clients[c].hub == Some(h)
    requires next.hadClients && (c in next.clients <==> y.span.Member?)
    ensures MembersOk(PutBoth(w, h, next, c, y))
  {
  }

  lemma SharedPutBoth(w: World, h: HubId, next: Hub, c: ClientId, y: Client)
    requires SendersOk(w) && TableOk(w) && MutexOk(w) && IsHub(w, h) && IsClient(w, c)
    requires OneTurn(c, w.hubs[h], next) && !w.clients[c].serve.Locked? && !y.serve.Locked?
    ensures var w' := PutBoth(w, h, next, c, y); SendersOk(w') && TableOk(w') && MutexOk(w')
  {
  }

  lemma InvPutSender(w: World, s: SenderId, x: SenderState)
    requires Inv(w) && IsSender(w, s)
    requires !w.senders[s].state.InLock? && !x.InLock?
    requires x.Blocked? ==> w.senders[s].state == x
    ensures Inv(PutSender(w, s, x))
  {
  }

  // ---------- one action ----------

  lemma InvConnect(w: World, e: EntityId)
    requires Inv(w)
    ensures Inv(w.(clients := w.clients + [NewClient(e)]))
  {
  }

  lemma InvClientLock(w: World, c: ClientId)
    requires Inv(w) && Enabled(w, ClientLock(c))
    ensures Inv(Apply(w, ClientLock(c)))
  {
  }

  lemma InvGet(w: World, c: ClientId)
    requires Inv(w) && IsClient(w, c) && w.clients[c].serve.Locked?
    ensures Inv(GetOrCreate(w, c))
  {
    var x := w.clients[c];
    if x.entity in w.table {
      InvGetExisting(w, c, x.(hub := Some(w.table[x.entity]), serve := Registering(x.serve.left)));
    } else {
      InvGetNew(w, c, x.(hub := Some(|w.hubs|), serve := Registering(x.serve.left)));
    }
  }

  lemma InvGetExisting(w: World, c: ClientId, y: Client)
    requires Inv(w) && IsClient(w, c) && w.clients[c].serve.Locked? && w.clients[c].entity in w.table
    requires y == w.clients[c].(hub := Some(w.table[w.clients[c].entity]), serve := Registering(w.clients[c].serve.left))
    ensures Inv(PutClient(w, c, y).(mu := Free))
  {
    MembersGet(w, c, y);
    MutexGet(w, c, y);
  }

  lemma MembersGet(w: World, c: ClientId, y: Client)
    requires MembersOk(w) && IsClient(w, c) && w.clients[c].serve.Locked? && w.clients[c].span.Outside?
    ensures MembersOk(PutClient(w, c, y))
  {
  }

  lemma MutexGet(w: World, c: ClientId, y: Client)
    requires MutexOk(w) && IsClient(w, c) && w.mu == ByClient(c) && !y.serve.Locked?
    ensures MutexOk(PutClient(w, c, y).(mu := Free))
  {
  }

  lemma InvGetNew(w: World, c: ClientId, y: Client)
    requires Inv(w) && IsClient(w, c) && w.clients[c].serve.Locked? && w.clients[c].entity !in w.table
    requires y == w.clients[c].(hub := Some(|w.hubs|), serve := Registering(w.clients[c].serve.left))
    ensures Inv(PutClient(w, c, y).(
                  hubs := w.hubs + [NewHub(y.entity, c)], table := w.table[y.entity := |w.hubs|], mu := Free))
  {
    MembersGet(w, c, y);
    MutexGet(w, c, y);
    LinksNewHub(PutClient(w, c, y), w, c, y, NewHub(y.entity, c));
  }

  lemma LinksNewHub(v: World, w: World, c: ClientId, y: Client, hub: Hub)
    requires LinksOk(w) && IsClient(w, c) && v == PutClient(w, c, y)
    requires y.hub == Some(|w.hubs|) && y.serve.Registering? && y.span.Outside? && hub.entity == y.entity
    ensures LinksOk(v.(hubs := w.hubs + [hub]))
  {
  }

  lemma InvRegister(w: World, c: ClientId)
    requires Inv(w) && Enabled(w, Register(c))
    ensures Inv(Apply(w, Register(c)))
  {
    var x := w.clients[c];
    var h := x.hub.value;
    var hub := w.hubs[h];
    InvPutBoth(w, h, hub.(hadClients := true, clients := hub.clients + {c}),
               c, x.(serve := Joined, span := Member(|hub.log|), reader := Reading, writer := Writing));
  }

  lemma InvRegisterFails(w: World, c: ClientId)
    requires Inv(w) && Enabled(w, RegisterFails(c))
    ensures Inv(Apply(w, RegisterFails(c)))
  {
  }

  lemma InvDrain(w: World, c: ClientId)
    requires Inv(w) && Enabled(w, Drain(c))
    ensures Inv(Apply(w, Drain(c)))
  {
    var x := w.clients[c];
    assert (x.received + [x.buffer[0]]) + x.buffer[1..] == x.received + x.buffer;
    InvPutClient(w, c, x.(received := x.received + [x.buffer[0]], buffer := x.buffer[1..]));
  }

  lemma InvForward(w: World, c: ClientId)
    requires Inv(w) && Enabled(w, ForwardEnqueue(c))
    ensures Inv(Apply(w, ForwardEnqueue(c)))
  {
    assert ClientOk(w.clients[c]) && LinkOk(c, w.clients[c], HubOf(w, c));
    InvEnqueue(w, w.clients[c].hub.value, w.clients[c].reader.msg);
    InvPutClient(Enqueue(w, w.clients[c].hub.value, w.clients[c].reader.msg), c, w.clients[c].(reader := Reading));
  }

  lemma InvEnqueue(w: World, h: HubId, m: Msg)
    requires Inv(w) && IsHub(w, h) && |w.hubs[h].queue| < SEND_BUFFER_SIZE && m.entity == w.hubs[h].entity
    ensures Inv(Enqueue(w, h, m))
  {
    assert HubOk(w.hubs[h]);
    InvPutHub(w, h, w.hubs[h].(queue := w.hubs[h].queue + [m]));
  }

  lemma InvUnregister(w: World, c: ClientId)
    requires Inv(w) && Enabled(w, Unregister(c))
    ensures Inv(Apply(w, Unregister(c)))
  {
    var h := w.clients[c].hub.value;
    InvUnregisterFrom(w, h, c);
    var v := UnregisterFrom(w, h, c);
    InvPutClient(v, c, v.clients[c].(reader := ReaderDone));
  }

  lemma InvUnregisterFrom(w: World, h: HubId, c: ClientId)
    requires Inv(w) && Enabled(w, Unregister(c)) && w.clients[c].At(h)
    ensures Inv(UnregisterFrom(w, h, c))
  {
    var x := w.clients[c];
    var hub := w.hubs[h];
    if c in hub.clients {
      assert IsMember(w.clients, h, c);
      InvPutBoth(w, h, hub.(loop := Checking, clients := hub.clients - {c}),
                 c, x.(closed := true, span := Left(x.span.from, |hub.log|, false)));
    } else {
      InvPutHub(w, h, hub.(loop := Checking));
    }
  }

  lemma InvDequeue(w: World, h: HubId)
    requires Inv(w) && Enabled(w, Dequeue(h))
    ensures Inv(Apply(w, Dequeue(h)))
  {
    var next := Dequeued(w.hubs[h]);
    HubDequeue(w.hubs[h]);
    LinksDequeue(w, h);
    MembersDequeue(w, h);
    SharedPutHub(w, h, next);
  }

  lemma HubDequeue(hub: Hub)
    requires HubOk(hub) && hub.loop.Idle? && hub.queue != []
    ensures HubOk(Dequeued(hub))
  {
  }

  lemma SharedPutHub(w: World, h: HubId, next: Hub)
    requires SendersOk(w) && TableOk(w) && MutexOk(w) && IsHub(w, h)
    requires next.entity == w.hubs[h].entity
    requires !w.hubs[h].loop.Gone? && !next.loop.Gone? && !w.hubs[h].loop.Cleaning? && !next.loop.Cleaning?
    ensures var w' := PutHub(w, h, next); SendersOk(w') && TableOk(w') && MutexOk(w')
  {
  }

  lemma LinksDequeue(w: World, h: HubId)
    requires LinksOk(w) && IsHub(w, h) && w.hubs[h].loop.Idle? && w.hubs[h].queue != []
    ensures LinksOk(PutHub(w, h, Dequeued(w.hubs[h])))
  {
    var hub := w.hubs[h];
    var next := Dequeued(hub);
    assert forall a, b :: 0 <= a <= b <= |hub.log| ==> next.log[a..b] == hub.log[a..b];
  }

  lemma MembersDequeue(w: World, h: HubId)
    requires MembersOk(w) && IsHub(w, h) && w.hubs[h].loop.Idle? && w.hubs[h].queue != []
    ensures MembersOk(PutHub(w, h, Dequeued(w.hubs[h])))
  {
  }

  lemma InvDeliver(w: World, h: HubId, c: ClientId)
    requires Inv(w) && Enabled(w, Deliver(h, c))
    ensures Inv(DeliverTo(w, h, c))
  {
    assert HubOk(w.hubs[h]) && IsMember(w.clients, h, c) && ClientOk(w.clients[c]);
    if |w.clients[c].buffer| < SEND_BUFFER_SIZE {
      InvServe(w, h, c);
    } else {
      InvEvict(w, h, c);
    }
  }

  lemma InvServe(w: World, h: HubId, c: ClientId)
    requires Inv(w) && Enabled(w, Deliver(h, c)) && |w.clients[c].buffer| < SEND_BUFFER_SIZE
    requires HubOk(w.hubs[h]) && IsMember(w.clients, h, c) && ClientOk(w.clients[c])
    ensures Inv(DeliverTo(w, h, c))
  {
    var x, hub := w.clients[c], w.hubs[h];
    var y := x.(buffer := x.buffer + [hub.loop.msg]);
    TurnKeepsOffers(hub, c);
    assert LinkOk(c, x, hub);
    SentGrows(x, y, hub);
    InvPutBoth(w, h, hub.(loop := AfterTurn(hub, c)), c, y);
  }

  /** A served member has been sent the whole log. */
  lemma SentGrows(x: Client, y: Client, hub: Hub)
    requires HubOk(hub) && hub.loop.Sweeping? && y == x.(buffer := x.buffer + [hub.loop.msg])
    requires x.span.Member? && Segment(x, hub, x.span.from, |hub.log| - 1)
    ensures Segment(y, hub, x.span.from, |hub.log|)
  {
    assert y.Sent() == x.Sent() + [hub.loop.msg];
  }

  lemma InvEvict(w: World, h: HubId, c: ClientId)
    requires Inv(w) && Enabled(w, Deliver(h, c)) && |w.clients[c].buffer| >= SEND_BUFFER_SIZE
    requires HubOk(w.hubs[h]) && IsMember(w.clients, h, c) && ClientOk(w.clients[c])
    ensures Inv(DeliverTo(w, h, c))
  {
    var x, hub := w.clients[c], w.hubs[h];
    assert !x.closed && |hub.log| > 0;
    var y := x.(closed := true, span := Left(x.span.from, |hub.log| - 1, true));
    TurnKeepsOffers(hub, c);
    assert LinkOk(c, x, hub);
    EvictedHas(x, y, hub);
    EvictIsPut(w, h, c);
    InvPutBoth(w, h, hub.(loop := AfterTurn(hub, c), clients := hub.clients - {c}), c, y);
  }

  lemma EvictIsPut(w: World, h: HubId, c: ClientId)
    requires !w.panicked && Enabled(w, Deliver(h, c)) && |w.clients[c].buffer| >= SEND_BUFFER_SIZE
    requires w.clients[c].span.Member? && !w.clients[c].closed && |w.hubs[h].log| > 0
    ensures var x, hub := w.clients[c], w.hubs[h];
            DeliverTo(w, h, c) == PutBoth(w, h, hub.(loop := AfterTurn(hub, c), clients := hub.clients - {c}),
                                          c, x.(closed := true, span := Left(x.span.from, |hub.log| - 1, true)))
  {
  }

  /** An evicted member has been sent all but the last message, at least a full buffer. */
  lemma EvictedHas(x: Client, y: Client, hub: Hub)
    requires x.span.Member? && |hub.log| > 0 && Segment(x, hub, x.span.from, |hub.log| - 1)
    requires |x.buffer| >= SEND_BUFFER_SIZE && y == x.(closed := true, span := Left(x.span.from, |hub.log| - 1, true))
    ensures Segment(y, hub, y.span.from, y.span.to) && y.span.to - y.span.from >= SEND_BUFFER_SIZE
  {
    assert |x.Sent()| >= |x.buffer|;
  }

  lemma TurnKeepsOffers(hub: Hub, c: ClientId)
    requires HubOk(hub) && hub.loop.Sweeping? && c in hub.loop.todo
    ensures var next := hub.(loop := AfterTurn(hub, c));
            && OneTurn(c, hub, next) && HubOk(next)
            && OneTurn(c, hub, next.(clients := hub.clients - {c}))
            && HubOk(next.(clients := hub.clients - {c}))
            && next.Offered(c) == |hub.log| == hub.Offered(c) + 1
  {
    assert forall d :: d != c ==> (d in hub.loop.todo <==> d in hub.loop.todo - {c});
  }

  lemma InvCheck(w: World, h: HubId)
    requires Inv(w) && Enabled(w, Check(h))
    ensures Inv(Apply(w, Check(h)))
  {
    var hub := w.hubs[h];
    InvPutHub(w, h, hub.(loop := if hub.hadClients && hub.clients == {} then Stopping else Idle));
  }

  lemma InvHubLock(w: World, h: HubId)
    requires Inv(w) && IsHub(w, h) && w.hubs[h].loop.Stopping? && w.mu == Free
    ensures Inv(LockedByHub(w, h))
  {
    LinksHubLock(w, h);
    MembersHubLock(w, h);
    SharedHubLock(w, h);
    assert HubOk(w.hubs[h]);
  }

  lemma LinksHubLock(w: World, h: HubId)
    requires LinksOk(w) && IsHub(w, h) && w.hubs[h].loop.Stopping?
    ensures LinksOk(LockedByHub(w, h))
  {
  }

  lemma MembersHubLock(w: World, h: HubId)
    requires MembersOk(w) && IsHub(w, h)
    ensures MembersOk(LockedByHub(w, h))
  {
  }

  lemma SharedHubLock(w: World, h: HubId)
    requires SendersOk(w) && TableOk(w) && MutexOk(w) && IsHub(w, h) && w.hubs[h].loop.Stopping? && w.mu == Free
    ensures var w' := LockedByHub(w, h); SendersOk(w') && TableOk(w') && MutexOk(w')
  {
  }

  lemma InvCleanup(w: World, h: HubId)
    requires Inv(w) && IsHub(w, h) && w.hubs[h].loop.Cleaning?
    ensures Inv(CleanedUp(w, h))
  {
    LinksCleanup(w, h);
    MembersCleanup(w, h);
    TableCleanup(w, h);
    MutexCleanup(w, h);
    assert HubOk(w.hubs[h]);
  }

  lemma LinksCleanup(w: World, h: HubId)
    requires LinksOk(w) && IsHub(w, h) && w.hubs[h].loop.Cleaning?
    ensures LinksOk(CleanedUp(w, h))
  {
  }

  lemma MembersCleanup(w: World, h: HubId)
    requires MembersOk(w) && IsHub(w, h)
    ensures MembersOk(CleanedUp(w, h))
  {
  }

  /** The hub leaves the map in the same critical section in which it becomes Gone. */
  lemma TableCleanup(w: World, h: HubId)
    requires TableOk(w) && IsHub(w, h) && w.hubs[h].loop.Cleaning?
    ensures TableOk(CleanedUp(w, h))
  {
  }

  lemma MutexCleanup(w: World, h: HubId)
    requires MutexOk(w) && IsHub(w, h) && w.hubs[h].loop.Cleaning?
    ensures MutexOk(CleanedUp(w, h))
  {
  }

  lemma InvSenderLookup(w: World, s: SenderId)
    requires Inv(w) && Enabled(w, SenderLookup(s))
    ensures Inv(Apply(w, SenderLookup(s)))
  {
  }

  lemma InvSenderEnqueue(w: World, s: SenderId)
    requires Inv(w) && Enabled(w, SenderEnqueue(s))
    ensures Inv(Apply(w, SenderEnqueue(s)))
  {
    InvEnqueue(w, w.senders[s].state.hub, w.senders[s].msg);
    InvPutSender(Enqueue(w, w.senders[s].state.hub, w.senders[s].msg), s, Finished(true));
  }

  lemma InvSenderLock(w: World, s: SenderId)
    requires Inv(w) && Enabled(w, SenderLock(s))
    ensures Inv(Apply(w, SenderLock(s)))
  {
  }

  lemma InvSubmit(w: World, e: EntityId, p: Payload)
    requires Inv(w)
    ensures Inv(w.(senders := w.senders + [Sender(Msg(e, p), Started)]))
  {
  }

  // ---------- every run ----------

  predicate IsServeAction(a: Action) {
    a.Connect? || a.ClientLock? || a.ClientGet? || a.Register? || a.RegisterFails?
  }

  predicate IsSenderAction(a: Action) {
    a.Submit? || a.SenderLock? || a.SenderLookup? || a.SenderEnqueue? || a.SenderAbort?
  }

  predicate IsLoopAction(a: Action) {
    a.Dequeue? || a.Deliver? || a.Check? || a.HubLock? || a.Cleanup?
  }

  /** A pump acts on nothing but its own client. */
  predicate IsPumpAction(a: Action) {
    a.ReadMessage? || a.ForwardAbort? || a.ReadFails? || a.UnregisterSkip? || a.Drain? || a.DrainClosed? || a.WriteFails?
  }

  lemma InvServeAction(w: World, a: Action)
    requires Inv(w) && Enabled(w, a) && IsServeAction(a)
    ensures Inv(Apply(w, a))
  {
    match a
    case Connect(e) => InvConnect(w, e);
    case ClientLock(c) => InvClientLock(w, c);
    case ClientGet(c) => InvGet(w, c);
    case Register(c) => InvRegister(w, c);
    case RegisterFails(c) => InvRegisterFails(w, c);
  }

  lemma InvPumpAction(w: World, a: Action)
    requires Inv(w) && Enabled(w, a) && IsPumpAction(a)
    ensures Inv(Apply(w, a))
  {
    match a
    case ReadMessage(c, p) => InvPutClient(w, c, w.clients[c].(reader := Forwarding(Msg(w.clients[c].entity, p))));
    case ForwardAbort(c) => InvPutClient(w, c, w.clients[c].(reader := Reading));
    case ReadFails(c) => InvPutClient(w, c, w.clients[c].(reader := Leaving));
    case UnregisterSkip(c) => InvPutClient(w, c, w.clients[c].(reader := ReaderDone));
    case Drain(c) => InvDrain(w, c);
    case DrainClosed(c) => InvPutClient(w, c, w.clients[c].(writer := WriterDone));
    case WriteFails(c) => InvPutClient(w, c, w.clients[c].(writer := WriterDone));
  }

  lemma InvSenderAction(w: World, a: Action)
    requires Inv(w) && Enabled(w, a) && IsSenderAction(a)
    ensures Inv(Apply(w, a))
  {
    match a
    case Submit(e, p) => InvSubmit(w, e, p);
    case SenderLock(s) => InvSenderLock(w, s);
    case SenderLookup(s) => InvSenderLookup(w, s);
    case SenderEnqueue(s) => InvSenderEnqueue(w, s);
    case SenderAbort(s) => InvPutSender(w, s, Finished(false));
  }

  lemma InvLoopAction(w: World, a: Action)
    requires Inv(w) && Enabled(w, a) && IsLoopAction(a)
    ensures Inv(Apply(w, a))
  {
    match a
    case Dequeue(h) => InvDequeue(w, h);
    case Deliver(h, c) => InvDeliver(w, h, c);
    case Check(h) => InvCheck(w, h);
    case HubLock(h) => InvHubLock(w, h);
    case Cleanup(h) => InvCleanup(w, h);
  }

  lemma InvApply(w: World, a: Action)
    requires Inv(w) && Enabled(w, a)
    ensures Inv(Apply(w, a))
  {
    if IsServeAction(a) {
      InvServeAction(w, a);
    } else if IsPumpAction(a) {
      InvPumpAction(w, a);
    } else if IsSenderAction(a) {
      InvSenderAction(w, a);
    } else if IsLoopAction(a) {
      InvLoopAction(w, a);
    } else if a.ForwardEnqueue? {
      InvForward(w, a.c);
    } else {
      InvUnregister(w, a.c);
    }
  }

  lemma {:induction false} InvSteps(w: World, acts: seq<Action>, w': World)
    requires Inv(w) && Steps(w, acts, w')
    ensures Inv(w')
    decreases |acts|
  {
    if acts != [] {
      InvApply(w, acts[0]);
      InvSteps(Apply(w, acts[0]), acts[1..], w');
    }
  }

  lemma InvReachable(w: World)
    requires Reachable(w)
    ensures Inv(w)
  {
    var acts :| Steps(INIT, acts, w);
    InvSteps(INIT, acts, w);
  }
}

/** How an attempt of ServeWS to register can still end: it can always fail, and it can
    succeed until the loop of its hub is certain to stop. */
module HubAttempts {
  import opened Wire
  import opened HubModel
  import opened HubInvariant
  import opened HubProperties
  import opened HubProgress
  import opened HubRooms
  import opened HubRounds

  /** The call of client c is about to register with hub h. */
  predicate Trying(w: World, c: ClientId, h: HubId) {
    IsClient(w, c) && IsHub(w, h) && w.clients[c].serve.Registering? && w.clients[c].At(h)
  }

  predicate Ends(a: Action, c: ClientId) {
    a == Register(c) || a == RegisterFails(c)
  }

  ghost predicate Spares(acts: seq<Action>, c: ClientId) {
    forall i :: 0 <= i < |acts| ==> !Ends(acts[i], c)
  }

  /** Some run in which the attempt does not end leads to w'. */
  ghost predicate Meanwhile(w: World, c: ClientId, w': World) {
    exists acts :: Steps(w, acts, w') && Spares(acts, c)
  }

  ghost predicate CanJoin(w: World, c: ClientId) {
    exists w' :: Meanwhile(w, c, w') && Enabled(w', Register(c))
  }

  ghost predicate CanFail(w: World, c: ClientId) {
    exists w' :: Meanwhile(w, c, w') && Enabled(w', RegisterFails(c))
  }

  /** The sweep is certain to evict m: its buffer is full, and nobody drains it any more. */
  predicate Lost(w: World, h: HubId, m: ClientId)
    requires IsHub(w, h) && w.hubs[h].loop.Sweeping?
  {
    m in w.hubs[h].loop.todo && IsClient(w, m)
    && |w.clients[m].buffer| >= SEND_BUFFER_SIZE && !w.clients[m].writer.Writing?
  }

  /** The hub has stopped, or its loop is certain to stop next. */
  predicate Doomed(w: World, h: HubId)
    requires IsHub(w, h)
  {
    || w.hubs[h].Stopped()
    || (w.hubs[h].loop.Checking? && w.hubs[h].hadClients && w.hubs[h].clients == {})
    || (w.hubs[h].loop.Sweeping? && forall m :: m in w.hubs[h].clients ==> Lost(w, h, m))
  }

  // ---------- a doomed hub stays doomed ----------

  /** Whatever anybody does, the loop of a doomed hub can only go on to stop. */
  lemma DoomedStays(w: World, a: Action, h: HubId)
    requires Inv(w) && Enabled(w, a) && IsHub(w, h) && Doomed(w, h)
    ensures IsHub(Apply(w, a), h) && Doomed(Apply(w, a), h)
  {
    GrowsApply(w, a);
    if w.hubs[h].Stopped() {
      assert HubGrows(w.hubs[h], Apply(w, a).hubs[h]);
    } else if w.hubs[h].loop.Checking? {
      CheckingStays(w, a, h);
    } else {
      SweepStays(w, a, h);
    }
  }

  lemma CheckingStays(w: World, a: Action, h: HubId)
    requires Enabled(w, a) && IsHub(w, h)
    requires w.hubs[h].loop.Checking? && w.hubs[h].hadClients && w.hubs[h].clients == {}
    ensures IsHub(Apply(w, a), h) && Doomed(Apply(w, a), h)
  {
  }

  lemma SweepStays(w: World, a: Action, h: HubId)
    requires Inv(w) && Enabled(w, a) && IsHub(w, h) && w.hubs[h].loop.Sweeping? && Doomed(w, h)
    ensures IsHub(Apply(w, a), h) && Doomed(Apply(w, a), h)
  {
    assert HubOk(w.hubs[h]);
    if a.Deliver? {
      assert HubOk(w.hubs[a.h]) && IsMember(w.clients, a.h, a.c) && ClientOk(w.clients[a.c]);
      if a.h == h {
        EvictionDooms(w, h, a.c);
      } else {
        OtherDelivery(w, h, a.h, a.c);
      }
    } else {
      LostStay(w, a, h);
    }
  }

  lemma EvictionDooms(w: World, h: HubId, c: ClientId)
    requires Enabled(w, Deliver(h, c)) && Doomed(w, h) && !w.clients[c].closed && HubOk(w.hubs[h]) && c in w.hubs[h].clients
    ensures IsHub(DeliverTo(w, h, c), h) && Doomed(DeliverTo(w, h, c), h)
  {
    assert Lost(w, h, c);
    var v := DeliverTo(w, h, c);
    assert w.hubs[h].hadClients;
    forall m | m in v.hubs[h].clients && v.hubs[h].loop.Sweeping? ensures Lost(v, h, m) {
      assert Lost(w, h, m);
    }
    if v.hubs[h].loop.Checking? {
      assert forall m :: m in v.hubs[h].clients ==> Lost(w, h, m);
    }
  }

  lemma OtherDelivery(w: World, h: HubId, g: HubId, c: ClientId)
    requires Enabled(w, Deliver(g, c)) && g != h && IsHub(w, h) && w.hubs[h].loop.Sweeping? && Doomed(w, h)
    requires !w.clients[c].closed && IsMember(w.clients, g, c)
    requires forall m :: m in w.hubs[h].clients ==> IsMember(w.clients, h, m)
    ensures IsHub(DeliverTo(w, g, c), h) && Doomed(DeliverTo(w, g, c), h)
  {
    var v := DeliverTo(w, g, c);
    forall m | m in v.hubs[h].clients ensures Lost(v, h, m) {
      assert Lost(w, h, m) && IsMember(w.clients, h, m);
    }
  }

  lemma LostStay(w: World, a: Action, h: HubId)
    requires Enabled(w, a) && !a.Deliver? && IsHub(w, h) && w.hubs[h].loop.Sweeping? && Doomed(w, h)
    requires ClientsOk(w) && MembersOk(w)
    ensures IsHub(Apply(w, a), h) && Doomed(Apply(w, a), h)
  {
    var v := Apply(w, a);
    HubInSweep(w, a, h);
    forall m | m in v.hubs[h].clients ensures Lost(v, h, m) {
      assert Lost(w, h, m) && IsMember(w.clients, h, m) && ClientOk(w.clients[m]);
      ClientInSweep(w, a, m);
    }
  }

  lemma HubInSweep(w: World, a: Action, h: HubId)
    requires Enabled(w, a) && !a.Deliver? && IsHub(w, h) && w.hubs[h].loop.Sweeping?
    ensures IsHub(Apply(w, a), h)
    ensures var hub, next := w.hubs[h], Apply(w, a).hubs[h]; next == hub.(queue := next.queue)
  {
  }

  lemma ClientInSweep(w: World, a: Action, m: ClientId)
    requires Enabled(w, a) && !a.Deliver? && IsClient(w, m)
    requires |w.clients[m].buffer| >= SEND_BUFFER_SIZE && !w.clients[m].writer.Writing?
    ensures IsClient(Apply(w, a), m) && Apply(w, a).clients[m].buffer == w.clients[m].buffer
    ensures !Apply(w, a).clients[m].writer.Writing? || a == Register(m)
  {
  }

  lemma StaysTrying(w: World, a: Action, c: ClientId, h: HubId)
    requires Enabled(w, a) && Trying(w, c, h) && !Ends(a, c)
    ensures Trying(Apply(w, a), c, h)
  {
    HubFieldStays(w, a, c);
    if !(IsServeAction(a) && !a.Connect? && a.c == c) {
      ServeStays(w, a, c);
    }
  }

  lemma HubFieldStays(w: World, a: Action, c: ClientId)
    requires Enabled(w, a) && IsClient(w, c) && !w.clients[c].serve.Locked?
    ensures IsClient(Apply(w, a), c) && Apply(w, a).clients[c].hub == w.clients[c].hub
    ensures |Apply(w, a).hubs| >= |w.hubs|
  {
  }

  lemma {:induction false} NeverJoins(w: World, acts: seq<Action>, w': World, c: ClientId, h: HubId)
    requires Inv(w) && Trying(w, c, h) && Doomed(w, h) && Steps(w, acts, w') && Spares(acts, c)
    ensures !Enabled(w', Register(c))
    decreases |acts|
  {
    if acts != [] {
      InvApply(w, acts[0]);
      DoomedStays(w, acts[0], h);
      StaysTrying(w, acts[0], c, h);
      assert forall i :: 0 <= i < |acts[1..]| ==> acts[1..][i] == acts[i + 1];
      NeverJoins(Apply(w, acts[0]), acts[1..], w', c, h);
    }
  }

  // ---------- runs that spare the attempt ----------

  /** From w0 on the attempt of c has not ended, and nothing of c has changed. */
  ghost predicate Still(w0: World, c: ClientId, w: World) {
    && Reachable(w) && Meanwhile(w0, c, w)
    && IsClient(w0, c) && IsClient(w, c) && w.clients[c] == w0.clients[c]
  }

  lemma {:induction false} StepsConcat(w: World, a: seq<Action>, v: World, b: seq<Action>, u: World)
    requires Steps(w, a, v) && Steps(v, b, u)
    ensures Steps(w, a + b, u)
    decreases |a|
  {
    if a == [] {
      assert a + b == b;
    } else {
      assert (a + b)[1..] == a[1..] + b;
      StepsConcat(Apply(w, a[0]), a[1..], v, b, u);
    }
  }

  lemma MeanwhileThen(w0: World, c: ClientId, w: World, acts: seq<Action>, w': World)
    requires Meanwhile(w0, c, w) && Steps(w, acts, w') && Spares(acts, c)
    ensures Meanwhile(w0, c, w')
  {
    var before :| Steps(w0, before, w) && Spares(before, c);
    StepsConcat(w0, before, w, acts, w');
    assert Spares(before + acts, c);
  }

  lemma {:induction false} ReachableSteps(w: World, acts: seq<Action>, w': World)
    requires Reachable(w) && Steps(w, acts, w')
    ensures Reachable(w')
  {
    var before :| Steps(INIT, before, w);
    StepsConcat(INIT, before, w, acts, w');
  }

  lemma StillRun(w0: World, c: ClientId, w: World, acts: seq<Action>, w': World)
    requires Still(w0, c, w) && Steps(w, acts, w') && Spares(acts, c)
    requires IsClient(w', c) && w'.clients[c] == w.clients[c]
    ensures Still(w0, c, w')
  {
    MeanwhileThen(w0, c, w, acts, w');
    ReachableSteps(w, acts, w');
  }

  lemma StillDo(w0: World, c: ClientId, w: World, a: Action) returns (w': World)
    requires Still(w0, c, w) && Enabled(w, a) && !Ends(a, c)
    requires IsClient(Apply(w, a), c) && Apply(w, a).clients[c] == w.clients[c]
    ensures w' == Apply(w, a) && Still(w0, c, w')
  {
    w' := Apply(w, a);
    assert [a][1..] == [];
    assert Steps(w, [a], w');
    StillRun(w0, c, w, [a], w');
  }

  lemma StillHere(w: World, c: ClientId)
    requires Reachable(w) && IsClient(w, c)
    ensures Still(w, c, w)
  {
    assert Steps(w, [], w) && Spares([], c);
  }

  /** Client c, which has not joined, is not in the set of any hub. */
  lemma NoMember(w: World, c: ClientId, h: HubId)
    requires Reachable(w) && Trying(w, c, h)
    ensures forall g :: 0 <= g < |w.hubs| ==> c !in w.hubs[g].clients
  {
    InvReachable(w);
    assert ClientOk(w.clients[c]);
    forall g | 0 <= g < |w.hubs| ensures c !in w.hubs[g].clients {
      assert c in w.hubs[g].clients ==> IsMember(w.clients, g, c);
    }
  }

  /** The sweep in progress is completed. */
  lemma SweepEnds(w0: World, c: ClientId, h: HubId, w: World) returns (w': World)
    requires Still(w0, c, w) && Trying(w, c, h) && w.hubs[h].loop.Sweeping?
    ensures Still(w0, c, w') && Trying(w', c, h) && w'.hubs[h].loop.Checking? && w'.hubs[h].hadClients == w.hubs[h].hadClients
    ensures forall m :: 0 <= m < |w.clients| ==>
                          (m in w'.hubs[h].clients <==>
                           m in w.hubs[h].clients && (m in w.hubs[h].loop.todo ==> |w.clients[m].buffer| < SEND_BUFFER_SIZE))
  {
    NoMember(w, c, h);
    InvReachable(w);
    assert HubOk(w.hubs[h]);
    var acts;
    acts, w' := CompleteSweep(w, h);
    SweepOutcome(w, h, acts, w');
    StillRun(w0, c, w, acts, w');
  }

  // ---------- an attempt can succeed unless its hub is doomed ----------

  /** Somebody will stay: the sweep spares m, or m can make room in time. */
  lemma Survivor(w0: World, c: ClientId, h: HubId, w: World) returns (w': World)
    requires Still(w0, c, w) && Trying(w, c, h) && w.hubs[h].loop.Sweeping? && !Doomed(w, h)
    ensures Still(w0, c, w') && Trying(w', c, h) && w'.hubs[h].loop.Checking? && w'.hubs[h].clients != {}
  {
    InvReachable(w);
    assert HubOk(w.hubs[h]);
    var m :| m in w.hubs[h].clients && !Lost(w, h, m);
    assert IsMember(w.clients, h, m);
    if m in w.hubs[h].loop.todo && |w.clients[m].buffer| >= SEND_BUFFER_SIZE {
      NoMember(w, c, h);
      assert ClientOk(w.clients[m]);
      var v := StillDo(w0, c, w, Drain(m));
      assert v.hubs == w.hubs && |v.clients[m].buffer| < SEND_BUFFER_SIZE && |v.clients| == |w.clients|;
      w' := SweepEnds(w0, c, h, v);
    } else {
      w' := SweepEnds(w0, c, h, w);
    }
    assert m in w'.hubs[h].clients;
  }

  /** The test for an empty room lets the loop go on. */
  lemma PassesTest(w0: World, c: ClientId, h: HubId, w: World) returns (w': World)
    requires Still(w0, c, w) && Trying(w, c, h) && w.hubs[h].loop.Checking?
    requires w.hubs[h].hadClients ==> w.hubs[h].clients != {}
    ensures Still(w0, c, w') && Trying(w', c, h) && w'.hubs[h].loop.Idle?
  {
    w' := StillDo(w0, c, w, Check(h));
  }

  lemma JoinRun(w: World, c: ClientId, h: HubId)
    requires Reachable(w) && Trying(w, c, h) && !Doomed(w, h)
    ensures CanJoin(w, c)
  {
    StillHere(w, c);
    var w1 := w;
    if w.hubs[h].loop.Sweeping? {
      w1 := Survivor(w, c, h, w);
    }
    if w1.hubs[h].loop.Checking? {
      w1 := PassesTest(w, c, h, w1);
    }
    assert Enabled(w1, Register(c));
  }

  /** An attempt can still succeed if and only if its hub has not stopped and its loop is
      not certain to stop next: that it does not stand before the test with an empty
      room, nor in a sweep that is certain to evict everybody. */
  lemma CanJoinIff(w: World, c: ClientId, h: HubId)
    requires Reachable(w) && Trying(w, c, h)
    ensures CanJoin(w, c) <==> !Doomed(w, h)
  {
    if Doomed(w, h) {
      InvReachable(w);
      forall acts, w' | Steps(w, acts, w') && Spares(acts, c) ensures !Enabled(w', Register(c)) {
        NeverJoins(w, acts, w', c, h);
      }
    } else {
      JoinRun(w, c, h);
    }
  }

  // ---------- an attempt can always fail ----------

  /** The loop comes to rest: it selects again, or the hub has stopped. */
  lemma ToRest(w0: World, c: ClientId, h: HubId, w: World) returns (w': World)
    requires Still(w0, c, w) && Trying(w, c, h)
    ensures Still(w0, c, w') && Trying(w', c, h) && (w'.hubs[h].loop.Idle? || w'.hubs[h].Stopped())
    ensures w.hubs[h].hadClients ==> w'.hubs[h].hadClients
  {
    w' := w;
    if w'.hubs[h].loop.Sweeping? {
      w' := SweepEnds(w0, c, h, w');
    }
    if w'.hubs[h].loop.Checking? {
      w' := StillDo(w0, c, w', Check(h));
    }
  }

  /** Member m stops reading. */
  lemma StopsReading(w0: World, c: ClientId, h: HubId, w: World, m: ClientId) returns (w': World)
    requires Still(w0, c, w) && Trying(w, c, h) && w.hubs[h].loop.Idle? && IsMember(w.clients, h, m) && m != c
    requires w.clients[m].reader.Forwarding? ==> |w.hubs[h].queue| < SEND_BUFFER_SIZE
    requires !w.clients[m].reader.ReaderDone? && !w.clients[m].reader.ReaderIdle?
    ensures Still(w0, c, w') && Trying(w', c, h) && w'.hubs[h].loop.Idle?
    ensures w'.hubs[h].clients == w.hubs[h].clients && w'.hubs[h].hadClients == w.hubs[h].hadClients
    ensures IsMember(w'.clients, h, m) && w'.clients[m].reader.Leaving?
  {
    w' := w;
    if w'.clients[m].reader.Forwarding? {
      w' := StillDo(w0, c, w', ForwardEnqueue(m));
    }
    if w'.clients[m].reader.Reading? {
      w' := StillDo(w0, c, w', ReadFails(m));
    }
  }

  /** Member m leaves. */
  lemma Leaves(w0: World, c: ClientId, h: HubId, w: World, m: ClientId) returns (w': World)
    requires Still(w0, c, w) && Trying(w, c, h) && w.hubs[h].loop.Idle? && IsMember(w.clients, h, m) && m != c
    requires w.clients[m].reader.Leaving?
    ensures Still(w0, c, w') && Trying(w', c, h) && (w'.hubs[h].loop.Idle? || w'.hubs[h].Stopped())
    ensures w'.hubs[h].clients == w.hubs[h].clients - {m} && w'.hubs[h].hadClients == w.hubs[h].hadClients
  {
    w' := Leave(w, h, m);
    StillRun(w0, c, w, [Unregister(m), Check(h)], w');
  }

  /** One message is taken from the queue and offered to everybody. */
  lemma MakesRoom(w0: World, c: ClientId, h: HubId, w: World) returns (w': World)
    requires Still(w0, c, w) && Trying(w, c, h) && w.hubs[h].loop.Idle? && w.hubs[h].queue != []
    ensures Still(w0, c, w') && Trying(w', c, h) && (w'.hubs[h].loop.Idle? || w'.hubs[h].Stopped())
    ensures w'.hubs[h].clients <= w.hubs[h].clients && w'.hubs[h].hadClients == w.hubs[h].hadClients
    ensures |w'.hubs[h].queue| < |w.hubs[h].queue|
  {
    NoMember(w, c, h);
    var acts;
    acts, w' := Round(w, h);
    RoundSpares(acts, h, c);
    StillRun(w0, c, w, acts, w');
  }

  lemma RoundSpares(acts: seq<Action>, h: HubId, c: ClientId)
    requires IsRound(acts, h)
    ensures Spares(acts, c)
  {
    var n := |acts| - 1;
    assert forall i :: 0 < i < n ==> acts[i] == acts[1..n][i - 1];
  }

  /** Everybody leaves the room, one after the other. */
  lemma {:induction false} RoomEmpties(w0: World, c: ClientId, h: HubId, w: World) returns (w': World)
    requires Still(w0, c, w) && Trying(w, c, h) && w.hubs[h].hadClients && (w.hubs[h].loop.Idle? || w.hubs[h].Stopped())
    ensures Still(w0, c, w') && Trying(w', c, h) && w'.hubs[h].Stopped()
    decreases w.hubs[h].clients, |w.hubs[h].queue|
  {
    w' := w;
    if w.hubs[h].loop.Idle? {
      var m := SomeMember(w, c, h);
      if w.clients[m].reader.Forwarding? && |w.hubs[h].queue| == SEND_BUFFER_SIZE {
        var v := MakesRoom(w0, c, h, w);
        w' := RoomEmpties(w0, c, h, v);
      } else {
        var v := StopsReading(w0, c, h, w, m);
        var u := Leaves(w0, c, h, v, m);
        assert u.hubs[h].clients < w.hubs[h].clients;
        w' := RoomEmpties(w0, c, h, u);
      }
    }
  }

  lemma SomeMember(w: World, c: ClientId, h: HubId) returns (m: ClientId)
    requires Reachable(w) && Trying(w, c, h) && w.hubs[h].loop.Idle? && w.hubs[h].hadClients
    ensures m in w.hubs[h].clients && IsMember(w.clients, h, m) && m != c && |w.hubs[h].queue| <= SEND_BUFFER_SIZE
    ensures !w.clients[m].reader.ReaderDone? && !w.clients[m].reader.ReaderIdle?
  {
    NoMember(w, c, h);
    InvReachable(w);
    assert HubOk(w.hubs[h]);
    m :| m in w.hubs[h].clients;
    assert IsMember(w.clients, h, m) && ClientOk(w.clients[m]);
  }

  /** Whoever holds the mutex gives it back. */
  lemma MutexFreed(w0: World, c: ClientId, h: HubId, w: World) returns (w': World)
    requires Still(w0, c, w) && Trying(w, c, h) && !w.hubs[h].Stopped()
    ensures Still(w0, c, w') && Trying(w', c, h) && w'.mu == Free && w'.hubs[h] == w.hubs[h]
  {
    w' := w;
    if w.mu != Free {
      MutexHolderNeverWaits(w);
      HolderSpares(w, c, h);
      w' := StillDo(w0, c, w, HolderAction(w));
    }
  }

  lemma HolderSpares(w: World, c: ClientId, h: HubId)
    requires w.mu != Free && Enabled(w, HolderAction(w)) && Trying(w, c, h) && !w.hubs[h].Stopped()
    ensures var v := Apply(w, HolderAction(w)); Trying(v, c, h) && v.clients[c] == w.clients[c] && v.hubs[h] == w.hubs[h]
  {
  }

  /** A new client opens the room, if nobody has been there yet. */
  lemma FirstMember(w0: World, c: ClientId, h: HubId, w: World) returns (w': World)
    requires Still(w0, c, w) && Trying(w, c, h) && w.hubs[h].loop.Idle? && w.mu == Free
    ensures Still(w0, c, w') && Trying(w', c, h) && w'.hubs[h].loop.Idle? && w'.hubs[h].hadClients
  {
    InvReachable(w);
    assert LinkOk(c, w.clients[c], w.hubs[h]);
    var d, e := |w.clients|, w.hubs[h].entity;
    var w1 := StillDo(w0, c, w, Connect(e));
    assert w1.clients == w.clients + [NewClient(e)];
    var w2 := StillDo(w0, c, w1, ClientLock(d));
    assert w2.clients[d].serve.Locked? && w2.clients[d].entity == e && w2.hubs == w.hubs && w2.table == w.table;
    w' := LooksUpAndJoins(w0, c, h, w2, d);
  }

  lemma LooksUpAndJoins(w0: World, c: ClientId, h: HubId, w: World, d: ClientId) returns (w': World)
    requires Still(w0, c, w) && Trying(w, c, h) && w.hubs[h].loop.Idle?
    requires Enabled(w, ClientGet(d)) && d != c && w.clients[d].entity == w.hubs[h].entity
    requires w.clients[d].entity in w.table && w.table[w.clients[d].entity] == h
    ensures Still(w0, c, w') && Trying(w', c, h) && w'.hubs[h].loop.Idle? && w'.hubs[h].hadClients
  {
    var w1 := StillDo(w0, c, w, ClientGet(d));
    assert Trying(w1, d, h) && w1.hubs == w.hubs;
    w' := StillDo(w0, c, w1, Register(d));
  }

  /** Whatever the state, an attempt can still fail: everybody else may leave first. */
  lemma CanAlwaysFail(w: World, c: ClientId, h: HubId)
    requires Reachable(w) && Trying(w, c, h)
    ensures CanFail(w, c)
  {
    StillHere(w, c);
    var w1 := ToRest(w, c, h, w);
    InvReachable(w1);
    assert HubOk(w1.hubs[h]);
    if !w1.hubs[h].hadClients {
      w1 := MutexFreed(w, c, h, w1);
      w1 := FirstMember(w, c, h, w1);
    }
    var w' := RoomEmpties(w, c, h, w1);
    assert Enabled(w', RegisterFails(c));
  }

  // ---------- a second attempt on a new hub ----------

  /** No hub of the room is stopping when client 1 looks it up for the second time: the map
      is empty, and it is given a hub of its own. That attempt may fail as well. */
  lemma SecondAttemptOnNewHubMayFail() returns (w: World, w': World)
    ensures Reachable(w) && Enabled(w, ClientGet(1)) && w.clients[1].serve == Locked(1) && w.table == map[]
    ensures !exists g :: StoppingRoom(w, g, w.clients[1].entity)
    ensures Meanwhile(Apply(w, ClientGet(1)), 1, w') && Enabled(w', RegisterFails(1))
    ensures IsClient(Apply(w', RegisterFails(1)), 1) && Apply(w', RegisterFails(1)).clients[1].serve.Failed?
  {
    var w0 := FirstHubCollected();
    w := HubRooms.Do(w0, ClientLock(1));
    assert w.hubs == w0.hubs && w.table == map[] && w.clients[1] == w0.clients[1].(serve := Locked(1));
    var v := HubRooms.Do(w, ClientGet(1));
    assert Trying(v, 1, 1) && v.clients[1].serve == Registering(1);
    CanAlwaysFail(v, 1, 1);
    w' :| Meanwhile(v, 1, w') && Enabled(w', RegisterFails(1));
    AttemptIsLast(v, w', 1, 1);
  }

  /** While an attempt has not ended, its number stays. */
  lemma AttemptIsLast(w: World, w': World, c: ClientId, h: HubId)
    requires Trying(w, c, h) && Meanwhile(w, c, w')
    ensures IsClient(w', c) && w'.clients[c].serve == w.clients[c].serve
  {
    var acts :| Steps(w, acts, w') && Spares(acts, c);
    ServeStaysInRun(w, acts, w', c, h);
  }

  lemma {:induction false} ServeStaysInRun(w: World, acts: seq<Action>, w': World, c: ClientId, h: HubId)
    requires Trying(w, c, h) && Steps(w, acts, w') && Spares(acts, c)
    ensures IsClient(w', c) && w'.clients[c].serve == w.clients[c].serve
    decreases |acts|
  {
    if acts != [] {
      ServeStays(w, acts[0], c);
      StaysTrying(w, acts[0], c, h);
      assert forall i :: 0 <= i < |acts[1..]| ==> acts[1..][i] == acts[i + 1];
      ServeStaysInRun(Apply(w, acts[0]), acts[1..], w', c, h);
    }
  }
}

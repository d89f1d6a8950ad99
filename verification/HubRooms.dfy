/** The manager's map against the hubs that exist: exactness, idle rooms, what
    HasHub tells its caller, and what ServeWS finds on its second attempt. */
module HubRooms {
  import opened Wire
  import opened HubModel
  import opened HubInvariant
  import opened HubProperties

  // ---------- exactness ----------

  /** The hubs whose onEmpty has not finished. */
  ghost function Live(w: World): set<HubId> {
    set h | 0 <= h < |w.hubs| && !w.hubs[h].loop.Gone?
  }

  /** One live hub per room, the map holds exactly the live hubs, Len counts them,
      and the identity test in onEmpty cannot fail. */
  lemma ManagerExact(w: World)
    requires Reachable(w)
    ensures forall e :: e in w.table <==> exists h :: h in Live(w) && w.hubs[h].entity == e
    ensures forall e :: e in w.table ==> w.table[e] in Live(w) && w.hubs[w.table[e]].entity == e
    ensures forall g, h :: g in Live(w) && h in Live(w) && w.hubs[g].entity == w.hubs[h].entity ==> g == h
    ensures |w.table| == |Live(w)|
    ensures forall h :: 0 <= h < |w.hubs| && w.hubs[h].loop.Cleaning? ==>
                          w.hubs[h].entity in w.table && w.table[w.hubs[h].entity] == h
  {
    InvReachable(w);
    forall e | e in w.table ensures exists h :: h in Live(w) && w.hubs[h].entity == e {
      assert w.table[e] in Live(w);
    }
    assert Live(w) == Image(w.table);
    ImageSize(w.table);
  }

  ghost function Image(m: map<EntityId, HubId>): set<HubId> {
    set e | e in m :: m[e]
  }

  lemma {:induction false} ImageSize(m: map<EntityId, HubId>)
    requires forall d, e :: d in m && e in m && m[d] == m[e] ==> d == e
    ensures |Image(m)| == |m|
  {
    if m == map[] {
      assert Image(m) == {};
    } else {
      var d :| d in m;
      var rest := m - {d};
      ImageSize(rest);
      assert m[d] !in Image(rest);
      forall h | h in Image(m) ensures h in Image(rest) + {m[d]} {
        var e :| e in m && m[e] == h;
        assert e != d ==> e in rest && rest[e] == h;
      }
      assert Image(m) == Image(rest) + {m[d]};
      assert m.Keys == rest.Keys + {d};
    }
  }

  // ---------- idle rooms ----------

  /** A hub that has not stopped has a client, or is being emptied by the very next
      action of its own loop, or some ServeWS call is still about to register. */
  lemma NoIdleRoom(w: World, h: HubId)
    requires Reachable(w) && IsHub(w, h) && !w.hubs[h].Stopped()
    requires forall c :: 0 <= c < |w.clients| && w.clients[c].At(h) ==> !w.clients[c].serve.Registering?
    ensures w.hubs[h].hadClients
    ensures w.hubs[h].clients != {} || (Enabled(w, Check(h)) && Apply(w, Check(h)).hubs[h].Stopped())
  {
    InvReachable(w);
    assert HubOk(w.hubs[h]);
    assert !w.hubs[h].hadClients ==> Awaited(w.clients, h, w.hubs[h]);
  }

  /** Only GetOrCreate makes a hub or adds to the map; Broadcast never does. */
  lemma OnlyServeWSCreates(w: World, a: Action)
    requires Enabled(w, a)
    ensures |Apply(w, a).hubs| > |w.hubs| ==> a.ClientGet?
    ensures forall e :: e in Apply(w, a).table && e !in w.table ==> a.ClientGet? && e == w.clients[a.c].entity
  {
  }

  // ---------- HasHub ----------

  /** HasHub does not mean that somebody is connected. The room in the map is empty
      exactly when nobody has registered yet, or the stopped channel is closed, or
      the next action of the loop closes it. */
  lemma HasHubMeans(w: World, e: EntityId)
    requires Reachable(w) && e in w.table
    ensures w.table[e] < |w.hubs|
    ensures var h := w.table[e];
            w.hubs[h].clients == {} <==>
            !w.hubs[h].hadClients || w.hubs[h].Stopped()
            || (Enabled(w, Check(h)) && Apply(w, Check(h)).hubs[h].Stopped())
  {
    InvReachable(w);
    assert HubOk(w.hubs[w.table[e]]);
  }

  // ---------- the second attempt of ServeWS ----------

  /** A client whose hub has stopped asks the manager again. It is given the same hub if
      and only if that hub's onEmpty has not yet run; and the hub it is given, the same
      or another, has stopped as well if and only if some hub of the room has closed
      stopped and still waits to run its onEmpty. */
  lemma SecondLookup(w: World, c: ClientId, h: HubId)
    requires Reachable(w) && Enabled(w, ClientGet(c))
    requires IsHub(w, h) && w.hubs[h].entity == w.clients[c].entity && w.hubs[h].Stopped()
    ensures HasHub(Apply(w, ClientGet(c)), c)
    ensures var w' := Apply(w, ClientGet(c));
            && (w'.clients[c].hub == Some(h) <==> !w.hubs[h].loop.Gone?)
            && HubOf(w', c).entity == w.clients[c].entity
            && (HubOf(w', c).Stopped() <==> exists g :: StoppingRoom(w, g, w.clients[c].entity))
  {
    InvReachable(w);
    StoppedInMap(w, c);
  }

  /** While a client holds the mutex, the hub in the map has stopped iff it is stopping. */
  lemma StoppedInMap(w: World, c: ClientId)
    requires Inv(w) && Enabled(w, ClientGet(c))
    ensures var e := w.clients[c].entity;
            (exists g :: StoppingRoom(w, g, e)) <==> e in w.table && w.table[e] < |w.hubs| && w.hubs[w.table[e]].Stopped()
  {
    var e := w.clients[c].entity;
    if e in w.table && w.hubs[w.table[e]].Stopped() {
      assert StoppingRoom(w, w.table[e], e);
    }
  }

  /** Hub g is of room e, has closed stopped, and has not yet got the mutex for onEmpty. */
  predicate StoppingRoom(w: World, g: HubId, e: EntityId) {
    IsHub(w, g) && w.hubs[g].entity == e && w.hubs[g].loop.Stopping?
  }

  /** An attempt fails only on a hub that had clients and lost them all. */
  lemma FailsOnlyOnStopped(w: World, c: ClientId)
    requires Reachable(w) && Enabled(w, RegisterFails(c))
    ensures HubOf(w, c).Stopped() && HubOf(w, c).hadClients && HubOf(w, c).clients == {}
  {
    InvReachable(w);
    assert HubOk(HubOf(w, c));
  }

  // ---------- how often ServeWS tries ----------

  /** The failed attempts of client c in a run. */
  function Failures(acts: seq<Action>, c: ClientId): nat {
    if acts == [] then 0
    else (if acts[0] == RegisterFails(c) then 1 else 0) + Failures(acts[1..], c)
  }

  /** The call of client c has failed n times so far. */
  predicate HasFailed(w: World, c: ClientId, n: nat) {
    if !IsClient(w, c) then n == 0
    else
      match w.clients[c].serve
      case Lookup(left) => left >= 1 && n + left == REGISTER_ATTEMPTS
      case Locked(left) => left >= 1 && n + left == REGISTER_ATTEMPTS
      case Registering(left) => left >= 1 && n + left == REGISTER_ATTEMPTS
      case Joined => n < REGISTER_ATTEMPTS
      case Failed => n == REGISTER_ATTEMPTS
  }

  lemma OneFailure(w: World, a: Action, c: ClientId, n: nat)
    requires Enabled(w, a) && HasFailed(w, c, n)
    ensures HasFailed(Apply(w, a), c, if a == RegisterFails(c) then n + 1 else n)
  {
    if IsServeAction(a) && !a.Connect? && a.c == c {
    } else {
      ServeStays(w, a, c);
    }
  }

  /** An action of somebody else leaves the call where it is, or begins it. */
  lemma ServeStays(w: World, a: Action, c: ClientId)
    requires Enabled(w, a) && (IsServeAction(a) && !a.Connect? ==> a.c != c)
    ensures IsClient(w, c) ==> IsClient(Apply(w, a), c) && Apply(w, a).clients[c].serve == w.clients[c].serve
    ensures !IsClient(w, c) && IsClient(Apply(w, a), c) ==> Apply(w, a).clients[c].serve == Lookup(REGISTER_ATTEMPTS)
  {
  }

  lemma {:induction false} FailuresCount(w: World, acts: seq<Action>, w': World, c: ClientId, n: nat)
    requires Steps(w, acts, w') && HasFailed(w, c, n)
    ensures HasFailed(w', c, n + Failures(acts, c))
    decreases |acts|
  {
    if acts != [] {
      OneFailure(w, acts[0], c, n);
      FailuresCount(Apply(w, acts[0]), acts[1..], w', c, if acts[0] == RegisterFails(c) then n + 1 else n);
    }
  }

  /** In every run a ServeWS call makes at most two attempts, and it gives up exactly
      when two have failed; a client that has joined has failed at most once. */
  lemma GivesUpIff(acts: seq<Action>, w: World, c: ClientId)
    requires Steps(INIT, acts, w) && IsClient(w, c)
    ensures Failures(acts, c) <= REGISTER_ATTEMPTS
    ensures w.clients[c].serve.Failed? <==> Failures(acts, c) == REGISTER_ATTEMPTS
    ensures w.clients[c].serve.Registering? ==> Failures(acts, c) < REGISTER_ATTEMPTS
  {
    FailuresCount(INIT, acts, w, c, 0);
  }

  // ---------- runs ----------

  /** HasHub is true before anyone has connected. */
  lemma HasHubBeforeFirstClient() returns (w: World)
    ensures Reachable(w) && 7 in w.table && w.table[7] < |w.hubs| && w.hubs[w.table[7]].clients == {}
  {
    w := Fresh();
  }

  lemma Start()
    ensures Reachable(INIT)
  {
    assert Steps(INIT, [], INIT);
  }

  lemma Fresh() returns (w: World)
    ensures Reachable(w)
    ensures w == World([NewHub(7, 0)], [NewClient(7).(serve := Registering(2), hub := Some(0))], [],
                       map[7 := 0], Free, false)
  {
    Start();
    var w1 := INIT.(clients := [NewClient(7)]);
    ReachableApply(INIT, Connect(7));
    assert w1 == Apply(INIT, Connect(7));
    var w2 := w1.(clients := [NewClient(7).(serve := Locked(2))], mu := ByClient(0));
    ReachableApply(w1, ClientLock(0));
    assert w2 == Apply(w1, ClientLock(0));
    w := GetOrCreate(w2, 0);
    ReachableApply(w2, ClientGet(0));
    assert w.clients == [NewClient(7).(serve := Registering(2), hub := Some(0))];
  }

  /** Both attempts of one ServeWS call can fail, on one and the same hub. */
  lemma BothAttemptsMayFail() returns (w: World)
    ensures Reachable(w) && |w.hubs| == 1
    ensures IsClient(w, 1) && w.clients[1].serve.Failed? && w.clients[1].hub == Some(0)
  {
    w := LastClientLeaves();
    var x := w.clients[1];
    var room := w.hubs[0];
    // the first attempt fails, and the second lookup finds the same hub
    var w1 := Do(w, RegisterFails(1));
    assert w1.clients[1] == x.(serve := Lookup(1)) && w1.hubs == [room] && w1.table == map[7 := 0] && w1.mu == Free;
    var w2 := Do(w1, ClientLock(1));
    assert w2.clients[1] == x.(serve := Locked(1)) && w2.hubs == [room] && w2.table == map[7 := 0];
    var w3 := Do(w2, ClientGet(1));
    assert w3.clients[1] == x.(serve := Registering(1)) && w3.hubs == [room];
    w := Do(w3, RegisterFails(1));
  }

  /** The two attempts can also fail on two different hubs: the first one is collected,
      another client opens the room again and leaves it, and the second lookup is given
      this second hub, which has stopped too. */
  lemma AttemptsMayFailOnTwoHubs() returns (w: World)
    ensures Reachable(w) && |w.hubs| == 2 && w.hubs[0].loop.Gone? && w.hubs[1].loop.Stopping?
    ensures IsClient(w, 1) && w.clients[1].serve.Failed? && w.clients[1].hub == Some(1)
  {
    var w0 := FirstHubCollected();
    var w1 := RoomReopened(w0);
    var w2 := RoomLeftAgain(w1);
    var x := w2.clients[1];
    var w3 := Do(w2, ClientLock(1));
    assert w3.clients[1] == x.(serve := Locked(1)) && w3.hubs == w2.hubs && w3.table == map[7 := 1];
    var w4 := Do(w3, ClientGet(1));
    assert w4.clients[1] == x.(serve := Registering(1), hub := Some(1)) && w4.hubs == w2.hubs;
    w := Do(w4, RegisterFails(1));
  }

  /** Client 1 has failed once, on hub 0, which is then taken out of the map. */
  lemma FirstHubCollected() returns (w: World)
    ensures Reachable(w) && |w.clients| == 2 && |w.hubs| == 1 && w.hubs[0].loop.Gone? && w.table == map[] && w.mu == Free
    ensures w.clients[1] == NewClient(7).(serve := Lookup(1), hub := Some(0))
  {
    var w0 := LastClientLeaves();
    var x := w0.clients[1];
    var w1 := Do(w0, RegisterFails(1));
    assert w1.clients[1] == x.(serve := Lookup(1)) && w1.hubs == w0.hubs && w1.table == map[7 := 0] && w1.mu == Free;
    var w2 := Do(w1, HubLock(0));
    assert w2.clients == w1.clients && w2.table == map[7 := 0];
    w := Do(w2, Cleanup(0));
  }

  /** Client 2 connects to the room and is given a new hub. */
  lemma RoomReopened(w0: World) returns (w: World)
    requires Reachable(w0) && |w0.clients| == 2 && |w0.hubs| == 1 && w0.hubs[0].loop.Gone? && w0.table == map[] && w0.mu == Free
    ensures Reachable(w) && |w.clients| == 3 && w.clients[1] == w0.clients[1]
    ensures w.hubs == [w0.hubs[0], NewHub(7, 2)] && w.table == map[7 := 1] && w.mu == Free
    ensures w.clients[2] == NewClient(7).(serve := Registering(2), hub := Some(1))
  {
    var w1 := Do(w0, Connect(7));
    assert w1.clients == w0.clients + [NewClient(7)];
    var w2 := Do(w1, ClientLock(2));
    assert w2.clients == w0.clients + [NewClient(7).(serve := Locked(2))];
    w := Do(w2, ClientGet(2));
  }

  /** Client 2 registers and leaves; hub 1 stops. */
  lemma RoomLeftAgain(w0: World) returns (w: World)
    requires Reachable(w0) && |w0.clients| == 3 && |w0.hubs| == 2 && w0.table == map[7 := 1] && w0.mu == Free
    requires w0.hubs[0].loop.Gone? && w0.hubs[1] == NewHub(7, 2)
    requires w0.clients[1].serve == Lookup(1) && w0.clients[1].entity == 7
    requires w0.clients[2] == NewClient(7).(serve := Registering(2), hub := Some(1))
    ensures Reachable(w) && |w.clients| == 3 && |w.hubs| == 2 && w.clients[1] == w0.clients[1]
    ensures w.hubs[0].loop.Gone? && w.hubs[1].loop.Stopping? && w.table == map[7 := 1] && w.mu == Free
  {
    var w1 := Do(w0, Register(2));
    assert w1.hubs[1].loop.Idle? && w1.hubs[1].hadClients && w1.hubs[1].clients == {2} && w1.clients[1] == w0.clients[1];
    w := OnlyMemberLeaves(w1);
  }

  lemma OnlyMemberLeaves(w1: World) returns (w: World)
    requires Reachable(w1) && |w1.clients| == 3 && |w1.hubs| == 2 && w1.hubs[1].loop.Idle? && w1.hubs[1].hadClients
    requires w1.hubs[1].clients == {2} && w1.clients[2].hub == Some(1) && w1.clients[2].reader.Reading?
    ensures Reachable(w) && |w.clients| == 3 && |w.hubs| == 2 && w.clients[1] == w1.clients[1] && w.hubs[0] == w1.hubs[0]
    ensures w.hubs[1].loop.Stopping? && w.table == w1.table && w.mu == w1.mu
  {
    var w2 := Do(w1, ReadFails(2));
    assert w2.hubs == w1.hubs && w2.clients[2].reader.Leaving? && w2.clients[2].hub == Some(1) && w2.clients[1] == w1.clients[1];
    var w3 := Do(w2, Unregister(2));
    assert w3.hubs[1].loop.Checking? && w3.hubs[1].clients == {} && w3.hubs[1].hadClients && w3.clients[1] == w1.clients[1];
    w := Do(w3, Check(1));
  }

  lemma Do(w: World, a: Action) returns (w': World)
    requires Reachable(w) && Enabled(w, a)
    ensures Reachable(w') && w' == Apply(w, a)
  {
    ReachableApply(w, a);
    w' := Apply(w, a);
  }

  /** Client 1 is about to register in the room that client 0, the last, has left. */
  lemma LastClientLeaves() returns (w: World)
    ensures Reachable(w) && |w.clients| == 2 && |w.hubs| == 1
    ensures w.hubs[0].loop.Stopping? && w.hubs[0].entity == 7 && w.table == map[7 := 0] && w.mu == Free
    ensures w.clients[1] == NewClient(7).(serve := Registering(2), hub := Some(0))
  {
    w := SecondClientArrives();
    var x1 := w.clients[1];
    var w1 := Do(w, Unregister(0));
    assert w1.hubs[0] == w.hubs[0].(clients := {}, loop := Checking);
    assert w1.clients[1] == x1 && w1.table == map[7 := 0] && w1.mu == Free;
    w := Do(w1, Check(0));
  }

  lemma SecondClientArrives() returns (w: World)
    ensures Reachable(w) && |w.clients| == 2 && |w.hubs| == 1
    ensures w.hubs[0] == NewHub(7, 0).(hadClients := true, clients := {0})
    ensures w.table == map[7 := 0] && w.mu == Free
    ensures w.clients[0].hub == Some(0) && w.clients[0].reader.Leaving?
    ensures w.clients[1] == NewClient(7).(serve := Registering(2), hub := Some(0))
  {
    var w0 := Fresh();
    var w1 := Do(w0, Register(0));
    var room := NewHub(7, 0).(hadClients := true, clients := {0});
    assert w0.hubs[0].clients + {0} == {0};
    assert w1.hubs == [room] && |w1.clients| == 1;
    var w2 := Do(w1, ReadFails(0));
    assert |w2.clients| == 1 && w2.clients[0].hub == Some(0) && w2.clients[0].reader.Leaving?;
    var w3 := Do(w2, Connect(7));
    assert w3.clients == [w2.clients[0], NewClient(7)];
    var w4 := Do(w3, ClientLock(1));
    assert w4.clients == [w2.clients[0], NewClient(7).(serve := Locked(2))];
    w := Do(w4, ClientGet(1));
  }
}

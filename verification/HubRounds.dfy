/** What one round of the loop of Hub.run, and one critical section of the manager, do
    in the state machine as a whole. */
module HubRounds {
  import opened Wire
  import opened HubModel
  import opened HubInvariant
  import opened HubProperties

  // ---------- the map in the state machine ----------

  lemma CleaningIsMapped(w: World, h: HubId)
    requires Reachable(w) && IsHub(w, h) && w.hubs[h].loop.Cleaning?
    ensures w.hubs[h].entity in w.table && w.table[w.hubs[h].entity] == h
  {
    InvReachable(w);
  }

  lemma CleanedTable(w: World, h: HubId)
    requires IsHub(w, h)
    ensures var e := w.hubs[h].entity;
            CleanedUp(w, h).table == if e in w.table && w.table[e] == h then w.table - {e} else w.table
  {
  }

  // ---------- a broadcast in the state machine ----------

  /** Call s finds its room in the map, or nothing, and releases the mutex. */
  lemma Looks(w: World, s: SenderId) returns (acts: seq<Action>, v: World)
    requires Enabled(w, SenderLookup(s))
    ensures Steps(w, acts, v) && v.hubs == w.hubs && v.table == w.table && IsSender(v, s)
    ensures v.senders[s].msg == w.senders[s].msg
    ensures v.senders[s].state == if w.senders[s].msg.entity in w.table then Blocked(w.table[w.senders[s].msg.entity]) else Finished(false)
  {
    acts, v := [SenderLookup(s)], Apply(w, SenderLookup(s));
    assert acts[1..] == [];
  }

  /** The call goes on with one arm of its select, if one is ready. */
  lemma TakesArm(w: World, acts0: seq<Action>, v: World, s: SenderId, sends: bool, aborts: bool) returns (acts: seq<Action>, w': World)
    requires Steps(w, acts0, v) && IsSender(v, s) && (sends ==> Enabled(v, SenderEnqueue(s))) && (aborts ==> Enabled(v, SenderAbort(s)))
    ensures Steps(w, acts, w') && w'.table == v.table && IsSender(w', s)
    ensures w' == if sends then Apply(v, SenderEnqueue(s)) else if aborts then Apply(v, SenderAbort(s)) else v
    ensures sends ==> w'.senders[s].state == Finished(true)
    ensures !sends && aborts ==> w'.senders[s].state == Finished(false)
  {
    acts, w' := acts0, v;
    if sends {
      StepsThen(w, acts0, v, SenderEnqueue(s));
      acts, w' := acts0 + [SenderEnqueue(s)], Apply(v, SenderEnqueue(s));
    } else if aborts {
      StepsThen(w, acts0, v, SenderAbort(s));
      acts, w' := acts0 + [SenderAbort(s)], Apply(v, SenderAbort(s));
    }
  }

  // ---------- the rounds of the loop in the state machine ----------

  ghost predicate IsSweep(acts: seq<Action>, h: HubId) {
    forall i :: 0 <= i < |acts| ==> acts[i].Deliver? && acts[i].h == h
  }

  /** One message: taken from the queue, offered to every member, and the test for empty. */
  ghost predicate IsRound(acts: seq<Action>, h: HubId) {
    |acts| >= 2 && acts[0] == Dequeue(h) && IsSweep(acts[1..|acts| - 1], h) && acts[|acts| - 1] == Check(h)
  }

  /** The channel of client c, and nothing else of any client, changes from w to v. */
  ghost predicate OnlyChannel(w: World, v: World, c: ClientId) {
    && |v.clients| == |w.clients| && IsClient(w, c) && v.clients[c].hub == w.clients[c].hub
    && (forall d :: 0 <= d < |w.clients| && d != c ==> v.clients[d] == w.clients[d])
  }

  /** What Unregister and Check do, together. */
  lemma Leave(w: World, h: HubId, c: ClientId) returns (v: World)
    requires Enabled(w, Unregister(c)) && w.clients[c].At(h)
    ensures Steps(w, [Unregister(c), Check(h)], v) && OnlyChannel(w, v, c)
    ensures v.clients[c].buffer == w.clients[c].buffer
    ensures v.clients[c].closed == (w.clients[c].closed || c in w.hubs[h].clients)
    ensures IsHub(v, h) && v.hubs[h] == AfterCheck(w.hubs[h].(clients := w.hubs[h].clients - {c}))
  {
    assert c !in w.hubs[h].clients ==> w.hubs[h].clients - {c} == w.hubs[h].clients;
    var w1 := Apply(w, Unregister(c));
    v := Apply(w1, Check(h));
    assert [Unregister(c), Check(h)][1..] == [Check(h)];
    assert [Check(h)][1..] == [];
  }

  function AfterCheck(hub: Hub): Hub {
    hub.(loop := if hub.hadClients && hub.clients == {} then Stopping else Idle)
  }

  /** A whole sweep of the state machine, in any order of its turns, does to each
      member what OnBroadcast does. */
  lemma {:induction false} SweepOutcome(w: World, h: HubId, acts: seq<Action>, w': World)
    requires Reachable(w) && IsHub(w, h) && w.hubs[h].loop.Sweeping?
    requires IsSweep(acts, h) && Steps(w, acts, w') && IsHub(w', h) && w'.hubs[h].loop.Checking?
    ensures |w'.clients| == |w.clients|
    ensures w'.hubs[h] == w.hubs[h].(clients := w'.hubs[h].clients, loop := Checking)
    ensures forall c :: 0 <= c < |w.clients| ==>
                          if c in w.hubs[h].loop.todo then Served(w.clients[c], w'.clients[c], w.hubs[h].loop.msg)
                          else w'.clients[c] == w.clients[c]
    ensures forall c :: 0 <= c < |w.clients| ==>
                          (c in w'.hubs[h].clients <==>
                           c in w.hubs[h].clients && (c in w.hubs[h].loop.todo ==> |w.clients[c].buffer| < SEND_BUFFER_SIZE))
    decreases |acts|
  {
    var v := Apply(w, acts[0]);
    FirstTurn(w, h, acts[0].c);
    if v.hubs[h].loop.Sweeping? {
      SweepOutcome(v, h, acts[1..], w');
    } else {
      assert acts[1..] == [];
    }
  }

  /** A sweep can always be completed. */
  lemma {:induction false} CompleteSweep(w: World, h: HubId) returns (acts: seq<Action>, w': World)
    requires Reachable(w) && IsHub(w, h) && w.hubs[h].loop.Sweeping?
    ensures IsSweep(acts, h) && Steps(w, acts, w') && IsHub(w', h) && w'.hubs[h].loop.Checking? && Reachable(w')
    decreases |w.hubs[h].loop.todo|
  {
    var c := NextMember(w, h);
    FirstTurn(w, h, c);
    var v := Apply(w, Deliver(h, c));
    if v.hubs[h].loop.Sweeping? {
      acts, w' := CompleteSweep(v, h);
    } else {
      acts, w' := [], v;
    }
    acts := [Deliver(h, c)] + acts;
  }

  lemma NextMember(w: World, h: HubId) returns (c: ClientId)
    requires Reachable(w) && IsHub(w, h) && w.hubs[h].loop.Sweeping?
    ensures Enabled(w, Deliver(h, c))
  {
    InvReachable(w);
    assert HubOk(w.hubs[h]);
    c :| c in w.hubs[h].loop.todo;
    assert IsMember(w.clients, h, c);
  }

  /** What one round of the loop does to the clients and to the hub. */
  ghost predicate RoundEffect(w: World, w': World, h: HubId, msg: Msg) {
    && IsHub(w, h) && IsHub(w', h) && |w'.clients| == |w.clients|
    && (forall c :: 0 <= c < |w.clients| ==>
          if c in w.hubs[h].clients then Served(w.clients[c], w'.clients[c], msg) else w'.clients[c] == w.clients[c])
    && (forall c :: c in w'.hubs[h].clients <==>
                      c in w.hubs[h].clients && IsClient(w, c) && |w.clients[c].buffer| < SEND_BUFFER_SIZE)
  }

  /** One whole round of the loop of run for a message, and what it does. */
  lemma Round(w: World, h: HubId) returns (acts: seq<Action>, w': World)
    requires Reachable(w) && Enabled(w, Dequeue(h))
    ensures Steps(w, acts, w') && IsRound(acts, h) && RoundEffect(w, w', h, w.hubs[h].queue[0])
    ensures w'.hubs[h] == AfterCheck(Dequeued(w.hubs[h]).(clients := w'.hubs[h].clients))
  {
    MembersAreClients(w, h);
    ReachableApply(w, Dequeue(h));
    var v := Apply(w, Dequeue(h));
    var sweep, u := WholeSweep(w, v, h);
    FinishRound(v, sweep, u, h);
    acts, w' := [Dequeue(h)] + (sweep + [Check(h)]), Apply(u, Check(h));
    assert acts[1..] == sweep + [Check(h)] && acts[1..|acts| - 1] == sweep;
  }

  /** The part of the round between taking the message and the test for empty. */
  lemma WholeSweep(w: World, v: World, h: HubId) returns (sweep: seq<Action>, u: World)
    requires Reachable(v) && Enabled(w, Dequeue(h)) && v == PutHub(w, h, Dequeued(w.hubs[h]))
    requires forall c :: c in w.hubs[h].clients ==> IsClient(w, c)
    ensures IsSweep(sweep, h) && Steps(v, sweep, u) && RoundEffect(w, u, h, w.hubs[h].queue[0])
    ensures u.hubs[h] == Dequeued(w.hubs[h]).(clients := u.hubs[h].clients, loop := Checking)
  {
    sweep, u := [], v;
    if v.hubs[h].loop.Sweeping? {
      sweep, u := CompleteSweep(v, h);
      SweepOutcome(v, h, sweep, u);
      MembersAreClients(u, h);
    }
  }

  lemma MembersAreClients(w: World, h: HubId)
    requires Reachable(w) && IsHub(w, h)
    ensures forall c :: c in w.hubs[h].clients ==> IsClient(w, c)
  {
    InvReachable(w);
    assert forall c :: c in w.hubs[h].clients ==> IsMember(w.clients, h, c);
  }

  lemma FinishRound(v: World, sweep: seq<Action>, u: World, h: HubId)
    requires Steps(v, sweep, u) && IsHub(u, h) && u.hubs[h].loop.Checking?
    ensures Steps(v, sweep + [Check(h)], Apply(u, Check(h)))
    ensures Apply(u, Check(h)) == u.(hubs := u.hubs[h := AfterCheck(u.hubs[h])])
  {
    StepsThen(v, sweep, u, Check(h));
  }

  lemma FirstTurn(w: World, h: HubId, c: ClientId)
    requires Reachable(w) && Enabled(w, Deliver(h, c))
    ensures Reachable(Apply(w, Deliver(h, c))) && OneTurnOutcome(w, h, c, Apply(w, Deliver(h, c)))
  {
    InvReachable(w);
    ReachableApply(w, Deliver(h, c));
    assert HubOk(w.hubs[h]) && IsMember(w.clients, h, c) && ClientOk(w.clients[c]);
    OpenTurn(w, h, c);
  }

  /** One turn for a member, whose channel is open. */
  lemma OpenTurn(w: World, h: HubId, c: ClientId)
    requires Enabled(w, Deliver(h, c)) && !w.clients[c].closed && c in w.hubs[h].clients
    ensures OneTurnOutcome(w, h, c, Apply(w, Deliver(h, c)))
  {
  }

  ghost predicate OneTurnOutcome(w: World, h: HubId, c: ClientId, v: World)
    requires Enabled(w, Deliver(h, c))
  {
    && |v.clients| == |w.clients| && |v.hubs| == |w.hubs|
    && Served(w.clients[c], v.clients[c], w.hubs[h].loop.msg)
    && (forall d :: 0 <= d < |w.clients| && d != c ==> v.clients[d] == w.clients[d])
    && v.hubs[h] == w.hubs[h].(clients := v.hubs[h].clients, loop := AfterTurn(w.hubs[h], c))
    && (forall d :: d in v.hubs[h].clients <==>
                      d in w.hubs[h].clients && (d == c ==> |w.clients[c].buffer| < SEND_BUFFER_SIZE))
  }

  /** What one broadcast does to one member. */
  predicate Served(x: Client, y: Client, m: Msg) {
    if |x.buffer| < SEND_BUFFER_SIZE then y == x.(buffer := x.buffer + [m])
    else y == x.(closed := true, span := y.span) && y.span.Left? && y.span.evicted
  }
}

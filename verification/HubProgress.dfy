/** Nobody is stuck: every goroutine blocked on a hub channel can be released by
    that hub's own loop alone, and no holder of the manager's mutex waits. */
module HubProgress {
  import opened Wire
  import opened HubModel
  import opened HubInvariant
  import opened HubProperties

  // ---------- calls that block on a hub channel ----------

  datatype Call =
    | JoinCall(c: ClientId)       // tryRegister
    | ForwardCall(c: ClientId)    // Broadcast from readPump
    | LeaveCall(c: ClientId)      // the deferred unregister of readPump
    | BroadcastCall(s: SenderId)  // Broadcast from the manager

  predicate Waiting(w: World, call: Call) {
    match call
    case JoinCall(c) => HasHub(w, c) && w.clients[c].serve.Registering?
    case ForwardCall(c) => HasHub(w, c) && w.clients[c].reader.Forwarding?
    case LeaveCall(c) => HasHub(w, c) && w.clients[c].reader.Leaving?
    case BroadcastCall(s) => IsSender(w, s) && w.senders[s].state.Blocked? && IsHub(w, w.senders[s].state.hub)
  }

  function HubFor(w: World, call: Call): (h: HubId)
    requires Waiting(w, call)
    ensures IsHub(w, h)
  {
    match call
    case BroadcastCall(s) => w.senders[s].state.hub
    case _ => w.clients[call.c].hub.value
  }

  /** One arm of the call's select is ready. */
  predicate CanReturn(w: World, call: Call) {
    match call
    case JoinCall(c) => Enabled(w, Register(c)) || Enabled(w, RegisterFails(c))
    case ForwardCall(c) => Enabled(w, ForwardEnqueue(c)) || Enabled(w, ForwardAbort(c))
    case LeaveCall(c) => Enabled(w, Unregister(c)) || Enabled(w, UnregisterSkip(c))
    case BroadcastCall(s) => Enabled(w, SenderEnqueue(s)) || Enabled(w, SenderAbort(s))
  }

  /** a is an action of the loop of h on its channels, not on the mutex. */
  predicate OfLoop(a: Action, h: HubId) {
    a == Dequeue(h) || (a.Deliver? && a.h == h) || a == Check(h)
  }

  /** A bound on what the loop still has to do before it selects again. */
  function LoopWork(hub: Hub): nat {
    match hub.loop
    case Sweeping(_, todo) => |todo| + 1
    case Checking => 1
    case _ => 0
  }

  /** The loop of h can always act unless it is idle or has closed stopped. */
  lemma LoopNeverWaits(w: World, h: HubId) returns (a: Action)
    requires Inv(w) && IsHub(w, h) && LoopWork(w.hubs[h]) > 0
    ensures OfLoop(a, h) && Enabled(w, a)
    ensures |Apply(w, a).hubs| == |w.hubs| && LoopWork(Apply(w, a).hubs[h]) < LoopWork(w.hubs[h])
  {
    var hub := w.hubs[h];
    assert HubOk(hub);
    if hub.loop.Checking? {
      a := Check(h);
    } else {
      var c :| c in hub.loop.todo;
      assert IsMember(w.clients, h, c) && ClientOk(w.clients[c]);
      a := Deliver(h, c);
    }
  }

  /** What the callers rely on, and the loop of a hub does not touch. */
  ghost predicate SameCallers(w: World, w': World) {
    && |w'.hubs| == |w.hubs| && w'.senders == w.senders && |w'.clients| == |w.clients|
    && (forall c :: 0 <= c < |w.clients| ==>
          w'.clients[c].serve == w.clients[c].serve && w'.clients[c].reader == w.clients[c].reader
          && w'.clients[c].hub == w.clients[c].hub)
  }

  lemma LoopKeepsCallers(w: World, h: HubId, a: Action)
    requires OfLoop(a, h) && Enabled(w, a)
    ensures SameCallers(w, Apply(w, a))
  {
  }

  lemma StillWaiting(w: World, w': World, call: Call)
    requires Waiting(w, call) && SameCallers(w, w')
    ensures Waiting(w', call) && HubFor(w', call) == HubFor(w, call)
  {
  }

  /** An idle loop with a full queue: taking one message makes room. */
  lemma DequeueMakesRoom(w: World, call: Call)
    requires Waiting(w, call) && HubOk(w.hubs[HubFor(w, call)])
    requires !CanReturn(w, call) && LoopWork(w.hubs[HubFor(w, call)]) == 0
    ensures Enabled(w, Dequeue(HubFor(w, call))) && CanReturn(Apply(w, Dequeue(HubFor(w, call))), call)
  {
    var h := HubFor(w, call);
    assert w.hubs[h].loop.Idle? && |w.hubs[h].queue| == SEND_BUFFER_SIZE;
    LoopKeepsCallers(w, h, Dequeue(h));
    StillWaiting(w, Apply(w, Dequeue(h)), call);
  }

  /** Progress. From any reachable state, a finite run of the hub's own loop, no
      longer than the sweep it is in, makes a blocked call ready to return. */
  lemma {:induction false} Unblocks(w: World, call: Call) returns (acts: seq<Action>, w': World)
    requires Reachable(w) && Waiting(w, call)
    ensures Steps(w, acts, w') && CanReturn(w', call)
    ensures forall i :: 0 <= i < |acts| ==> OfLoop(acts[i], HubFor(w, call))
    ensures |acts| <= LoopWork(w.hubs[HubFor(w, call)]) + 1
    decreases LoopWork(w.hubs[HubFor(w, call)])
  {
    if CanReturn(w, call) {
      acts, w' := [], w;
    } else if LoopWork(w.hubs[HubFor(w, call)]) > 0 {
      var a := OneLoopStep(w, call);
      var rest;
      rest, w' := Unblocks(Apply(w, a), call);
      acts := [a] + rest;
    } else {
      acts, w' := OneDequeue(w, call);
    }
  }

  lemma OneDequeue(w: World, call: Call) returns (acts: seq<Action>, w': World)
    requires Reachable(w) && Waiting(w, call) && !CanReturn(w, call) && LoopWork(w.hubs[HubFor(w, call)]) == 0
    ensures Steps(w, acts, w') && CanReturn(w', call) && acts == [Dequeue(HubFor(w, call))]
  {
    InvReachable(w);
    assert HubOk(w.hubs[HubFor(w, call)]);
    DequeueMakesRoom(w, call);
    acts, w' := [Dequeue(HubFor(w, call))], Apply(w, Dequeue(HubFor(w, call)));
    assert acts[1..] == [];
  }

  lemma OneLoopStep(w: World, call: Call) returns (a: Action)
    requires Reachable(w) && Waiting(w, call) && LoopWork(w.hubs[HubFor(w, call)]) > 0
    ensures OfLoop(a, HubFor(w, call)) && Enabled(w, a) && Reachable(Apply(w, a))
    ensures Waiting(Apply(w, a), call) && HubFor(Apply(w, a), call) == HubFor(w, call)
    ensures LoopWork(Apply(w, a).hubs[HubFor(w, call)]) < LoopWork(w.hubs[HubFor(w, call)])
  {
    InvReachable(w);
    a := LoopNeverWaits(w, HubFor(w, call));
    ReachableApply(w, a);
    LoopKeepsCallers(w, HubFor(w, call), a);
    StillWaiting(w, Apply(w, a), call);
  }

  // ---------- the mutex ----------

  /** The one action that the holder of the mutex takes next. */
  function HolderAction(w: World): Action
    requires w.mu != Free
  {
    match w.mu
    case ByClient(c) => ClientGet(c)
    case BySender(s) => SenderLookup(s)
    case ByHub(h) => Cleanup(h)
  }

  /** Whoever holds the mutex can go on at once, gives it back, and touches no
      channel while holding it. */
  lemma MutexHolderNeverWaits(w: World)
    requires Reachable(w) && w.mu != Free
    ensures Enabled(w, HolderAction(w))
    ensures var w' := Apply(w, HolderAction(w));
            && w'.mu == Free
            && |w.hubs| <= |w'.hubs| && |w.clients| == |w'.clients|
            && (forall h :: 0 <= h < |w.hubs| ==>
                  w'.hubs[h].queue == w.hubs[h].queue && (w'.hubs[h].Stopped() <==> w.hubs[h].Stopped()))
            && (forall c :: 0 <= c < |w.clients| ==>
                  w'.clients[c].buffer == w.clients[c].buffer && w'.clients[c].closed == w.clients[c].closed)
  {
    InvReachable(w);
  }

  /** A hub that has closed stopped can always finish: at most one other critical
      section, then its own, and the map no longer holds it. */
  lemma StoppedHubIsCollected(w: World, h: HubId) returns (acts: seq<Action>, w': World)
    requires Reachable(w) && IsHub(w, h) && w.hubs[h].Stopped()
    ensures Steps(w, acts, w') && |acts| <= 3
    ensures IsHub(w', h) && w'.hubs[h].loop.Gone?
    ensures forall e :: e in w'.table ==> w'.table[e] != h
  {
    if w.mu != Free && w.hubs[h].loop.Stopping? {
      var a := HolderGivesBack(w, h);
      acts, w' := Finish(Apply(w, a), h);
      acts := [a] + acts;
    } else {
      acts, w' := Finish(w, h);
    }
    GoneIsOut(w', h);
  }

  /** The hub takes the mutex, if it has not got it, and runs onEmpty. */
  lemma Finish(w: World, h: HubId) returns (acts: seq<Action>, w': World)
    requires Reachable(w) && IsHub(w, h) && w.hubs[h].Stopped() && (w.hubs[h].loop.Stopping? ==> w.mu == Free)
    ensures Steps(w, acts, w') && |acts| <= 2 && Reachable(w') && IsHub(w', h) && w'.hubs[h].loop.Gone?
  {
    if w.hubs[h].loop.Stopping? {
      ReachableApply(w, HubLock(h));
      acts, w' := RunOnEmpty(Apply(w, HubLock(h)), h);
      acts := [HubLock(h)] + acts;
    } else if w.hubs[h].loop.Cleaning? {
      acts, w' := RunOnEmpty(w, h);
    } else {
      acts, w' := [], w;
    }
  }

  lemma RunOnEmpty(w: World, h: HubId) returns (acts: seq<Action>, w': World)
    requires Reachable(w) && IsHub(w, h) && w.hubs[h].loop.Cleaning?
    ensures Steps(w, acts, w') && |acts| == 1 && Reachable(w') && IsHub(w', h) && w'.hubs[h].loop.Gone?
  {
    InvReachable(w);
    ReachableApply(w, Cleanup(h));
    acts, w' := [Cleanup(h)], Apply(w, Cleanup(h));
    assert acts[1..] == [];
  }

  lemma GoneIsOut(w: World, h: HubId)
    requires Reachable(w) && IsHub(w, h) && w.hubs[h].loop.Gone?
    ensures forall e :: e in w.table ==> w.table[e] != h
  {
    InvReachable(w);
  }

  /** Another holder's critical section leaves a stopping hub as it is. */
  lemma HolderGivesBack(w: World, h: HubId) returns (a: Action)
    requires Reachable(w) && IsHub(w, h) && w.hubs[h].loop.Stopping? && w.mu != Free
    ensures Enabled(w, a) && Reachable(Apply(w, a))
    ensures IsHub(Apply(w, a), h) && Apply(w, a).hubs[h] == w.hubs[h] && Apply(w, a).mu == Free
  {
    a := HolderAction(w);
    MutexHolderNeverWaits(w);
    ReachableApply(w, a);
  }
}

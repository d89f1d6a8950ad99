/** What a hub has accepted, told from the actions alone: who sent it, and what was sent. */
module HubSends {
  import opened Wire
  import opened HubModel
  import opened HubInvariant
  import opened HubProperties

  /** ws[i] is the world before action i, ws[i + 1] the one after it. */
  ghost predicate Run(ws: seq<World>, acts: seq<Action>) {
    && |ws| == |acts| + 1 && ws[0] == INIT
    && (forall i {:trigger acts[i]} :: 0 <= i < |acts| ==> Enabled(ws[i], acts[i]) && ws[i + 1] == Apply(ws[i], acts[i]))
  }

  // ---------- what the actions say ----------

  /** The rooms of the clients, in the order in which they connected. */
  function Rooms(acts: seq<Action>): seq<EntityId> {
    if acts == [] then []
    else
      var last := acts[|acts| - 1];
      Rooms(acts[..|acts| - 1]) + (if last.Connect? then [last.entity] else [])
  }

  /** The messages of the calls of HubManager.Broadcast, in the order of the calls. */
  function Submitted(acts: seq<Action>): seq<Msg> {
    if acts == [] then []
    else
      var last := acts[|acts| - 1];
      Submitted(acts[..|acts| - 1]) + (if last.Submit? then [Msg(last.entity, last.payload)] else [])
  }

  /** What the pump of client c has read last. */
  function LastRead(acts: seq<Action>, c: ClientId): Option<Payload> {
    if acts == [] then None
    else
      var last := acts[|acts| - 1];
      if last.ReadMessage? && last.c == c then Some(last.payload) else LastRead(acts[..|acts| - 1], c)
  }

  /** The message that action number i hands over, if it hands one to hub h: the one that
      client c has read last, meant for the room of c, or the one of the call s. */
  function HandedOver(ws: seq<World>, acts: seq<Action>, i: nat, h: HubId): seq<Msg>
    requires i < |acts| && i < |ws|
  {
    match acts[i]
    case ForwardEnqueue(c) =>
      if HasHub(ws[i], c) && ws[i].clients[c].At(h) && c < |Rooms(acts[..i])| && LastRead(acts[..i], c).Some?
      then [Msg(Rooms(acts[..i])[c], LastRead(acts[..i], c).value)] else []
    case SenderEnqueue(s) =>
      if IsSender(ws[i], s) && ws[i].senders[s].state == Blocked(h) && s < |Submitted(acts[..i])|
      then [Submitted(acts[..i])[s]] else []
    case _ => []
  }

  /** All that was handed over to hub h by the first n actions. */
  function Handed(ws: seq<World>, acts: seq<Action>, n: nat, h: HubId): seq<Msg>
    requires n <= |acts| && n <= |ws|
  {
    if n == 0 then [] else Handed(ws, acts, n - 1, h) + HandedOver(ws, acts, n - 1, h)
  }

  // ---------- what the state remembers of them ----------

  ghost predicate Remembers(w: World, acts: seq<Action>) {
    && |w.clients| == |Rooms(acts)| && |w.senders| == |Submitted(acts)|
    && (forall c :: 0 <= c < |w.clients| ==> w.clients[c].entity == Rooms(acts)[c])
    && (forall c :: 0 <= c < |w.clients| && w.clients[c].reader.Forwarding? ==>
          LastRead(acts, c) == Some(w.clients[c].reader.msg.payload)
          && w.clients[c].reader.msg.entity == w.clients[c].entity)
    && (forall s :: 0 <= s < |w.senders| ==> w.senders[s].msg == Submitted(acts)[s])
  }

  lemma RememberStep(w: World, acts: seq<Action>, a: Action)
    requires Remembers(w, acts) && Enabled(w, a)
    ensures Remembers(Apply(w, a), acts + [a])
  {
    assert (acts + [a])[..|acts|] == acts;
    ClientsStep(w, a);
    SendersStep(w, a);
    assert forall c :: !(a.ReadMessage? && a.c == c) ==> LastRead(acts + [a], c) == LastRead(acts, c);
  }

  lemma ClientsStep(w: World, a: Action)
    requires Enabled(w, a)
    ensures var v := Apply(w, a);
            && |v.clients| == |w.clients| + (if a.Connect? then 1 else 0)
            && (a.Connect? ==> v.clients[|w.clients|] == NewClient(a.entity))
            && (forall c :: 0 <= c < |w.clients| ==> v.clients[c].entity == w.clients[c].entity)
            && (forall c :: 0 <= c < |w.clients| && v.clients[c].reader.Forwarding? ==>
                  if a.ReadMessage? && a.c == c then v.clients[c].reader.msg == Msg(w.clients[c].entity, a.payload)
                  else v.clients[c].reader == w.clients[c].reader)
  {
    ClientCount(w, a);
    forall c | 0 <= c < |w.clients| ensures ClientKeeps(w, a, c) {
      ClientStep(w, a, c);
    }
  }

  lemma ClientCount(w: World, a: Action)
    requires Enabled(w, a)
    ensures |Apply(w, a).clients| == |w.clients| + (if a.Connect? then 1 else 0)
  {
  }

  ghost predicate ClientKeeps(w: World, a: Action, c: ClientId)
    requires Enabled(w, a) && IsClient(w, c)
  {
    var v := Apply(w, a);
    && IsClient(v, c) && v.clients[c].entity == w.clients[c].entity
    && (v.clients[c].reader.Forwarding? ==>
          if a.ReadMessage? && a.c == c then v.clients[c].reader.msg == Msg(w.clients[c].entity, a.payload)
          else v.clients[c].reader == w.clients[c].reader)
  }

  lemma ClientStep(w: World, a: Action, c: ClientId)
    requires Enabled(w, a) && IsClient(w, c)
    ensures ClientKeeps(w, a, c)
  {
    if IsLoopAction(a) {
      LoopKeeps(w, a, c);
    } else {
      OthersKeep(w, a, c);
    }
  }

  lemma LoopKeeps(w: World, a: Action, c: ClientId)
    requires Enabled(w, a) && IsClient(w, c) && IsLoopAction(a)
    ensures ClientKeeps(w, a, c)
  {
  }

  lemma OthersKeep(w: World, a: Action, c: ClientId)
    requires Enabled(w, a) && IsClient(w, c) && !IsLoopAction(a)
    ensures ClientKeeps(w, a, c)
  {
  }

  lemma SendersStep(w: World, a: Action)
    requires Enabled(w, a)
    ensures var v := Apply(w, a);
            && |v.senders| == |w.senders| + (if a.Submit? then 1 else 0)
            && (a.Submit? ==> v.senders[|w.senders|].msg == Msg(a.entity, a.payload))
            && (forall s :: 0 <= s < |w.senders| ==> v.senders[s].msg == w.senders[s].msg)
  {
  }

  lemma {:induction false} Remembered(ws: seq<World>, acts: seq<Action>, n: nat)
    requires Run(ws, acts) && n <= |acts|
    ensures Remembers(ws[n], acts[..n])
  {
    if n > 0 {
      Remembered(ws, acts, n - 1);
      assert Enabled(ws[n - 1], acts[n - 1]) && ws[n] == Apply(ws[n - 1], acts[n - 1]);
      RememberStep(ws[n - 1], acts[..n - 1], acts[n - 1]);
      assert acts[..n - 1] + [acts[n - 1]] == acts[..n];
    }
  }

  // ---------- what a hub accepts ----------

  /** The message that one action adds to what hub h has accepted. */
  function Added(w: World, a: Action, h: HubId): seq<Msg>
    requires Enabled(w, a)
  {
    match a
    case ForwardEnqueue(c) => if w.clients[c].At(h) then [w.clients[c].reader.msg] else []
    case SenderEnqueue(s) => if w.senders[s].state == Blocked(h) then [w.senders[s].msg] else []
    case _ => []
  }

  lemma AcceptedStep(w: World, a: Action, h: HubId)
    requires Enabled(w, a) && IsHub(w, h)
    ensures IsHub(Apply(w, a), h) && Accepted(Apply(w, a).hubs[h]) == Accepted(w.hubs[h]) + Added(w, a, h)
  {
    var next := Apply(w, a).hubs[h];
    QueueStep(w, a, h);
    if a == Dequeue(h) {
      assert (w.hubs[h].log + [w.hubs[h].queue[0]]) + w.hubs[h].queue[1..] == w.hubs[h].log + w.hubs[h].queue;
    } else {
      assert w.hubs[h].log + (w.hubs[h].queue + Added(w, a, h)) == (w.hubs[h].log + w.hubs[h].queue) + Added(w, a, h);
    }
  }

  lemma QueueStep(w: World, a: Action, h: HubId)
    requires Enabled(w, a) && IsHub(w, h)
    ensures IsHub(Apply(w, a), h)
    ensures var hub, next := w.hubs[h], Apply(w, a).hubs[h];
            if a == Dequeue(h) then next.queue == hub.queue[1..] && next.log == hub.log + [hub.queue[0]]
            else next.queue == hub.queue + Added(w, a, h) && next.log == hub.log
  {
    if IsLoopAction(a) {
      LoopQueue(w, a, h);
    } else {
      OtherQueue(w, a, h);
    }
  }

  lemma LoopQueue(w: World, a: Action, h: HubId)
    requires Enabled(w, a) && IsHub(w, h) && IsLoopAction(a)
    ensures IsHub(Apply(w, a), h)
    ensures var hub, next := w.hubs[h], Apply(w, a).hubs[h];
            if a == Dequeue(h) then next.queue == hub.queue[1..] && next.log == hub.log + [hub.queue[0]]
            else next.queue == hub.queue && next.log == hub.log
  {
  }

  lemma OtherQueue(w: World, a: Action, h: HubId)
    requires Enabled(w, a) && IsHub(w, h) && !IsLoopAction(a)
    ensures IsHub(Apply(w, a), h)
    ensures Apply(w, a).hubs[h].queue == w.hubs[h].queue + Added(w, a, h) && Apply(w, a).hubs[h].log == w.hubs[h].log
  {
  }

  lemma NewHubIsEmpty(w: World, a: Action, h: HubId)
    requires Enabled(w, a) && !IsHub(w, h) && IsHub(Apply(w, a), h)
    ensures Accepted(Apply(w, a).hubs[h]) == []
  {
  }

  /** Nothing was handed to a hub before it existed. */
  lemma NotYetAimedAt(w: World, a: Action, h: HubId)
    requires Enabled(w, a) && !IsHub(w, h)
    ensures Added(w, a, h) == []
  {
  }

  lemma HandedIsAdded(ws: seq<World>, acts: seq<Action>, i: nat, h: HubId)
    requires Run(ws, acts) && i < |acts| && Remembers(ws[i], acts[..i])
    ensures Enabled(ws[i], acts[i]) && HandedOver(ws, acts, i, h) == Added(ws[i], acts[i], h)
  {
    assert Enabled(ws[i], acts[i]);
  }

  lemma {:induction false} AcceptedSoFar(ws: seq<World>, acts: seq<Action>, n: nat, h: HubId)
    requires Run(ws, acts) && n <= |acts|
    ensures Handed(ws, acts, n, h) == if IsHub(ws[n], h) then Accepted(ws[n].hubs[h]) else []
  {
    if n > 0 {
      AcceptedSoFar(ws, acts, n - 1, h);
      Remembered(ws, acts, n - 1);
      HandedIsAdded(ws, acts, n - 1, h);
      var w, a := ws[n - 1], acts[n - 1];
      assert ws[n] == Apply(w, a);
      if IsHub(w, h) {
        AcceptedStep(w, a, h);
      } else {
        NotYetAimedAt(w, a, h);
        if IsHub(ws[n], h) {
          NewHubIsEmpty(w, a, h);
        }
      }
    }
  }

  /** What clients and handlers send reaches their hub. In every run, the messages that a
      hub has accepted are, in order and without exception, those that the completed
      calls aimed at it handed over: of a client what its pump had read last, meant for
      the client's room; of HubManager.Broadcast what it was called with. */
  lemma AcceptedIsWhatWasSent(ws: seq<World>, acts: seq<Action>, n: nat, h: HubId)
    requires Run(ws, acts) && n <= |acts| && IsHub(ws[n], h)
    ensures Accepted(ws[n].hubs[h]) == Handed(ws, acts, n, h)
  {
    AcceptedSoFar(ws, acts, n, h);
  }

  /** And a call that waits for a hub ends in no other way than by handing its message
      over, or because the hub has stopped. */
  lemma WaitingCallsEnd(w: World, a: Action, c: ClientId, s: SenderId)
    requires Reachable(w) && Enabled(w, a)
    ensures IsClient(w, c) && w.clients[c].reader.Forwarding? ==>
              IsClient(Apply(w, a), c)
              && (Apply(w, a).clients[c].reader != w.clients[c].reader ==>
                    HasHub(w, c) && (a == ForwardEnqueue(c) || (a == ForwardAbort(c) && HubOf(w, c).Stopped())))
    ensures IsSender(w, s) && w.senders[s].state.Blocked? ==>
              IsSender(Apply(w, a), s)
              && (Apply(w, a).senders[s] != w.senders[s] ==>
                    a == SenderEnqueue(s)
                    || (a == SenderAbort(s) && IsHub(w, w.senders[s].state.hub) && w.hubs[w.senders[s].state.hub].Stopped()))
  {
    InvReachable(w);
    if IsClient(w, c) && w.clients[c].reader.Forwarding? {
      assert ClientOk(w.clients[c]);
      ForwardingEnds(w, a, c);
    }
    if IsSender(w, s) && w.senders[s].state.Blocked? {
      BlockedEnds(w, a, s);
    }
  }

  lemma ForwardingEnds(w: World, a: Action, c: ClientId)
    requires Enabled(w, a) && IsClient(w, c) && w.clients[c].reader.Forwarding? && w.clients[c].serve.Joined?
    ensures IsClient(Apply(w, a), c)
    ensures Apply(w, a).clients[c].reader != w.clients[c].reader ==> a == ForwardEnqueue(c) || a == ForwardAbort(c)
  {
  }

  lemma BlockedEnds(w: World, a: Action, s: SenderId)
    requires Enabled(w, a) && IsSender(w, s) && w.senders[s].state.Blocked?
    ensures IsSender(Apply(w, a), s)
    ensures Apply(w, a).senders[s] != w.senders[s] ==> a == SenderEnqueue(s) || a == SenderAbort(s)
  {
  }
}

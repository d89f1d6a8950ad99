/** The WebSocket rooms as a state machine. Every goroutine has its own program
    counter, every channel operation and every mutex operation is one action,
    and the scheduler may pick any enabled action. */
module HubModel {
  import opened Wire

  const SEND_BUFFER_SIZE := 256
  const REGISTER_ATTEMPTS := 2

  type HubId = nat
  type ClientId = nat
  type SenderId = nat

  /** A message remembers the room it was meant for; the code does not read this tag. */
  datatype Msg = Msg(entity: EntityId, payload: Payload)

  /** Where Hub.run is. Stopping follows close(stopped); Cleaning holds the
      manager's mutex inside onEmpty; Gone means that run has returned. */
  datatype Loop =
    | Idle
    | Sweeping(msg: Msg, todo: set<ClientId>)
    | Checking
    | Stopping
    | Cleaning
    | Gone

  /** creator and log are history: who made the hub, and what run has dequeued. */
  datatype Hub = Hub(
    entity: EntityId,
    creator: ClientId,
    clients: set<ClientId>,
    queue: seq<Msg>,
    hadClients: bool,
    loop: Loop,
    log: seq<Msg>)
  {
    /** The stopped channel is closed. */
    predicate Stopped() {
      loop.Stopping? || loop.Cleaning? || loop.Gone?
    }

    /** How much of the log has been offered to member c. */
    function Offered(c: ClientId): int {
      if loop.Sweeping? && c in loop.todo then |log| - 1 else |log|
    }
  }

  /** Where the ServeWS call that owns the client is. */
  datatype Serve =
    | Lookup(left: nat)
    | Locked(left: nat)
    | Registering(left: nat)
    | Joined
    | Failed

  datatype Reader = ReaderIdle | Reading | Forwarding(msg: Msg) | Leaving | ReaderDone

  datatype Writer = WriterIdle | Writing | WriterDone

  /** History of a membership, in positions of the hub's log. */
  datatype Span =
    | Outside
    | Member(from: nat)
    | Left(from: nat, to: nat, evicted: bool)

  datatype Client = Client(
    entity: EntityId,
    serve: Serve,
    hub: Option<HubId>,
    buffer: seq<Msg>,
    closed: bool,
    received: seq<Msg>,
    span: Span,
    reader: Reader,
    writer: Writer)
  {
    /** Everything that was ever put on the send channel, in order. */
    function Sent(): seq<Msg> {
      received + buffer
    }

    predicate At(h: HubId) {
      hub == Some(h)
    }
  }

  /** One call of HubManager.Broadcast. */
  datatype SenderState = Started | InLock | Blocked(hub: HubId) | Finished(accepted: bool)
  datatype Sender = Sender(msg: Msg, state: SenderState)

  datatype Owner = Free | ByClient(client: ClientId) | BySender(sender: SenderId) | ByHub(hub: HubId)

  /** panicked records a send on, or a close of, a closed channel. */
  datatype World = World(
    hubs: seq<Hub>,
    clients: seq<Client>,
    senders: seq<Sender>,
    table: map<EntityId, HubId>,
    mu: Owner,
    panicked: bool)

  const INIT := World([], [], [], map[], Free, false)

  datatype Action =
    // ServeWS
    | Connect(entity: EntityId)
    | ClientLock(c: ClientId)
    | ClientGet(c: ClientId)
    | Register(c: ClientId)
    | RegisterFails(c: ClientId)
    // readPump
    | ReadMessage(c: ClientId, payload: Payload)
    | ForwardEnqueue(c: ClientId)
    | ForwardAbort(c: ClientId)
    | ReadFails(c: ClientId)
    | Unregister(c: ClientId)
    | UnregisterSkip(c: ClientId)
    // writePump
    | Drain(c: ClientId)
    | DrainClosed(c: ClientId)
    | WriteFails(c: ClientId)
    // HubManager.Broadcast
    | Submit(entity: EntityId, payload: Payload)
    | SenderLock(s: SenderId)
    | SenderLookup(s: SenderId)
    | SenderEnqueue(s: SenderId)
    | SenderAbort(s: SenderId)
    // Hub.run
    | Dequeue(h: HubId)
    | Deliver(h: HubId, c: ClientId)
    | Check(h: HubId)
    | HubLock(h: HubId)
    | Cleanup(h: HubId)

  // ---------- enabling conditions ----------

  predicate IsClient(w: World, c: ClientId) { c < |w.clients| }

  predicate IsHub(w: World, h: HubId) { h < |w.hubs| }

  predicate IsSender(w: World, s: SenderId) { s < |w.senders| }

  /** The hub field of client c is set, and names a hub. */
  predicate HasHub(w: World, c: ClientId) {
    IsClient(w, c) && w.clients[c].hub.Some? && IsHub(w, w.clients[c].hub.value)
  }

  function HubOf(w: World, c: ClientId): Hub
    requires HasHub(w, c)
  {
    w.hubs[w.clients[c].hub.value]
  }

  predicate Enabled(w: World, a: Action) {
    match a
    case Connect(_) => true
    case ClientLock(c) => IsClient(w, c) && w.clients[c].serve.Lookup? && w.mu == Free
    case ClientGet(c) => IsClient(w, c) && w.clients[c].serve.Locked? && w.mu == ByClient(c)
    case Register(c) => HasHub(w, c) && w.clients[c].serve.Registering? && HubOf(w, c).loop.Idle?
    case RegisterFails(c) => HasHub(w, c) && w.clients[c].serve.Registering? && HubOf(w, c).Stopped()
    case ReadMessage(c, _) => IsClient(w, c) && w.clients[c].reader.Reading?
    case ForwardEnqueue(c) =>
      HasHub(w, c) && w.clients[c].reader.Forwarding? && |HubOf(w, c).queue| < SEND_BUFFER_SIZE
    case ForwardAbort(c) => HasHub(w, c) && w.clients[c].reader.Forwarding? && HubOf(w, c).Stopped()
    case ReadFails(c) => IsClient(w, c) && w.clients[c].reader.Reading?
    case Unregister(c) => HasHub(w, c) && w.clients[c].reader.Leaving? && HubOf(w, c).loop.Idle?
    case UnregisterSkip(c) => HasHub(w, c) && w.clients[c].reader.Leaving? && HubOf(w, c).Stopped()
    case Drain(c) => IsClient(w, c) && w.clients[c].writer.Writing? && w.clients[c].buffer != []
    case DrainClosed(c) =>
      IsClient(w, c) && w.clients[c].writer.Writing? && w.clients[c].buffer == [] && w.clients[c].closed
    case WriteFails(c) => IsClient(w, c) && w.clients[c].writer.Writing?
    case Submit(_, _) => true
    case SenderLock(s) => IsSender(w, s) && w.senders[s].state.Started? && w.mu == Free
    case SenderLookup(s) => IsSender(w, s) && w.senders[s].state.InLock? && w.mu == BySender(s)
    case SenderEnqueue(s) =>
      IsSender(w, s) && w.senders[s].state.Blocked? && IsHub(w, w.senders[s].state.hub)
      && |w.hubs[w.senders[s].state.hub].queue| < SEND_BUFFER_SIZE
    case SenderAbort(s) =>
      IsSender(w, s) && w.senders[s].state.Blocked? && IsHub(w, w.senders[s].state.hub)
      && w.hubs[w.senders[s].state.hub].Stopped()
    case Dequeue(h) => IsHub(w, h) && w.hubs[h].loop.Idle? && w.hubs[h].queue != []
    case Deliver(h, c) =>
      IsHub(w, h) && w.hubs[h].loop.Sweeping? && c in w.hubs[h].loop.todo && IsClient(w, c)
    case Check(h) => IsHub(w, h) && w.hubs[h].loop.Checking?
    case HubLock(h) => IsHub(w, h) && w.hubs[h].loop.Stopping? && w.mu == Free
    case Cleanup(h) => IsHub(w, h) && w.hubs[h].loop.Cleaning? && w.mu == ByHub(h)
  }

  // ---------- effects ----------

  function PutClient(w: World, c: ClientId, x: Client): World
    requires IsClient(w, c)
  {
    w.(clients := w.clients[c := x])
  }

  function PutHub(w: World, h: HubId, x: Hub): World
    requires IsHub(w, h)
  {
    w.(hubs := w.hubs[h := x])
  }

  function PutSender(w: World, s: SenderId, x: SenderState): World
    requires IsSender(w, s)
  {
    w.(senders := w.senders[s := w.senders[s].(state := x)])
  }

  /** close(c.send), which panics on a closed channel; span records how c left. */
  function CloseSend(w: World, c: ClientId, span: Span): World
    requires IsClient(w, c)
  {
    PutClient(w, c, w.clients[c].(closed := true, span := span)).(panicked := w.panicked || w.clients[c].closed)
  }

  /** The log position at which a membership began. */
  function JoinedAt(x: Client): nat {
    if x.span.Outside? then 0 else x.span.from
  }

  function NewHub(e: EntityId, creator: ClientId): Hub {
    Hub(e, creator, {}, [], false, Idle, [])
  }

  function NewClient(e: EntityId): Client {
    Client(e, Lookup(REGISTER_ATTEMPTS), None, [], false, [], Outside, ReaderIdle, WriterIdle)
  }

  /** GetOrCreate and the unlocking of the mutex, for the ServeWS call of client c. */
  function GetOrCreate(w: World, c: ClientId): World
    requires IsClient(w, c) && w.clients[c].serve.Locked?
  {
    var x := w.clients[c];
    var y := x.(serve := Registering(x.serve.left));
    if x.entity in w.table then
      PutClient(w, c, y.(hub := Some(w.table[x.entity]))).(mu := Free)
    else
      PutClient(w, c, y.(hub := Some(|w.hubs|))).(
        hubs := w.hubs + [NewHub(x.entity, c)],
        table := w.table[x.entity := |w.hubs|],
        mu := Free)
  }

  /** onEmpty under the mutex, which it then unlocks. */
  function CleanedUp(w: World, h: HubId): World
    requires IsHub(w, h)
  {
    var e := w.hubs[h].entity;
    PutHub(w, h, w.hubs[h].(loop := Gone)).(
      mu := Free,
      table := if e in w.table && w.table[e] == h then w.table - {e} else w.table)
  }

  function LockedByHub(w: World, h: HubId): World
    requires IsHub(w, h)
  {
    PutHub(w, h, w.hubs[h].(loop := Cleaning)).(mu := ByHub(h))
  }

  /** run takes the oldest message and starts its loop over h.clients. */
  function Dequeued(hub: Hub): Hub
    requires hub.queue != []
  {
    hub.(
      queue := hub.queue[1..],
      log := hub.log + [hub.queue[0]],
      loop := if hub.clients == {} then Checking else Sweeping(hub.queue[0], hub.clients))
  }

  /** The loop over h.clients has been through c. */
  function AfterTurn(hub: Hub, c: ClientId): Loop
    requires hub.loop.Sweeping?
  {
    var todo := hub.loop.todo - {c};
    if todo == {} then Checking else Sweeping(hub.loop.msg, todo)
  }

  /** One turn of the loop over h.clients: a non-blocking send, or eviction. */
  function DeliverTo(w: World, h: HubId, c: ClientId): World
    requires Enabled(w, Deliver(h, c))
  {
    var hub := w.hubs[h];
    var x := w.clients[c];
    var next := AfterTurn(hub, c);
    if x.closed then
      w.(panicked := true)
    else if |x.buffer| < SEND_BUFFER_SIZE then
      PutHub(PutClient(w, c, x.(buffer := x.buffer + [hub.loop.msg])), h, hub.(loop := next))
    else
      PutHub(CloseSend(w, c, Left(JoinedAt(x), if |hub.log| == 0 then 0 else |hub.log| - 1, true)),
             h, hub.(loop := next, clients := hub.clients - {c}))
  }

  /** The unregister case of run, up to the test for an empty hub. */
  function UnregisterFrom(w: World, h: HubId, c: ClientId): World
    requires IsHub(w, h) && IsClient(w, c)
  {
    var hub := w.hubs[h];
    if c in hub.clients then
      PutHub(CloseSend(w, c, Left(JoinedAt(w.clients[c]), |hub.log|, false)),
             h, hub.(loop := Checking, clients := hub.clients - {c}))
    else
      PutHub(w, h, hub.(loop := Checking))
  }

  function SetReader(w: World, c: ClientId, r: Reader): World
    requires IsClient(w, c)
  {
    PutClient(w, c, w.clients[c].(reader := r))
  }

  function SetServe(w: World, c: ClientId, s: Serve): World
    requires IsClient(w, c)
  {
    PutClient(w, c, w.clients[c].(serve := s))
  }

  function Enqueue(w: World, h: HubId, m: Msg): World
    requires IsHub(w, h)
  {
    PutHub(w, h, w.hubs[h].(queue := w.hubs[h].queue + [m]))
  }

  function Apply(w: World, a: Action): World
    requires Enabled(w, a)
  {
    match a
    case Connect(e) =>
      w.(clients := w.clients + [NewClient(e)])
    case ClientLock(c) => SetServe(w, c, Locked(w.clients[c].serve.left)).(mu := ByClient(c))
    case ClientGet(c) => GetOrCreate(w, c)
    case Register(c) =>
      var h := w.clients[c].hub.value;
      var hub := w.hubs[h];
      PutHub(
        PutClient(w, c, w.clients[c].(serve := Joined, span := Member(|hub.log|), reader := Reading, writer := Writing)),
        h, hub.(hadClients := true, clients := hub.clients + {c}))
    case RegisterFails(c) =>
      var left := w.clients[c].serve.left;
      SetServe(w, c, if left > 1 then Lookup(left - 1) else Failed)
    case ReadMessage(c, p) => SetReader(w, c, Forwarding(Msg(w.clients[c].entity, p)))
    case ForwardEnqueue(c) =>
      SetReader(Enqueue(w, w.clients[c].hub.value, w.clients[c].reader.msg), c, Reading)
    case ForwardAbort(c) => SetReader(w, c, Reading)
    case ReadFails(c) => SetReader(w, c, Leaving)
    case Unregister(c) => SetReader(UnregisterFrom(w, w.clients[c].hub.value, c), c, ReaderDone)
    case UnregisterSkip(c) => SetReader(w, c, ReaderDone)
    case Drain(c) =>
      var x := w.clients[c];
      PutClient(w, c, x.(received := x.received + [x.buffer[0]], buffer := x.buffer[1..]))
    case DrainClosed(c) => PutClient(w, c, w.clients[c].(writer := WriterDone))
    case WriteFails(c) => PutClient(w, c, w.clients[c].(writer := WriterDone))
    case Submit(e, p) => w.(senders := w.senders + [Sender(Msg(e, p), Started)])
    case SenderLock(s) => PutSender(w, s, InLock).(mu := BySender(s))
    case SenderLookup(s) =>
      var e := w.senders[s].msg.entity;
      PutSender(w, s, if e in w.table then Blocked(w.table[e]) else Finished(false)).(mu := Free)
    case SenderEnqueue(s) =>
      PutSender(Enqueue(w, w.senders[s].state.hub, w.senders[s].msg), s, Finished(true))
    case SenderAbort(s) => PutSender(w, s, Finished(false))
    case Dequeue(h) =>
      PutHub(w, h, Dequeued(w.hubs[h]))
    case Deliver(h, c) => DeliverTo(w, h, c)
    case Check(h) =>
      var hub := w.hubs[h];
      PutHub(w, h, hub.(loop := if hub.hadClients && hub.clients == {} then Stopping else Idle))
    case HubLock(h) => LockedByHub(w, h)
    case Cleanup(h) => CleanedUp(w, h)
  }

  // ---------- runs ----------

  /** acts takes w to w', each action enabled when it is taken. */
  ghost predicate Steps(w: World, acts: seq<Action>, w': World)
    decreases |acts|
  {
    if acts == [] then w == w'
    else Enabled(w, acts[0]) && Steps(Apply(w, acts[0]), acts[1..], w')
  }

  ghost predicate Reachable(w: World) {
    exists acts :: Steps(INIT, acts, w)
  }
}

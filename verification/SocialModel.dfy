/** Friendships, devices and delegations: the tables, the steps of the services on
    them, and the views that different queries give of them. */
module SocialModel {
  import opened Wire

  type FriendshipId = nat
  type DeviceId = nat

  datatype Status = Pending | Accepted

  datatype Friendship = Friendship(requester: UserId, addressee: UserId, status: Status) {
    predicate Between(a: UserId, b: UserId) {
      (requester == a && addressee == b) || (requester == b && addressee == a)
    }
  }

  datatype Device = Device(owner: UserId, model: string, created: nat)

  datatype Delegation = Delegation(owner: UserId, delegate: UserId, created: nat, revoked: Option<nat>)

  /** The rows of delegations are grouped by device, each group in the order of commit;
      no query relies on that order. */
  datatype State = State(
    friends: map<FriendshipId, Friendship>,
    devices: map<DeviceId, Device>,
    rows: map<DeviceId, seq<Delegation>>)

  const INIT_STATE := State(map[], map[], map[])

  datatype Answer =
    | Ok
    | CannotFriendSelf
    | FriendshipExists
    | FriendshipNotFound
    | NotAddressee
    | NotParticipant
    | NotPending
    | DeviceExists
    | DeviceNotFound
    | NotFriends

  // ---------- reads ----------

  predicate HasRow(s: State, a: UserId, b: UserId) {
    exists f :: f in s.friends && s.friends[f].Between(a, b)
  }

  predicate IsFriend(s: State, a: UserId, b: UserId) {
    exists f :: f in s.friends && s.friends[f].Between(a, b) && s.friends[f].status == Accepted
  }

  predicate OwnsDevice(s: State, d: DeviceId, u: UserId) {
    d in s.devices && s.devices[d].owner == u
  }

  function RowsOf(s: State, d: DeviceId): seq<Delegation> {
    if d in s.rows then s.rows[d] else []
  }

  /** Row i of the device is active. */
  predicate IsOpen(rows: seq<Delegation>, i: int) {
    0 <= i < |rows| && rows[i].revoked == None
  }

  predicate DelegatedTo(rows: seq<Delegation>, u: UserId) {
    exists i :: 0 <= i < |rows| && IsOpen(rows, i) && rows[i].delegate == u
  }

  predicate IsAuthorized(s: State, d: DeviceId, u: UserId) {
    OwnsDevice(s, d, u) || DelegatedTo(RowsOf(s, d), u)
  }

  /** The join of devices and active delegations of u. */
  predicate InDelegated(s: State, d: DeviceId, u: UserId) {
    d in s.devices && DelegatedTo(RowsOf(s, d), u)
  }

  /** ORDER BY created_at DESC among the active rows. */
  ghost predicate IsNewest(rows: seq<Delegation>, i: int) {
    IsOpen(rows, i) && forall j :: IsOpen(rows, j) ==> rows[j].created <= rows[i].created
  }

  /** The owner's list shows u as the delegate of d: the newest active row is u's. */
  ghost predicate Shown(s: State, d: DeviceId, u: UserId) {
    d in s.devices && exists i :: IsNewest(RowsOf(s, d), i) && RowsOf(s, d)[i].delegate == u
  }

  // ---------- friendships ----------

  function SendRequest(s: State, id: FriendshipId, from: UserId, to: UserId): (State, Answer) {
    if from == to then (s, CannotFriendSelf)
    else if HasRow(s, from, to) then (s, FriendshipExists)
    else (s.(friends := s.friends[id := Friendship(from, to, Pending)]), Ok)
  }

  function AcceptRequest(s: State, id: FriendshipId, caller: UserId): (State, Answer) {
    if id !in s.friends then (s, FriendshipNotFound)
    else if s.friends[id].addressee != caller then (s, NotAddressee)
    else if s.friends[id].status != Pending then (s, NotPending)
    else (s.(friends := s.friends[id := s.friends[id].(status := Accepted)]), Ok)
  }

  function RejectRequest(s: State, id: FriendshipId, caller: UserId): (State, Answer) {
    if id !in s.friends then (s, FriendshipNotFound)
    else if s.friends[id].addressee != caller then (s, NotAddressee)
    else if s.friends[id].status != Pending then (s, NotPending)
    else (s.(friends := s.friends - {id}), Ok)
  }

  function Unfriend(s: State, id: FriendshipId, caller: UserId): (State, Answer) {
    if id !in s.friends then (s, FriendshipNotFound)
    else if s.friends[id].requester != caller && s.friends[id].addressee != caller then (s, NotParticipant)
    else if s.friends[id].status == Pending && s.friends[id].requester != caller then (s, NotParticipant)
    else (s.(friends := s.friends - {id}), Ok)
  }

  // ---------- devices ----------

  function RegisterDevice(s: State, id: DeviceId, u: UserId, model: string, now: nat): (State, Answer) {
    if exists d :: d in s.devices && s.devices[d].owner == u && s.devices[d].model == model then (s, DeviceExists)
    else (s.(devices := s.devices[id := Device(u, model, now)], rows := s.rows[id := []]), Ok)
  }

  /** ON DELETE CASCADE takes the delegations of the device along. */
  function DeleteDevice(s: State, d: DeviceId, u: UserId): (State, Answer) {
    if !OwnsDevice(s, d, u) then (s, DeviceNotFound)
    else (s.(devices := s.devices - {d}, rows := s.rows - {d}), Ok)
  }

  // ---------- delegations, one transaction at a time ----------

  /** UPDATE delegations SET revoked_at = now for the rows with these numbers. */
  function Close(rows: seq<Delegation>, which: set<nat>, now: nat): (r: seq<Delegation>)
    ensures |r| == |rows|
  {
    seq(|rows|, i requires 0 <= i < |rows| => if i in which then rows[i].(revoked := Some(now)) else rows[i])
  }

  /** The active rows among the first upto. */
  function OpenRows(rows: seq<Delegation>, upto: nat): set<nat> {
    set i: nat | i < |rows| && i < upto && IsOpen(rows, i)
  }

  /** Both statements see the time at which their transaction began. */
  function Grant(s: State, d: DeviceId, owner: UserId, friend: UserId, start: nat): (State, Answer) {
    if !OwnsDevice(s, d, owner) then (s, DeviceNotFound)
    else if !IsFriend(s, owner, friend) then (s, NotFriends)
    else
      var rows := RowsOf(s, d);
      (s.(rows := s.rows[d := Close(rows, OpenRows(rows, |rows|), start) + [Delegation(owner, friend, start, None)]]), Ok)
  }

  function Revoke(s: State, d: DeviceId, owner: UserId, start: nat): (State, Answer) {
    if !OwnsDevice(s, d, owner) then (s, DeviceNotFound)
    else (s.(rows := s.rows[d := Close(RowsOf(s, d), OpenRows(RowsOf(s, d), |RowsOf(s, d)|), start)]), Ok)
  }

  // ---------- requests that are one statement, or taken as one step ----------

  datatype Request =
    | Send(id: FriendshipId, from: UserId, to: UserId)
    | Accept(id: FriendshipId, caller: UserId)
    | Reject(id: FriendshipId, caller: UserId)
    | Leave(id: FriendshipId, caller: UserId)
    | Register(device: DeviceId, user: UserId, model: string, now: nat)
    | Remove(device: DeviceId, user: UserId)

  /** New rows get new identifiers. */
  predicate Bound(s: State, r: Request) {
    && (r.Send? ==> r.id !in s.friends)
    && (r.Register? ==> r.device !in s.devices)
  }

  function Serve(s: State, r: Request): (State, Answer) {
    match r
    case Send(id, from, to) => SendRequest(s, id, from, to)
    case Accept(id, caller) => AcceptRequest(s, id, caller)
    case Reject(id, caller) => RejectRequest(s, id, caller)
    case Leave(id, caller) => Unfriend(s, id, caller)
    case Register(d, u, model, now) => RegisterDevice(s, d, u, model, now)
    case Remove(d, u) => DeleteDevice(s, d, u)
  }
}

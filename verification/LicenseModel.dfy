/** Events and the license that guards suggesting and voting. Absent columns are
    None; a dereference of an absent one is an outcome of its own. */
module LicenseModel {
  import opened Wire

  type EventId = nat

  datatype Event = Event(
    owner: UserId,
    open: bool,
    license: int,
    lat: Option<real>,
    lng: Option<real>,
    radius: Option<real>,
    voteStart: Option<int>,
    voteEnd: Option<int>)

  /** A create or update request; license and open are absent only in updates. */
  datatype Fields = Fields(
    open: Option<bool>,
    license: Option<int>,
    lat: Option<real>,
    lng: Option<real>,
    radius: Option<real>,
    voteStart: Option<int>,
    voteEnd: Option<int>)

  datatype Store = Store(events: map<EventId, Event>, invites: set<(EventId, UserId)>)

  datatype Answer = Ok | EventNotFound | InvalidLicense | AlreadyInvited | UserNotFound

  // ---------- storing ----------

  predicate AllGiven(f: Fields) {
    f.lat.Some? && f.lng.Some? && f.radius.Some? && f.voteStart.Some? && f.voteEnd.Some?
  }

  /** validateLicense */
  predicate ValidLicense(license: int, f: Fields) {
    license == 2 ==> AllGiven(f)
  }

  /** COALESCE, and the CASE expressions of the update. */
  function Merge<T>(given: Option<T>, stored: Option<T>): Option<T> {
    if given.Some? then given else stored
  }

  function Create(s: Store, id: EventId, owner: UserId, f: Fields): (Store, Answer)
    requires f.license.Some? && f.open.Some?
  {
    if !ValidLicense(f.license.value, f) then (s, InvalidLicense)
    else
      (s.(events := s.events[id :=
            Event(owner, f.open.value, f.license.value, f.lat, f.lng, f.radius, f.voteStart, f.voteEnd)]), Ok)
  }

  function Updated(e: Event, f: Fields): Event {
    Event(e.owner,
          if f.open.Some? then f.open.value else e.open,
          if f.license.Some? then f.license.value else e.license,
          Merge(f.lat, e.lat), Merge(f.lng, e.lng), Merge(f.radius, e.radius),
          Merge(f.voteStart, e.voteStart), Merge(f.voteEnd, e.voteEnd))
  }

  predicate Owns(s: Store, id: EventId, caller: UserId) {
    id in s.events && s.events[id].owner == caller
  }

  /** GetAccessible: public, or owned, or invited. */
  predicate Accessible(s: Store, id: EventId, caller: UserId) {
    id in s.events && (s.events[id].open || s.events[id].owner == caller || (id, caller) in s.invites)
  }

  function Update(s: Store, id: EventId, caller: UserId, f: Fields): (Store, Answer) {
    if !Owns(s, id, caller) then (s, EventNotFound)
    else if f.license.Some? && !ValidLicense(f.license.value, f) then (s, InvalidLicense)
    else (s.(events := s.events[id := Updated(s.events[id], f)]), Ok)
  }

  function Delete(s: Store, id: EventId, caller: UserId): (Store, Answer) {
    if !Owns(s, id, caller) then (s, EventNotFound)
    else (Store(s.events - {id}, set i | i in s.invites && i.0 != id), Ok)
  }

  /** known tells whether the guest is a user, which the foreign key asks for. */
  function Invite(s: Store, id: EventId, caller: UserId, guest: UserId, known: bool): (Store, Answer) {
    if !Owns(s, id, caller) then (s, EventNotFound)
    else if (id, guest) in s.invites then (s, AlreadyInvited)
    else if !known then (s, UserNotFound)
    else (s.(invites := s.invites + {(id, guest)}), Ok)
  }

  datatype Request =
    | CreateEvent(id: EventId, owner: UserId, fields: Fields)
    | UpdateEvent(id: EventId, caller: UserId, fields: Fields)
    | DeleteEvent(id: EventId, caller: UserId)
    | InviteUser(id: EventId, caller: UserId, guest: UserId, known: bool)

  predicate Bound(s: Store, r: Request) {
    r.CreateEvent? ==> r.id !in s.events && r.fields.license.Some? && r.fields.open.Some?
  }

  function Handle(s: Store, r: Request): (Store, Answer)
    requires Bound(s, r)
  {
    match r
    case CreateEvent(id, owner, f) => Create(s, id, owner, f)
    case UpdateEvent(id, caller, f) => Update(s, id, caller, f)
    case DeleteEvent(id, caller) => Delete(s, id, caller)
    case InviteUser(id, caller, guest, known) => Invite(s, id, caller, guest, known)
  }

  // ---------- enforcing ----------

  datatype Gps = Gps(lat: Option<real>, lng: Option<real>)

  datatype Verdict = Allowed | NotInvited | MissingCoords | OutOfRange | VotingClosed | NilDereference

  /** The distance is whatever function the service computes. */
  type Distance = (real, real, real, real) -> real

  function Enforce(e: Event, caller: UserId, invited: bool, gps: Gps, now: int, km: Distance): Verdict {
    if caller == e.owner then Allowed
    else if e.license == 1 then (if invited then Allowed else NotInvited)
    else if e.license == 2 then
      if gps.lat == None || gps.lng == None then MissingCoords
      else if e.lat == None || e.lng == None || e.radius == None then NilDereference
      else if km(gps.lat.value, gps.lng.value, e.lat.value, e.lng.value) > e.radius.value then OutOfRange
      else if e.voteStart == None then NilDereference
      else if now < e.voteStart.value then VotingClosed
      else if e.voteEnd == None then NilDereference
      else if now > e.voteEnd.value then VotingClosed
      else Allowed
    else Allowed
  }

  // ---------- completeness ----------

  predicate Complete(e: Event) {
    e.license == 2 ==>
      e.lat.Some? && e.lng.Some? && e.radius.Some? && e.voteStart.Some? && e.voteEnd.Some?
  }

  ghost predicate History(ss: seq<Store>, rs: seq<Request>) {
    && |ss| == |rs| + 1 && ss[0].events == map[]
    && (forall i {:trigger rs[i]} :: 0 <= i < |rs| ==> Bound(ss[i], rs[i]) && ss[i + 1] == Handle(ss[i], rs[i]).0)
  }

  /** Every event ever stored with license 2 has all five values. */
  lemma {:induction false} CompleteForever(ss: seq<Store>, rs: seq<Request>, i: nat, id: EventId)
    requires History(ss, rs) && i < |ss| && id in ss[i].events
    ensures Complete(ss[i].events[id])
  {
    if i > 0 {
      assert ss[i] == Handle(ss[i - 1], rs[i - 1]).0;
      if id in ss[i - 1].events {
        CompleteForever(ss, rs, i - 1, id);
      }
    }
  }

  /** So no request against a stored event dereferences nil. */
  lemma EnforceNeverNil(ss: seq<Store>, rs: seq<Request>, i: nat, id: EventId,
                        caller: UserId, invited: bool, gps: Gps, now: int, km: Distance)
    requires History(ss, rs) && i < |ss| && id in ss[i].events
    ensures Enforce(ss[i].events[id], caller, invited, gps, now, km) != NilDereference
  {
    CompleteForever(ss, rs, i, id);
  }

  /** Completeness is exactly what is needed: without it some caller would hit nil. */
  lemma SafeIffComplete(e: Event)
    ensures Complete(e) <==>
            forall caller: UserId, invited: bool, gps: Gps, now: int, km: Distance ::
              Enforce(e, caller, invited, gps, now, km) != NilDereference
  {
    if !Complete(e) {
      var near: Distance := (a: real, b: real, c: real, d: real) => if e.radius.Some? then e.radius.value else 0.0;
      var now := if e.voteStart.Some? then e.voteStart.value else 0;
      assert Enforce(e, e.owner + 1, false, Gps(Some(0.0), Some(0.0)), now, near) == NilDereference;
    }
  }

  /** Who may suggest and vote. */
  lemma AllowedIff(e: Event, caller: UserId, invited: bool, gps: Gps, now: int, km: Distance)
    requires Complete(e)
    ensures Enforce(e, caller, invited, gps, now, km) == Allowed <==>
            || caller == e.owner
            || (e.license == 1 && invited)
            || (e.license == 2 && gps.lat.Some? && gps.lng.Some?
                && km(gps.lat.value, gps.lng.value, e.lat.value, e.lng.value) <= e.radius.value
                && e.voteStart.value <= now <= e.voteEnd.value)
            || (e.license != 1 && e.license != 2)
  {
  }

  /** An update is answered from the request alone: setting license 2 needs all five
      values again, although the row may already have them; it never clears a value. */
  lemma UpdateSucceedsIff(s: Store, id: EventId, caller: UserId, f: Fields)
    ensures Update(s, id, caller, f).1 == Ok <==> Owns(s, id, caller) && (f.license == Some(2) ==> AllGiven(f))
    ensures id in s.events && Update(s, id, caller, f).1 == Ok ==>
              var before, after := s.events[id], Update(s, id, caller, f).0.events[id];
              && after.owner == before.owner
              && (before.lat.Some? ==> after.lat.Some?) && (before.lng.Some? ==> after.lng.Some?)
              && (before.radius.Some? ==> after.radius.Some?)
              && (before.voteStart.Some? ==> after.voteStart.Some?) && (before.voteEnd.Some? ==> after.voteEnd.Some?)
    ensures Update(s, id, caller, f).1 != Ok ==> Update(s, id, caller, f).0 == s
  {
  }
}

/** What each call of the event service answers, what every column holds after it, and
    who is invited. */
module EventOutcomes {
  import opened Wire
  import opened LicenseModel

  // ---------- columns ----------

  /** Every event but id, and every invitation, is as before. */
  ghost predicate OnlyEvent(s: Store, s': Store, id: EventId) {
    && s'.invites == s.invites && s'.events.Keys == s.events.Keys + {id}
    && (forall k :: k in s.events && k != id ==> s'.events[k] == s.events[k])
  }

  /** A column after an update: what the request gives, or else what was there. */
  predicate Overwrites<T(==)>(given: Option<T>, before: Option<T>, after: Option<T>) {
    match given
    case Some(value) => after == Some(value)
    case None => after == before
  }

  predicate EachOverwritten(f: Fields, before: Event, after: Event) {
    && after.owner == before.owner
    && Overwrites(f.open, Some(before.open), Some(after.open))
    && Overwrites(f.license, Some(before.license), Some(after.license))
    && Overwrites(f.lat, before.lat, after.lat)
    && Overwrites(f.lng, before.lng, after.lng)
    && Overwrites(f.radius, before.radius, after.radius)
    && Overwrites(f.voteStart, before.voteStart, after.voteStart)
    && Overwrites(f.voteEnd, before.voteEnd, after.voteEnd)
  }

  /** A creation stores every column of the request as it is, under the caller's name. It
      is refused exactly when license 2 comes without one of its five values. */
  lemma CreateMeans(s: Store, id: EventId, owner: UserId, f: Fields)
    requires id !in s.events && f.license.Some? && f.open.Some?
    ensures var (s', a) := Create(s, id, owner, f);
            && (a == Ok || a == InvalidLicense) && (a == Ok <==> (f.license == Some(2) ==> AllGiven(f))) && (a != Ok ==> s' == s)
            && (a == Ok ==>
                  && OnlyEvent(s, s', id) && s'.events[id].owner == owner
                  && Some(s'.events[id].open) == f.open && Some(s'.events[id].license) == f.license
                  && s'.events[id].lat == f.lat && s'.events[id].lng == f.lng && s'.events[id].radius == f.radius
                  && s'.events[id].voteStart == f.voteStart && s'.events[id].voteEnd == f.voteEnd)
  {
  }

  /** An update stores each value that the request gives, keeps each that it does not
      give, and changes neither the owner nor anything else. */
  lemma UpdateMeans(s: Store, id: EventId, caller: UserId, f: Fields)
    ensures var (s', a) := Update(s, id, caller, f);
            && (a == EventNotFound <==> !Owns(s, id, caller))
            && (a == InvalidLicense <==> Owns(s, id, caller) && f.license == Some(2) && !AllGiven(f))
            && (a == Ok <==> Owns(s, id, caller) && (f.license == Some(2) ==> AllGiven(f))) && (a != Ok ==> s' == s)
            && (a == Ok ==>
                  && OnlyEvent(s, s', id) && id in s.events && EachOverwritten(f, s.events[id], s'.events[id]))
  {
  }

  /** The owner alone deletes an event, and its invitations go with it. */
  lemma DeleteMeans(s: Store, id: EventId, caller: UserId)
    ensures var (s', a) := Delete(s, id, caller);
            && (a == Ok <==> Owns(s, id, caller)) && (a == EventNotFound <==> !Owns(s, id, caller)) && (a != Ok ==> s' == s)
            && (a == Ok ==>
                  && s'.events.Keys == s.events.Keys - {id}
                  && (forall k :: k in s'.events ==> s'.events[k] == s.events[k])
                  && (forall k, u :: (k, u) in s'.invites <==> (k, u) in s.invites && k != id))
  {
  }

  /** The owner invites a known user who has no invitation yet. */
  lemma InviteMeans(s: Store, id: EventId, caller: UserId, guest: UserId, known: bool)
    ensures var (s', a) := Invite(s, id, caller, guest, known);
            && (a == EventNotFound <==> !Owns(s, id, caller))
            && (a == AlreadyInvited <==> Owns(s, id, caller) && (id, guest) in s.invites)
            && (a == UserNotFound <==> Owns(s, id, caller) && (id, guest) !in s.invites && !known)
            && (a == Ok <==> Owns(s, id, caller) && (id, guest) !in s.invites && known)
            && s'.events == s.events
            && (forall k, u :: (k, u) in s'.invites <==> (k, u) in s.invites || (a == Ok && k == id && u == guest))
  {
  }

  // ---------- verdicts ----------

  predicate Near(e: Event, gps: Gps, km: Distance)
    requires Complete(e) && e.license == 2 && gps.lat.Some? && gps.lng.Some?
  {
    km(gps.lat.value, gps.lng.value, e.lat.value, e.lng.value) <= e.radius.value
  }

  /** Which verdict is given when, for every stored event; the owner is always allowed. */
  lemma VerdictIff(e: Event, caller: UserId, invited: bool, gps: Gps, now: int, km: Distance)
    requires Complete(e)
    ensures var v := Enforce(e, caller, invited, gps, now, km);
            var guarded := caller != e.owner && e.license == 2;
            var located := gps.lat.Some? && gps.lng.Some?;
            && (v == NotInvited <==> caller != e.owner && e.license == 1 && !invited)
            && (v == MissingCoords <==> guarded && !located)
            && (v == OutOfRange <==> guarded && located && !Near(e, gps, km))
            && (v == VotingClosed <==>
                  guarded && located && Near(e, gps, km) && !(e.voteStart.value <= now <= e.voteEnd.value))
  {
  }

  // ---------- over histories ----------

  /** Request i invites u to the event. */
  predicate Invited(ss: seq<Store>, rs: seq<Request>, i: nat, id: EventId, u: UserId)
    requires i < |rs| && i < |ss|
  {
    rs[i].InviteUser? && rs[i].id == id && rs[i].guest == u && rs[i].known && Owns(ss[i], id, rs[i].caller)
  }

  /** Request k deletes the event. */
  predicate Deleted(ss: seq<Store>, rs: seq<Request>, k: nat, id: EventId)
    requires k < |rs| && k < |ss|
  {
    rs[k].DeleteEvent? && rs[k].id == id && Owns(ss[k], id, rs[k].caller)
  }

  ghost predicate InvitedSince(ss: seq<Store>, rs: seq<Request>, n: nat, id: EventId, u: UserId)
    requires n <= |rs| < |ss|
  {
    exists i :: 0 <= i < n && Invited(ss, rs, i, id, u) && forall k :: i < k < n ==> !Deleted(ss, rs, k, id)
  }

  lemma InviteStep(s: Store, r: Request, id: EventId, u: UserId)
    requires Bound(s, r)
    ensures (id, u) in Handle(s, r).0.invites <==>
            || (r.InviteUser? && r.id == id && r.guest == u && r.known && Owns(s, id, r.caller))
            || ((id, u) in s.invites && !(r.DeleteEvent? && r.id == id && Owns(s, id, r.caller)))
  {
    if r.DeleteEvent? {
      DeleteMeans(s, r.id, r.caller);
    } else if r.InviteUser? {
      InviteMeans(s, r.id, r.caller, r.guest, r.known);
    }
  }

  /** Whoever counts as invited was invited by the owner, and the event has not been
      deleted since; and whoever was so invited counts as invited. */
  lemma {:induction false} InvitedIff(ss: seq<Store>, rs: seq<Request>, n: nat, id: EventId, u: UserId)
    requires History(ss, rs) && ss[0].invites == {} && n < |ss|
    ensures (id, u) in ss[n].invites <==> InvitedSince(ss, rs, n, id, u)
  {
    if n > 0 {
      InvitedIff(ss, rs, n - 1, id, u);
      assert ss[n] == Handle(ss[n - 1], rs[n - 1]).0;
      InviteStep(ss[n - 1], rs[n - 1], id, u);
      if Invited(ss, rs, n - 1, id, u) {
        assert InvitedSince(ss, rs, n, id, u);
      } else if InvitedSince(ss, rs, n - 1, id, u) && !Deleted(ss, rs, n - 1, id) {
        var i :| 0 <= i < n - 1 && Invited(ss, rs, i, id, u) && forall k :: i < k < n - 1 ==> !Deleted(ss, rs, k, id);
        assert InvitedSince(ss, rs, n, id, u);
      } else {
        assert !InvitedSince(ss, rs, n, id, u);
      }
    }
  }

  // ---------- the latest value of a column ----------

  /** Request i is the creation of the event or an update of it that succeeds. */
  predicate Writes(ss: seq<Store>, rs: seq<Request>, i: nat, id: EventId)
    requires i < |rs| && i < |ss|
  {
    && (rs[i].CreateEvent? || (rs[i].UpdateEvent? && Owns(ss[i], id, rs[i].caller))) && rs[i].id == id
    && (rs[i].fields.license == Some(2) ==> AllGiven(rs[i].fields))
  }

  datatype Column = Visibility | License | Lat | Lng | Radius | VoteStart | VoteEnd

  datatype Value = Flag(flag: bool) | Number(number: int) | Measure(measure: real)

  function AsMeasure(r: Option<real>): Option<Value> {
    match r case Some(x) => Some(Measure(x)) case None => None
  }

  function AsNumber(n: Option<int>): Option<Value> {
    match n case Some(x) => Some(Number(x)) case None => None
  }

  function Stored(e: Event, c: Column): Option<Value> {
    match c
    case Visibility => Some(Flag(e.open))
    case License => Some(Number(e.license))
    case Lat => AsMeasure(e.lat)
    case Lng => AsMeasure(e.lng)
    case Radius => AsMeasure(e.radius)
    case VoteStart => AsNumber(e.voteStart)
    case VoteEnd => AsNumber(e.voteEnd)
  }

  function Given(f: Fields, c: Column): Option<Value> {
    match c
    case Visibility => if f.open.Some? then Some(Flag(f.open.value)) else None
    case License => AsNumber(f.license)
    case Lat => AsMeasure(f.lat)
    case Lng => AsMeasure(f.lng)
    case Radius => AsMeasure(f.radius)
    case VoteStart => AsNumber(f.voteStart)
    case VoteEnd => AsNumber(f.voteEnd)
  }

  /** Request k gives the event a value for the column. */
  predicate Sets(ss: seq<Store>, rs: seq<Request>, k: nat, id: EventId, c: Column)
    requires k < |rs| && k < |ss|
  {
    Writes(ss, rs, k, id) && Given(rs[k].fields, c).Some?
  }

  lemma ColumnStep(ss: seq<Store>, rs: seq<Request>, k: nat, id: EventId, c: Column)
    requires History(ss, rs) && k < |rs|
    ensures Sets(ss, rs, k, id, c) ==>
              id in ss[k + 1].events && Stored(ss[k + 1].events[id], c) == Given(rs[k].fields, c)
    ensures id in ss[k].events && !Deleted(ss, rs, k, id) && !Sets(ss, rs, k, id, c) ==>
              id in ss[k + 1].events && Stored(ss[k + 1].events[id], c) == Stored(ss[k].events[id], c)
  {
    assert ss[k + 1] == Handle(ss[k], rs[k]).0;
    match rs[k]
    case CreateEvent(i, owner, f) => CreateMeans(ss[k], i, owner, f);
    case UpdateEvent(i, caller, f) => UpdateMeans(ss[k], i, caller, f);
    case DeleteEvent(i, caller) => DeleteMeans(ss[k], i, caller);
    case InviteUser(i, caller, guest, known) => InviteMeans(ss[k], i, caller, guest, known);
  }

  /** Every column of a stored event holds the value that was given to it last. */
  lemma {:induction false} LatestValue(ss: seq<Store>, rs: seq<Request>, i: nat, n: nat, id: EventId, c: Column)
    requires History(ss, rs) && i < n < |ss| && Sets(ss, rs, i, id, c)
    requires forall k :: i < k < n ==> !Deleted(ss, rs, k, id) && !Sets(ss, rs, k, id, c)
    ensures id in ss[n].events && Stored(ss[n].events[id], c) == Given(rs[i].fields, c)
    decreases n
  {
    ColumnStep(ss, rs, n - 1, id, c);
    if i < n - 1 {
      assert !Deleted(ss, rs, n - 1, id) && !Sets(ss, rs, n - 1, id, c);
      LatestValue(ss, rs, i, n - 1, id, c);
    }
  }

  // ---------- who sees an event ----------

  /** Before n the event was created by u, and it was not deleted since. */
  ghost predicate CreatedBy(ss: seq<Store>, rs: seq<Request>, n: nat, id: EventId, u: UserId)
    requires n <= |rs| < |ss|
  {
    exists i :: 0 <= i < n && Writes(ss, rs, i, id) && rs[i].CreateEvent? && rs[i].owner == u
                && forall k :: i < k < n ==> !Deleted(ss, rs, k, id)
  }

  /** Before n the event was made public, and it was neither deleted nor made private since. */
  ghost predicate PublicSince(ss: seq<Store>, rs: seq<Request>, n: nat, id: EventId)
    requires n <= |rs| < |ss|
  {
    exists i :: 0 <= i < n && Writes(ss, rs, i, id) && rs[i].fields.open == Some(true)
                && forall k :: i < k < n ==> !Deleted(ss, rs, k, id) && !(Writes(ss, rs, k, id) && rs[k].fields.open == Some(false))
  }

  lemma OwnerStep(s: Store, r: Request, id: EventId, u: UserId)
    requires Bound(s, r)
    ensures Owns(Handle(s, r).0, id, u) <==>
            || (r.CreateEvent? && r.id == id && r.owner == u && (r.fields.license == Some(2) ==> AllGiven(r.fields)))
            || (Owns(s, id, u) && !(r.DeleteEvent? && r.id == id && Owns(s, id, r.caller)))
  {
  }

  lemma {:induction false} OwnsIff(ss: seq<Store>, rs: seq<Request>, n: nat, id: EventId, u: UserId)
    requires History(ss, rs) && n < |ss|
    ensures Owns(ss[n], id, u) <==> CreatedBy(ss, rs, n, id, u)
  {
    if n > 0 {
      OwnsIff(ss, rs, n - 1, id, u);
      assert ss[n] == Handle(ss[n - 1], rs[n - 1]).0;
      OwnerStep(ss[n - 1], rs[n - 1], id, u);
      if CreatedBy(ss, rs, n - 1, id, u) && !Deleted(ss, rs, n - 1, id) {
        var i :| 0 <= i < n - 1 && Writes(ss, rs, i, id) && rs[i].CreateEvent? && rs[i].owner == u
          && forall k :: i < k < n - 1 ==> !Deleted(ss, rs, k, id);
        assert CreatedBy(ss, rs, n, id, u);
      }
    }
  }

  predicate IsPublic(s: Store, id: EventId) {
    id in s.events && s.events[id].open
  }

  lemma PublicStep(s: Store, r: Request, id: EventId)
    requires Bound(s, r)
    ensures var writes := (r.CreateEvent? || (r.UpdateEvent? && Owns(s, id, r.caller))) && r.id == id
                          && (r.fields.license == Some(2) ==> AllGiven(r.fields));
            IsPublic(Handle(s, r).0, id) <==>
            || (writes && r.fields.open == Some(true))
            || (IsPublic(s, id) && !(writes && r.fields.open == Some(false))
                && !(r.DeleteEvent? && r.id == id && Owns(s, id, r.caller)))
  {
  }

  lemma {:induction false} PublicIff(ss: seq<Store>, rs: seq<Request>, n: nat, id: EventId)
    requires History(ss, rs) && n < |ss|
    ensures IsPublic(ss[n], id) <==> PublicSince(ss, rs, n, id)
  {
    if n > 0 {
      PublicIff(ss, rs, n - 1, id);
      assert ss[n] == Handle(ss[n - 1], rs[n - 1]).0;
      PublicStep(ss[n - 1], rs[n - 1], id);
      PublicLater(ss, rs, n, id);
    }
  }

  lemma PublicLater(ss: seq<Store>, rs: seq<Request>, n: nat, id: EventId)
    requires 0 < n <= |rs| < |ss|
    ensures PublicSince(ss, rs, n, id) <==>
            || (Writes(ss, rs, n - 1, id) && rs[n - 1].fields.open == Some(true))
            || (PublicSince(ss, rs, n - 1, id) && !Deleted(ss, rs, n - 1, id)
                && !(Writes(ss, rs, n - 1, id) && rs[n - 1].fields.open == Some(false)))
  {
    if PublicSince(ss, rs, n - 1, id) && !Deleted(ss, rs, n - 1, id)
       && !(Writes(ss, rs, n - 1, id) && rs[n - 1].fields.open == Some(false)) {
      var i :| 0 <= i < n - 1 && Writes(ss, rs, i, id) && rs[i].fields.open == Some(true)
        && forall k :: i < k < n - 1 ==> !Deleted(ss, rs, k, id) && !(Writes(ss, rs, k, id) && rs[k].fields.open == Some(false));
      assert PublicSince(ss, rs, n, id);
    }
  }

  lemma {:induction false} InvitedToSomething(ss: seq<Store>, rs: seq<Request>, n: nat, id: EventId, u: UserId)
    requires History(ss, rs) && ss[0].invites == {} && n < |ss| && (id, u) in ss[n].invites
    ensures id in ss[n].events
  {
    if n > 0 {
      assert ss[n] == Handle(ss[n - 1], rs[n - 1]).0;
      if (id, u) in ss[n - 1].invites {
        InvitedToSomething(ss, rs, n - 1, id, u);
      }
    }
  }

  /** Over a whole history, an event can be seen by exactly its creator, those whom its
      owner has invited, and everybody while it is public, as long as it is not deleted. */
  lemma AccessibleIff(ss: seq<Store>, rs: seq<Request>, n: nat, id: EventId, u: UserId)
    requires History(ss, rs) && ss[0].invites == {} && n < |ss|
    ensures Accessible(ss[n], id, u) <==>
            CreatedBy(ss, rs, n, id, u) || InvitedSince(ss, rs, n, id, u) || PublicSince(ss, rs, n, id)
  {
    OwnsIff(ss, rs, n, id, u);
    InvitedIff(ss, rs, n, id, u);
    PublicIff(ss, rs, n, id);
    if (id, u) in ss[n].invites {
      InvitedToSomething(ss, rs, n, id, u);
    }
  }
}

/** The event and track services in their own form, over a store of rows. */
module EventObjects {
  import opened Wire
  import L = LicenseModel
  import V = VoteModel
  import P = VoteProofs
  import Q = QueueModel
  import E = EventOutcomes
  import O = VoteOutcomes
  import opened Sequences

  class EventService {
    var events: map<L.EventId, L.Event>
    var invites: set<(L.EventId, UserId)>

    /** Every stored event with license 2 is complete. */
    ghost predicate Valid()
      reads this
    {
      forall id :: id in events ==> L.Complete(events[id])
    }

    constructor ()
      ensures Valid() && Value() == L.Store(map[], {})
    {
      events, invites := map[], {};
    }

    function Value(): L.Store
      reads this
    {
      L.Store(events, invites)
    }

    method Create(id: L.EventId, owner: UserId, f: L.Fields) returns (a: L.Answer)
      requires Valid() && id !in events && f.license.Some? && f.open.Some?
      modifies this
      ensures Valid()
      ensures (Value(), a) == L.Create(old(Value()), id, owner, f)
      ensures a == L.Ok ==>
                E.OnlyEvent(old(Value()), Value(), id)
                && events[id] == L.Event(owner, f.open.value, f.license.value, f.lat, f.lng, f.radius, f.voteStart, f.voteEnd)
    {
      if f.license.value == 2 {
        if f.lat == None || f.lng == None || f.radius == None || f.voteStart == None || f.voteEnd == None {
          return L.InvalidLicense;
        }
      }
      events := events[id := L.Event(owner, f.open.value, f.license.value, f.lat, f.lng, f.radius, f.voteStart, f.voteEnd)];
      a := L.Ok;
    }

    method Update(id: L.EventId, caller: UserId, f: L.Fields) returns (a: L.Answer)
      requires Valid()
      modifies this
      ensures Valid()
      ensures (Value(), a) == L.Update(old(Value()), id, caller, f)
      ensures a == L.Ok ==>
                && E.OnlyEvent(old(Value()), Value(), id)
                && id in old(events) && E.EachOverwritten(f, old(events)[id], events[id])
    {
      if id !in events || events[id].owner != caller {
        return L.EventNotFound;
      }
      if f.license.Some? && f.license.value == 2 && !L.AllGiven(f) {
        return L.InvalidLicense;
      }
      var e := SetColumns(events[id], f);
      UpdateAlone(Value(), id, caller, f, e);
      events := events[id := e];
      a := L.Ok;
    }

    /** The SET list of the UPDATE. */
    static method SetColumns(before: L.Event, f: L.Fields) returns (after: L.Event)
      ensures E.EachOverwritten(f, before, after)
    {
      after := before.(
        open := if f.open.Some? then f.open.value else before.open,
        license := if f.license.Some? then f.license.value else before.license,
        lat := if f.lat.Some? then f.lat else before.lat,
        lng := if f.lng.Some? then f.lng else before.lng,
        radius := if f.radius.Some? then f.radius else before.radius,
        voteStart := if f.voteStart.Some? then f.voteStart else before.voteStart,
        voteEnd := if f.voteEnd.Some? then f.voteEnd else before.voteEnd);
    }

    /** GetByIDForOwner finds a row. */
    predicate Owned(id: L.EventId, caller: UserId)
      reads this
    {
      L.Owns(Value(), id, caller)
    }

    method Delete(id: L.EventId, caller: UserId) returns (a: L.Answer)
      requires Valid()
      modifies this
      ensures Valid()
      ensures (Value(), a) == L.Delete(old(Value()), id, caller)
      ensures a == L.Ok <==> old(Owned(id, caller))
      ensures a == L.Ok ==> events == old(events) - {id} && forall k, u :: (k, u) in invites <==> (k, u) in old(invites) && k != id
    {
      if !Owned(id, caller) {
        return L.EventNotFound;
      }
      events := events - {id};
      invites := set i | i in invites && i.0 != id;
      a := L.Ok;
    }

    /** known tells whether the guest is a user. */
    method Invite(id: L.EventId, caller: UserId, guest: UserId, known: bool) returns (a: L.Answer)
      requires Valid()
      modifies this
      ensures Valid()
      ensures (Value(), a) == L.Invite(old(Value()), id, caller, guest, known)
      ensures a == L.Ok <==> Owned(id, caller) && (id, guest) !in old(invites) && known
      ensures events == old(events) && invites == if a == L.Ok then old(invites) + {(id, guest)} else old(invites)
    {
      if !Owned(id, caller) {
        return L.EventNotFound;
      }
      if (id, guest) in invites {
        return L.AlreadyInvited;
      }
      if !known {
        return L.UserNotFound;
      }
      invites := invites + {(id, guest)};
      a := L.Ok;
    }

    predicate Accessible(id: L.EventId, caller: UserId)
      reads this
    {
      L.Accessible(Value(), id, caller)
    }

    /** enforceLicense, dereference by dereference. */
    method EnforceLicense(e: L.Event, invited: bool, caller: UserId, gps: L.Gps, now: int, km: L.Distance)
      returns (v: L.Verdict)
      requires L.Complete(e)
      ensures v == L.Enforce(e, caller, invited, gps, now, km) && v != L.NilDereference
    {
      if caller == e.owner {
        return L.Allowed;
      }
      match e.license {
      case 1 =>
        if !invited {
          return L.NotInvited;
        }
      case 2 =>
        if gps.lat == None || gps.lng == None {
          return L.MissingCoords;
        }
        var dist := km(gps.lat.value, gps.lng.value, e.lat.value, e.lng.value);
        if dist > e.radius.value {
          return L.OutOfRange;
        }
        if now < e.voteStart.value || now > e.voteEnd.value {
          return L.VotingClosed;
        }
      case _ =>
      }
      v := L.Allowed;
    }
  }

  datatype TrackAnswer = Done | EventNotFound | Denied(verdict: L.Verdict) | TrackNotFound | AlreadyVoted | TrackAlreadyExists

  class TrackService {
    const eventSvc: EventService
    var tracks: map<TrackId, V.Track>
    var votes: map<V.VoteId, V.VoteRow>

    constructor (eventSvc: EventService)
      ensures this.eventSvc == eventSvc && Value() == V.Db(map[], map[], [])
    {
      this.eventSvc := eventSvc;
      tracks, votes := map[], map[];
    }

    /** The committed rows, with no other transaction open. */
    function Value(): V.Db
      reads this
    {
      V.Db(tracks, votes, [])
    }

    /** The committed rows after a vote transaction that runs alone. */
    static ghost function AfterVote(db: V.Db, t: TrackId, u: UserId, id: V.VoteId): V.Db
      requires t in db.tracks
    {
      V.Db(db.tracks[t := db.tracks[t].(votes := db.tracks[t].votes + 1)], db.votes[id := V.VoteRow(t, u)], db.txs)
    }

    ghost function Verdict(e: L.EventId, caller: UserId, gps: L.Gps, now: int, km: L.Distance): L.Verdict
      requires e in eventSvc.events
      reads this, eventSvc
    {
      L.Enforce(eventSvc.events[e], caller, (e, caller) in eventSvc.invites, gps, now, km)
    }

    /** The event is there for the caller, and its license lets the caller act. */
    ghost predicate Admitted(e: L.EventId, caller: UserId, gps: L.Gps, now: int, km: L.Distance)
      reads this, eventSvc
    {
      eventSvc.Accessible(e, caller) && Verdict(e, caller, gps, now, km) == L.Allowed
    }

    static predicate InEvent(tracks: Q.Tracks, t: TrackId, e: L.EventId) {
      t in tracks && tracks[t].event == e
    }

    method Vote(e: L.EventId, t: TrackId, caller: UserId, gps: L.Gps, now: int, km: L.Distance, id: V.VoteId)
      returns (a: TrackAnswer)
      requires P.Inv(Value()) && id !in votes
      requires eventSvc.Valid()
      modifies this
      ensures P.Inv(Value())
      ensures a != Done ==> Value() == old(Value())
      ensures a == EventNotFound <==> !eventSvc.Accessible(e, caller)
      ensures a.Denied? <==> eventSvc.Accessible(e, caller) && Verdict(e, caller, gps, now, km) != L.Allowed
      ensures a.Denied? ==> eventSvc.Accessible(e, caller) && a.verdict == Verdict(e, caller, gps, now, km)
      ensures a == TrackNotFound <==> Admitted(e, caller, gps, now, km) && !InEvent(old(tracks), t, e)
      ensures a == AlreadyVoted <==>
              Admitted(e, caller, gps, now, km) && InEvent(old(tracks), t, e) && V.Voted(old(Value()), t, caller)
      ensures a == Done <==>
              Admitted(e, caller, gps, now, km) && InEvent(old(tracks), t, e) && !V.Voted(old(Value()), t, caller)
      ensures a == Done ==> Value() == AfterVote(old(Value()), t, caller, id)
    {
      if !eventSvc.Accessible(e, caller) {
        return EventNotFound;
      }
      var invited := (e, caller) in eventSvc.invites;
      var verdict := eventSvc.EnforceLicense(eventSvc.events[e], invited, caller, gps, now, km);
      if verdict != L.Allowed {
        return Denied(verdict);
      }
      if t !in tracks || tracks[t].event != e {
        return TrackNotFound;
      }
      if V.Voted(Value(), t, caller) {
        return AlreadyVoted;
      }
      ghost var before := Value();
      VoteAlone(before, t, caller, id);
      votes := votes[id := V.VoteRow(t, caller)];
      tracks := tracks[t := tracks[t].(votes := tracks[t].votes + 1)];
      a := Done;
    }

    method Suggest(e: L.EventId, caller: UserId, gps: L.Gps, now: int, km: L.Distance,
                   id: TrackId, external: string, created: nat)
      returns (a: TrackAnswer)
      requires P.Inv(Value()) && id !in tracks
      requires eventSvc.Valid()
      modifies this
      ensures P.Inv(Value())
      ensures a != Done ==> Value() == old(Value())
      ensures a == EventNotFound <==> !eventSvc.Accessible(e, caller)
      ensures a.Denied? <==> eventSvc.Accessible(e, caller) && Verdict(e, caller, gps, now, km) != L.Allowed
      ensures a.Denied? ==> eventSvc.Accessible(e, caller) && a.verdict == Verdict(e, caller, gps, now, km)
      ensures a == TrackAlreadyExists <==> Admitted(e, caller, gps, now, km) && V.Suggested(old(Value()), e, external)
      ensures a == Done <==> Admitted(e, caller, gps, now, km) && !V.Suggested(old(Value()), e, external)
      ensures a == Done ==> tracks == old(tracks)[id := V.Track(e, external, 0, created)] && votes == old(votes)
      ensures O.ExternalsUnique(old(Value())) ==> O.ExternalsUnique(Value())
    {
      if !eventSvc.Accessible(e, caller) {
        return EventNotFound;
      }
      var invited := (e, caller) in eventSvc.invites;
      var verdict := eventSvc.EnforceLicense(eventSvc.events[e], invited, caller, gps, now, km);
      if verdict != L.Allowed {
        return Denied(verdict);
      }
      if V.Suggested(Value(), e, external) {
        return TrackAlreadyExists;
      }
      P.InvSuggest(Value(), id, e, external, created);
      tracks := tracks[id := V.Track(e, external, 0, created)];
      a := Done;
    }

    /** The owner removes a track; its votes go with it. */
    method DeleteTrack(e: L.EventId, t: TrackId, caller: UserId) returns (a: TrackAnswer)
      requires P.Inv(Value())
      modifies this
      ensures P.Inv(Value())
      ensures a == EventNotFound <==> !eventSvc.Owned(e, caller)
      ensures a == TrackNotFound <==> eventSvc.Owned(e, caller) && !InEvent(old(tracks), t, e)
      ensures a == Done <==> eventSvc.Owned(e, caller) && InEvent(old(tracks), t, e)
      ensures a != Done ==> Value() == old(Value())
      ensures a == Done ==> Value() == V.Apply(old(Value()), V.Delete(t)) && tracks == old(tracks) - {t}
      ensures a == Done ==>
                && (forall v :: v in votes <==> v in old(votes) && old(votes)[v].track != t)
                && (forall v :: v in votes ==> votes[v] == old(votes)[v])
    {
      if !eventSvc.Owned(e, caller) {
        return EventNotFound;
      }
      if t !in tracks || tracks[t].event != e {
        return TrackNotFound;
      }
      DeleteAlone(Value(), t);
      tracks := tracks - {t};
      votes := map v | v in votes && votes[v].track != t :: votes[v];
      a := Done;
    }

    /** None stands for an event that the caller cannot see. */
    method GetQueue(e: L.EventId, caller: UserId) returns (q: Option<seq<TrackId>>)
      ensures q.Some? <==> eventSvc.Accessible(e, caller)
      ensures q.Some? ==> Q.IsQueue(tracks, e, q.value) && O.InOrder(tracks, q.value)
    {
      if !eventSvc.Accessible(e, caller) {
        return None;
      }
      var rows := ByVotes(e);
      q := Some(rows);
    }

    /** The query of GetQueue, row by row in its order: more votes first, and the earlier
        suggestion first among equals. */
    method ByVotes(e: L.EventId) returns (q: seq<TrackId>)
      ensures Q.IsQueue(tracks, e, q) && O.InOrder(tracks, q)
    {
      q := [];
      var pending := set t | t in tracks && tracks[t].event == e;
      while pending != {}
        invariant pending <= Q.InEvent(tracks, e)
        invariant Distinct(q) && (forall k :: k in q <==> k in Q.InEvent(tracks, e) - pending)
        invariant forall i, j :: 0 <= i < j < |q| ==> !Q.Ahead(tracks, q[j], q[i])
        invariant forall i, k :: 0 <= i < |q| && k in pending ==> !Q.Ahead(tracks, k, q[i])
        decreases |pending|
      {
        FirstExists(tracks, pending);
        var next :| next in pending && forall k :: k in pending ==> !Q.Ahead(tracks, k, next);
        assert next !in q;
        q := q + [next];
        pending := pending - {next};
      }
      O.QueueOrder(tracks, e, q);
    }
  }

  lemma FirstExists(ts: Q.Tracks, ks: set<TrackId>)
    requires ks != {}
    ensures exists k :: k in ks && forall j :: j in ks ==> !Q.Ahead(ts, j, k)
  {
    var k := FirstOf(ts, ks);
  }

  lemma {:induction false} FirstOf(ts: Q.Tracks, ks: set<TrackId>) returns (k: TrackId)
    requires ks != {}
    ensures k in ks && forall j :: j in ks ==> !Q.Ahead(ts, j, k)
  {
    k :| k in ks;
    if ks != {k} {
      var rest := ks - {k};
      var m := FirstOf(ts, rest);
      var best := if Q.Ahead(ts, k, m) then k else m;
      forall j | j in ks ensures !Q.Ahead(ts, j, best) {
        assert j == k || j in rest;
      }
      k := best;
    }
  }

  /** What the columns that an update assigns amount to. */
  lemma UpdateAlone(s: L.Store, id: L.EventId, caller: UserId, f: L.Fields, e: L.Event)
    requires L.Owns(s, id, caller) && (f.license == Some(2) ==> L.AllGiven(f)) && E.EachOverwritten(f, s.events[id], e)
    ensures L.Update(s, id, caller, f) == (s.(events := s.events[id := e]), L.Ok)
    ensures L.Complete(s.events[id]) ==> L.Complete(e)
  {
    assert e == L.Updated(s.events[id], f);
  }

  /** A removal from a state without open transactions. */
  lemma DeleteAlone(db: V.Db, t: TrackId)
    requires P.Inv(db) && db.txs == []
    ensures V.Enabled(db, V.Delete(t)) && P.Inv(V.Apply(db, V.Delete(t)))
    ensures V.Apply(db, V.Delete(t)) ==
            V.Db(db.tracks - {t}, map v | v in db.votes && db.votes[v].track != t :: db.votes[v], [])
  {
    P.InvDrop(db, {t});
  }

  /** The two statements and the commit of one transaction, from a state without others:
      its vote is cast. */
  lemma VoteRuns(db: V.Db, t: TrackId, u: UserId, id: V.VoteId) returns (db': V.Db)
    requires P.Inv(db) && db.txs == [] && t in db.tracks && !V.Voted(db, t, u) && id !in db.votes
    ensures P.Inv(db') && db' == TrackService.AfterVote(db, t, u, id).(txs := [V.Tx(t, u, V.Committed)])
  {
    var d1 := V.Apply(db, V.Begin(t, u));
    P.InvApply(db, V.Begin(t, u));
    assert d1 == db.(txs := [V.Tx(t, u, V.Begun)]);
    var d2 := V.Apply(d1, V.Insert(0, id));
    P.InvApply(d1, V.Insert(0, id));
    assert d2 == db.(txs := [V.Tx(t, u, V.Inserted(id))]);
    var d3 := V.Apply(d2, V.Count(0));
    P.InvApply(d2, V.Count(0));
    assert d3 == db.(txs := [V.Tx(t, u, V.Counted(id, db.tracks[t].votes + 1))]);
    db' := V.Apply(d3, V.Commit(0));
    P.InvApply(d3, V.Commit(0));
  }

  lemma VoteAlone(db: V.Db, t: TrackId, u: UserId, id: V.VoteId)
    requires P.Inv(db) && db.txs == [] && t in db.tracks && !V.Voted(db, t, u) && id !in db.votes
    ensures P.Inv(TrackService.AfterVote(db, t, u, id))
  {
    var db' := VoteRuns(db, t, u, id);
    InvWithoutTxs(db');
  }

  lemma InvWithoutTxs(db: V.Db)
    requires P.Inv(db)
    ensures P.Inv(db.(txs := []))
  {
    assert forall k :: P.Ballots(db.(txs := []), k) == P.Ballots(db, k);
  }
}

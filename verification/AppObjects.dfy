/** The app's side in its own form: token storage, and the interceptor's onError, cut at
    the await of a refresh that is in flight. Each method is proved to be a run of the
    state machine, the one in which nothing else happens between the other awaits. */
module AppObjects {
  import opened Wire
  import opened TokenModel
  import opened TokenObjects
  import opened TokenProofs
  import R = RotationModel
  import opened AppRuns

  class TokenStorage {
    var access: Option<Token>
    var refresh: Option<Token>

    constructor ()
      ensures access == None && refresh == None
    {
      access, refresh := None, None;
    }

    method SaveTokens(newAccess: Token, newRefresh: Token)
      modifies this
      ensures access == Some(newAccess) && refresh == Some(newRefresh)
    {
      access := Some(newAccess);
      refresh := Some(newRefresh);
    }

    method ClearTokens()
      modifies this
      ensures access == None && refresh == None
    {
      access := None;
      refresh := None;
    }
  }

  class AuthInterceptor {
    const storage: TokenStorage
    const server: AuthHandler
    /** A completer is pending. */
    var refreshing: bool

    constructor (storage: TokenStorage, server: AuthHandler)
      ensures this.storage == storage && this.server == server && !refreshing
    {
      this.storage, this.server, refreshing := storage, server, false;
    }

    /** World w shows the storage, the server and the pending refresh as they are. */
    ghost predicate Mirrors(w: R.World)
      reads this, storage, server, server.repo
    {
      && w.db == server.Value() && w.stored == storage.refresh && w.access == storage.access
      && (w.pending.Some? <==> refreshing)
    }

    /** onError, without interference between the awaits: a run of the state machine about
        request r, in which answered tells whether the server's answer reaches the app,
        and retryOk how the retry goes. The error of a retry belongs to the run of the
        request that is retried. */
    method OnError(status: int, alreadyRetried: bool, issued: Token, now: nat, fault: Fault, answered: bool, retryOk: bool,
                   ghost w: R.World, ghost r: R.ReqId)
      returns (ending: Ending, ghost acts: seq<R.Action>, ghost w': R.World)
      requires Mirrors(w) && r < |w.reqs| && (!alreadyRetried ==> w.reqs[r].pc.Sent?) && issued !in server.repo.rows
      modifies this, storage, server, server.repo
      ensures R.Steps(w, acts, w') && Mirrors(w') && refreshing == old(refreshing)
      ensures alreadyRetried ==> acts == []
      ensures !alreadyRetried && status != 401 ==> acts == [R.OtherError(r)]
      ensures status != 401 || alreadyRetried ==>
                ending == PassedOn && server.Value() == old(server.Value())
                && storage.refresh == old(storage.refresh) && storage.access == old(storage.access)
      ensures !alreadyRetried ==> r < |w'.reqs| && EndsAs(w'.reqs[r].pc, ending)
      ensures status == 401 && !alreadyRetried ==> (ending == Waits <==> old(refreshing))
      ensures old(Settled()) ==> Settled()
    {
      if status != 401 || alreadyRetried {
        acts, w' := NotForRefresh(w, r, alreadyRetried);
        return PassedOn, acts, w';
      }
      var told;
      ending, told, acts, w' := OnUnauthorized(issued, now, fault, answered, retryOk, w, r);
    }

    /** Whatever is stored can be exchanged. */
    ghost predicate Settled()
      reads this, storage, server, server.repo
    {
      storage.refresh.Some? ==> Active(server.Value(), storage.refresh.value)
    }

    /** onError from the test for a refresh in flight on; told is what those who wait for
        this refresh are told, and the token that the retry carries. */
    method OnUnauthorized(issued: Token, now: nat, fault: Fault, answered: bool, retryOk: bool,
                          ghost w: R.World, ghost r: R.ReqId)
      returns (ending: Ending, told: Option<Token>, ghost acts: seq<R.Action>, ghost w': R.World)
      requires Mirrors(w) && r < |w.reqs| && w.reqs[r].pc.Sent? && issued !in server.repo.rows
      modifies this, storage, server, server.repo
      ensures R.Steps(w, acts, w') && Mirrors(w')
      ensures r < |w'.reqs| && EndsAs(w'.reqs[r].pc, ending)
      ensures refreshing == old(refreshing) && (ending == Waits <==> refreshing)
      ensures old(refreshing || storage.refresh == None) ==> server.Value() == old(server.Value())
      ensures !old(refreshing) && old(storage.refresh).Some? ==>
                var (db, res) := Refresh(old(server.Value()), old(storage.refresh).value, issued, now, fault);
                && server.Value() == db
                && (res.Tokens? && answered ==>
                      storage.refresh == storage.access == Some(issued) && ending == (if retryOk then Answer else Threw)
                      && told == Some(issued))
                && (!(res.Tokens? && answered) ==> ending == PassedOn)
      ensures ending == PassedOn ==> told == None
      ensures ending != Waits ==> w'.reqs[r].completer == (if told == None then R.Null else R.Access(told.value))
      ensures ending == PassedOn ==> storage.refresh == None && storage.access == None
      ensures old(Settled()) || !refreshing ==> Settled()
    {
      if refreshing {
        acts, w' := Queue(w, r);
        return Waits, None, acts, w';
      }
      refreshing := true;
      if storage.refresh == None {
        acts, w' := ReadsNothing(w, r);
      } else {
        acts, w' := Posts(w, r, issued, now, fault);
        RefreshSucceedsIff(server.Value(), storage.refresh.value, issued, now, fault);
        var res := server.RefreshTokens(storage.refresh.value, issued, now, fault);
        if res.Tokens? && answered {
          storage.SaveTokens(res.refresh, res.refresh);
          acts, w' := Saves(w, acts, w', r, retryOk);
          refreshing := false;
          return if retryOk then Answer else Threw, Some(res.refresh), acts, w';
        }
        acts, w' := GivesUp(w, acts, w', r, answered);
      }
      storage.ClearTokens();
      acts, w' := Clears(w, acts, w', r);
      refreshing := false;
      ending, told := PassedOn, None;
    }

    /** The rest of onError for a request that waited: the refresh has completed. sent is
        the token that the retry carries, and told the world in which the retry is sent. */
    method Resume(completed: Option<Token>, retryOk: bool, ghost w: R.World, ghost r: R.ReqId)
      returns (ending: Ending, sent: Option<Token>, ghost acts: seq<R.Action>, ghost told: R.World, ghost w': R.World)
      requires Mirrors(w) && r < |w.reqs| && w.reqs[r].pc.WaitingOn? && w.reqs[r].pc.leader < |w.reqs|
      requires w.reqs[w.reqs[r].pc.leader].completer == (if completed == None then R.Null else R.Access(completed.value))
      ensures R.Steps(w, acts, w') && Mirrors(w')
      ensures r < |w'.reqs| && EndsAs(w'.reqs[r].pc, ending)
      ensures ending == (if completed.Some? && retryOk then Answer else PassedOn)
      ensures sent == completed
      ensures R.Steps(w, [R.WaiterResume(r)], told) && r < |told.reqs|
      ensures completed == None ==> told.reqs[r].pc == R.Failed && acts == [R.WaiterResume(r)]
      ensures completed.Some? ==>
                told.reqs[r].pc == R.Retrying(completed.value) && acts == [R.WaiterResume(r), R.WaiterRetry(r, retryOk)]
    {
      acts, told, w' := Resumes(w, r, retryOk);
      if completed == None {
        return PassedOn, None, acts, told, w';
      }
      sent := completed;
      ending := if retryOk then Answer else PassedOn;
    }
  }
}

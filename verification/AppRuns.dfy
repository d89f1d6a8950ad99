/** The runs of the state machine of which the interceptor's onError is made up. */
module AppRuns {
  import opened Wire
  import opened TokenModel
  import opened RotationModel
  import opened RotationExact

  /** How onError ends: the handler is given a response or the error, or onError throws,
      or it waits for the refresh that is in flight. */
  datatype Ending = Answer | PassedOn | Threw | Waits

  predicate EndsAs(pc: Pc, ending: Ending) {
    match ending
    case Answer => pc.Resolved?
    case PassedOn => pc.Failed?
    case Threw => pc.Hung?
    case Waits => pc.WaitingOn?
  }

  lemma NotForRefresh(w: World, r: ReqId, alreadyRetried: bool) returns (acts: seq<Action>, w': World)
    requires r < |w.reqs| && (!alreadyRetried ==> w.reqs[r].pc.Sent?)
    ensures Steps(w, acts, w') && w' == w.(reqs := w'.reqs)
    ensures acts == if alreadyRetried then [] else [OtherError(r)]
    ensures !alreadyRetried ==> w'.reqs == w.reqs[r := w.reqs[r].(pc := Failed)]
  {
    acts, w' := [], w;
    if !alreadyRetried {
      acts, w' := [OtherError(r)], Apply(w, OtherError(r));
      assert acts[1..] == [];
    }
  }

  lemma Queue(w: World, r: ReqId) returns (acts: seq<Action>, w': World)
    requires r < |w.reqs| && w.reqs[r].pc.Sent? && w.pending.Some?
    ensures Steps(w, acts, w') && r < |w'.reqs| && w'.reqs[r].pc.WaitingOn?
    ensures w' == w.(reqs := w'.reqs)
  {
    acts, w' := [Got401(r)], Apply(w, Got401(r));
    assert acts[1..] == [];
  }

  lemma Then(w0: World, acts: seq<Action>, w: World, a: Action) returns (acts': seq<Action>, w': World)
    requires Steps(w0, acts, w) && Enabled(w, a)
    ensures Steps(w0, acts', w') && w' == Apply(w, a)
  {
    StepsThen(w0, acts, w, a);
    acts', w' := acts + [a], Apply(w, a);
  }

  /** Request r is the one that refreshes, in this phase. */
  predicate Leads(w: World, r: ReqId, phase: Phase) {
    r < |w.reqs| && w.reqs[r].pc == Leading(phase) && w.pending == Some(r)
  }

  lemma ReadsNothing(w: World, r: ReqId) returns (acts: seq<Action>, w': World)
    requires r < |w.reqs| && w.reqs[r].pc.Sent? && w.pending == None && w.stored == None
    ensures Steps(w, acts, w') && Leads(w', r, ClearingAccess) && w'.reqs[r].completer == Null
    ensures w' == w.(reqs := w'.reqs, pending := Some(r))
  {
    assert Steps(w, [], w);
    acts, w' := Then(w, [], w, Got401(r));
    acts, w' := Then(w, acts, w', LeaderRead(r));
  }

  /** The stored token is read, posted and served. */
  lemma Posts(w: World, r: ReqId, issued: Token, now: nat, fault: Fault) returns (acts: seq<Action>, w': World)
    requires r < |w.reqs| && w.reqs[r].pc.Sent? && w.pending == None && w.stored.Some? && issued !in w.db.rows
    ensures Steps(w, acts, w') && Leads(w', r, Posting(|w.posts|)) && |w'.posts| == |w.posts| + 1
    ensures w'.stored == w.stored && w'.access == w.access
    ensures var (db, res) := Refresh(w.db, w.stored.value, issued, now, fault);
            w'.db == db && w'.posts[|w.posts|].answer == if res.Tokens? then Got(issued) else Rejected
  {
    var p := |w.posts|;
    assert Steps(w, [], w);
    acts, w' := Then(w, [], w, Got401(r));
    acts, w' := Then(w, acts, w', LeaderRead(r));
    assert w'.posts == w.posts + [Post(true, w.stored.value, Unanswered)] && w'.db == w.db;
    assert Leads(w', r, Posting(p)) && w'.stored == w.stored && w'.access == w.access;
    acts, w' := Served(w, acts, w', p, issued, now, fault);
  }

  lemma Served(w0: World, acts0: seq<Action>, w: World, p: PostId, issued: Token, now: nat, fault: Fault)
    returns (acts: seq<Action>, w': World)
    requires Steps(w0, acts0, w) && Enabled(w, ServeRefresh(p, issued, now, fault))
    ensures Steps(w0, acts, w') && w' == w.(db := w'.db, posts := w'.posts, reuse := w'.reuse) && |w'.posts| == |w.posts|
    ensures var (db, res) := Refresh(w.db, w.posts[p].token, issued, now, fault);
            w'.db == db && w'.posts[p].answer == if res.Tokens? then Got(issued) else Rejected
  {
    acts, w' := Then(w0, acts0, w, ServeRefresh(p, issued, now, fault));
  }

  /** saveTokens and the retry. */
  lemma Saves(w0: World, acts0: seq<Action>, w: World, r: ReqId, retryOk: bool) returns (acts: seq<Action>, w': World)
    requires Steps(w0, acts0, w) && w.pending == Some(r) && InPhase(w, r) && w.reqs[r].pc.phase.Posting?
    requires w.reqs[r].pc.phase.post < |w.posts| && w.posts[w.reqs[r].pc.phase.post].answer.Got?
    ensures Steps(w0, acts, w') && w'.db == w.db && w'.pending == None
    ensures w'.stored == w'.access == Some(w.posts[w.reqs[r].pc.phase.post].answer.next)
    ensures r < |w'.reqs| && EndsAs(w'.reqs[r].pc, if retryOk then Answer else Threw)
    ensures w'.reqs[r].completer == Access(w.posts[w.reqs[r].pc.phase.post].answer.next)
  {
    var next := w.posts[w.reqs[r].pc.phase.post].answer.next;
    acts, w' := Then(w0, acts0, w, LeaderAnswer(r));
    assert Leads(w', r, SavingAccess(next));
    acts, w' := Then(w0, acts, w', LeaderSaveAccess(r));
    assert Leads(w', r, SavingRefresh(next)) && w'.access == Some(next);
    acts, w' := Then(w0, acts, w', LeaderSaveRefresh(r));
    assert Leads(w', r, RetryingFirst(next)) && w'.access == w'.stored == Some(next);
    acts, w' := Then(w0, acts, w', if retryOk then LeaderRetryOk(r) else LeaderRetryFails(r));
  }

  /** A refusal, or no answer at all. */
  lemma GivesUp(w0: World, acts0: seq<Action>, w: World, r: ReqId, answered: bool) returns (acts: seq<Action>, w': World)
    requires Steps(w0, acts0, w) && w.pending == Some(r) && InPhase(w, r) && w.reqs[r].pc.phase.Posting?
    requires w.reqs[r].pc.phase.post < |w.posts|
    requires answered ==> w.posts[w.reqs[r].pc.phase.post].answer.Rejected?
    ensures Steps(w0, acts, w') && Leads(w', r, ClearingAccess) && w' == w.(reqs := w'.reqs)
    ensures w'.reqs[r].completer == Null
  {
    acts, w' := Then(w0, acts0, w, if answered then LeaderAnswer(r) else LeaderGivesUp(r));
  }

  /** clearTokens, and once more in forceUnauthenticated. */
  lemma Clears(w0: World, acts0: seq<Action>, w: World, r: ReqId) returns (acts: seq<Action>, w': World)
    requires Steps(w0, acts0, w) && Leads(w, r, ClearingAccess) && w.reqs[r].completer == Null
    ensures Steps(w0, acts, w') && w'.db == w.db && w'.pending == None && w'.stored == w'.access == None
    ensures r < |w'.reqs| && w'.reqs[r] == Req(Failed, Null)
  {
    acts, w' := Then(w0, acts0, w, LeaderClear(r));
    assert Leads(w', r, ClearingRefresh);
    acts, w' := Then(w0, acts, w', LeaderClear(r));
    assert Leads(w', r, ExpiringAccess) && w'.stored == None;
    acts, w' := Then(w0, acts, w', LeaderClear(r));
    assert Leads(w', r, ExpiringRefresh) && w'.access == None;
    acts, w' := Then(w0, acts, w', LeaderClear(r));
  }

  /** A request that waited goes on: it is told null, or it is retried with the token. */
  lemma Resumes(w: World, r: ReqId, retryOk: bool) returns (acts: seq<Action>, told: World, w': World)
    requires Enabled(w, WaiterResume(r))
    ensures Steps(w, acts, w') && w' == w.(reqs := w'.reqs) && r < |w'.reqs|
    ensures Steps(w, [WaiterResume(r)], told) && r < |told.reqs|
    ensures match w.reqs[w.reqs[r].pc.leader].completer
            case Access(t) =>
              && told.reqs[r].pc == Retrying(t) && acts == [WaiterResume(r), WaiterRetry(r, retryOk)]
              && w'.reqs[r].pc == if retryOk then Resolved else Failed
            case _ => w' == told && told.reqs[r].pc == Failed && acts == [WaiterResume(r)]
  {
    assert Steps(w, [], w);
    StepsThen(w, [], w, WaiterResume(r));
    told := Apply(w, WaiterResume(r));
    acts, w' := [WaiterResume(r)], told;
    assert [] + [WaiterResume(r)] == acts;
    if told.reqs[r].pc.Retrying? {
      StepsThen(w, acts, told, WaiterRetry(r, retryOk));
      acts, w' := acts + [WaiterRetry(r, retryOk)], Apply(told, WaiterRetry(r, retryOk));
    }
  }
}

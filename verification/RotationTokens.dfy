/** Which token a request is retried with: over every run of one life of the app, it is
    the one that the server gave in exchange for what the refreshing request had read. */
module RotationTokens {
  import opened Wire
  import opened TokenModel
  import opened RotationModel
  import opened RotationExact
  import opened RotationRequests

  // ---------- one step ----------

  /** Request x has taken t from the answer to its refresh. */
  predicate Took(x: Req, t: Token) {
    || x.completer == Access(t)
    || x.pc == Leading(SavingAccess(t)) || x.pc == Leading(SavingRefresh(t)) || x.pc == Leading(RetryingFirst(t))
  }

  lemma PostsStay(w: World, a: Action, p: PostId)
    requires Enabled(w, a) && p < |w.posts|
    ensures p < |Apply(w, a).posts|
    ensures Apply(w, a).posts[p].token == w.posts[p].token && Apply(w, a).posts[p].refresh == w.posts[p].refresh
  {
  }

  lemma PostingStep(w: World, a: Action, r: ReqId, p: PostId)
    requires Enabled(w, a) && !a.Crash? && r < |Apply(w, a).reqs| && Apply(w, a).reqs[r].pc == Leading(Posting(p))
    ensures (r < |w.reqs| && w.reqs[r].pc == Leading(Posting(p))) || (a == LeaderRead(r) && w.stored.Some? && p == |w.posts|)
    ensures a == LeaderRead(r) ==> |Apply(w, a).posts| == p + 1 && Apply(w, a).posts[p].token == w.stored.value
  {
    if r >= |w.reqs| {
      NewRequest(w, a, r);
    } else if ActsOn(a) != Some(r) {
      OthersStay(w, a, r);
    } else {
      OwnPosting(w, a, r, p);
    }
  }

  lemma OwnPosting(w: World, a: Action, r: ReqId, p: PostId)
    requires Enabled(w, a) && ActsOn(a) == Some(r) && r < |Apply(w, a).reqs| && Apply(w, a).reqs[r].pc == Leading(Posting(p))
    ensures a == LeaderRead(r) && w.stored.Some? && p == |w.posts|
    ensures |Apply(w, a).posts| == p + 1 && Apply(w, a).posts[p].token == w.stored.value
  {
  }

  lemma AnswerStep(w: World, a: Action, p: PostId, t: Token)
    requires Enabled(w, a) && p < |Apply(w, a).posts| && Apply(w, a).posts[p].answer == Got(t)
    ensures p < |w.posts|
    ensures w.posts[p].answer == Got(t)
            || (a.ServeRefresh? && a.p == p && a.issued == t
                && Refresh(w.db, w.posts[p].token, t, a.now, a.fault).1 == Tokens(t))
  {
  }

  lemma TookStep(w: World, a: Action, r: ReqId, t: Token)
    requires Enabled(w, a) && !a.Crash? && r < |Apply(w, a).reqs| && Took(Apply(w, a).reqs[r], t)
    ensures r < |w.reqs|
    ensures Took(w.reqs[r], t)
            || (a == LeaderAnswer(r) && w.reqs[r].pc.Leading? && w.reqs[r].pc.phase.Posting?
                && w.reqs[r].pc.phase.post < |w.posts| && w.posts[w.reqs[r].pc.phase.post].answer == Got(t))
  {
    if r >= |w.reqs| {
      FreshRequest(w, a, r);
    } else if ActsOn(a) != Some(r) {
      OthersStay(w, a, r);
    } else {
      OwnTook(w, a, r, t);
    }
  }

  lemma FreshRequest(w: World, a: Action, r: ReqId)
    requires Enabled(w, a) && !a.Crash? && r >= |w.reqs| && r < |Apply(w, a).reqs|
    ensures Apply(w, a).reqs[r] == Req(Sent, Open)
  {
  }

  lemma OwnTook(w: World, a: Action, r: ReqId, t: Token)
    requires Enabled(w, a) && ActsOn(a) == Some(r) && r < |Apply(w, a).reqs| && Took(Apply(w, a).reqs[r], t)
    ensures r < |w.reqs|
    ensures Took(w.reqs[r], t)
            || (a == LeaderAnswer(r) && w.reqs[r].pc.Leading? && w.reqs[r].pc.phase.Posting?
                && w.reqs[r].pc.phase.post < |w.posts| && w.posts[w.reqs[r].pc.phase.post].answer == Got(t))
  {
  }

  lemma RetryingStep(w: World, a: Action, r: ReqId, t: Token)
    requires Enabled(w, a) && !a.Crash? && r < |Apply(w, a).reqs| && Apply(w, a).reqs[r].pc == Retrying(t)
    ensures r < |w.reqs|
    ensures w.reqs[r].pc == Retrying(t)
            || (a == WaiterResume(r) && w.reqs[r].pc.WaitingOn? && w.reqs[r].pc.leader < |w.reqs|
                && w.reqs[w.reqs[r].pc.leader].completer == Access(t))
  {
    if r >= |w.reqs| {
      FreshRequest(w, a, r);
    } else if ActsOn(a) != Some(r) {
      OthersStay(w, a, r);
    }
  }

  // ---------- runs ----------

  /** Action i reads the stored token for request l and posts it. */
  predicate Reads(ws: seq<World>, acts: seq<Action>, i: nat, l: ReqId)
    requires i < |acts| < |ws|
  {
    acts[i] == LeaderRead(l) && ws[i].stored.Some?
  }

  /** Action s is the server's, about the post that action i made: it exchanges the token
      that was read there for t. */
  predicate Exchanged(ws: seq<World>, acts: seq<Action>, i: nat, s: nat, t: Token)
    requires i < |acts| < |ws| && s < |acts| && ws[i].stored.Some?
  {
    && acts[s].ServeRefresh? && acts[s].p == |ws[i].posts| && acts[s].issued == t
    && Refresh(ws[s].db, ws[i].stored.value, t, acts[s].now, acts[s].fault).1 == Tokens(t)
  }

  /** Before n, request l read the stored token, the server exchanged that token for t,
      and l took the answer. */
  ghost predicate Refreshed(ws: seq<World>, acts: seq<Action>, n: nat, l: ReqId, t: Token)
    requires n <= |acts| < |ws|
  {
    exists i, s, k :: 0 <= i < s < k < n && Reads(ws, acts, i, l) && Exchanged(ws, acts, i, s, t) && acts[k] == LeaderAnswer(l)
  }

  lemma {:induction false} WhoPosted(ws: seq<World>, acts: seq<Action>, n: nat, r: ReqId, p: PostId) returns (i: nat)
    requires Life(ws, acts) && ws[0].reqs == [] && n < |ws|
    requires r < |ws[n].reqs| && ws[n].reqs[r].pc == Leading(Posting(p))
    ensures i < n && Reads(ws, acts, i, r) && p == |ws[i].posts| < |ws[n].posts|
    ensures ws[n].posts[p].token == ws[i].stored.value
    decreases n
  {
    var w, a := ws[n - 1], acts[n - 1];
    PostingStep(w, a, r, p);
    if a == LeaderRead(r) {
      i := n - 1;
    } else {
      i := WhoPosted(ws, acts, n - 1, r, p);
      PostsStay(w, a, p);
    }
  }

  lemma {:induction false} WhoAnswered(ws: seq<World>, acts: seq<Action>, i: nat, n: nat, p: PostId, t: Token) returns (s: nat)
    requires Life(ws, acts) && i < n < |ws| && |ws[i].posts| <= p < |ws[n].posts| && ws[n].posts[p].answer == Got(t)
    ensures i <= s < n && p < |ws[s].posts| && acts[s].ServeRefresh? && acts[s].p == p && acts[s].issued == t
    ensures ws[s].posts[p].token == ws[n].posts[p].token
    ensures Refresh(ws[s].db, ws[n].posts[p].token, t, acts[s].now, acts[s].fault).1 == Tokens(t)
    decreases n
  {
    var w, a := ws[n - 1], acts[n - 1];
    AnswerStep(w, a, p, t);
    PostsStay(w, a, p);
    if w.posts[p].answer == Got(t) {
      s := WhoAnswered(ws, acts, i, n - 1, p, t);
    } else {
      s := n - 1;
    }
  }

  /** Whoever holds a token as the outcome of a refresh has had it from the server, in
      exchange for the token that it had read itself. */
  lemma {:induction false} TookWhatWasIssued(ws: seq<World>, acts: seq<Action>, n: nat, r: ReqId, t: Token)
    requires Life(ws, acts) && ws[0].reqs == [] && n < |ws|
    requires r < |ws[n].reqs| && Took(ws[n].reqs[r], t)
    ensures Refreshed(ws, acts, n, r, t)
    decreases n
  {
    var w, a := ws[n - 1], acts[n - 1];
    TookStep(w, a, r, t);
    if Took(w.reqs[r], t) {
      TookWhatWasIssued(ws, acts, n - 1, r, t);
    } else {
      var p := w.reqs[r].pc.phase.post;
      var i := WhoPosted(ws, acts, n - 1, r, p);
      var s := WhoAnswered(ws, acts, i, n - 1, p, t);
      assert Exchanged(ws, acts, i, s, t);
    }
  }

  /** Action k lets request r go on after its wait for request l. */
  predicate ResumesAfter(ws: seq<World>, acts: seq<Action>, k: nat, r: ReqId, l: ReqId)
    requires k < |acts| < |ws|
  {
    acts[k] == WaiterResume(r) && r < |ws[k].reqs| && ws[k].reqs[r].pc == WaitingOn(l)
  }

  /** Before n, request r went on after a wait for a request that had been issued t. */
  ghost predicate WasTold(ws: seq<World>, acts: seq<Action>, n: nat, r: ReqId, t: Token)
    requires n <= |acts| < |ws|
  {
    exists k, l :: 0 <= k < n && ResumesAfter(ws, acts, k, r, l) && Refreshed(ws, acts, k, l, t)
  }

  lemma {:induction false} WaiterWasTold(ws: seq<World>, acts: seq<Action>, n: nat, r: ReqId, t: Token)
    requires Life(ws, acts) && ws[0].reqs == [] && n < |ws|
    requires r < |ws[n].reqs| && ws[n].reqs[r].pc == Retrying(t)
    ensures WasTold(ws, acts, n, r, t)
    decreases n
  {
    var w, a := ws[n - 1], acts[n - 1];
    RetryingStep(w, a, r, t);
    if w.reqs[r].pc == Retrying(t) {
      WaiterWasTold(ws, acts, n - 1, r, t);
    } else {
      var l := w.reqs[r].pc.leader;
      TookWhatWasIssued(ws, acts, n - 1, l, t);
      assert ResumesAfter(ws, acts, n - 1, r, l);
    }
  }

  /** A request is retried with the new token. The one that refreshed sends the token
      which the server exchanged for the one it had read; one that waited sends the token
      which the server so issued to the request that it waited for. */
  lemma RetriedWithTheNewToken(ws: seq<World>, acts: seq<Action>, n: nat, r: ReqId, t: Token)
    requires Life(ws, acts) && ws[0].reqs == [] && n < |ws| && r < |ws[n].reqs|
    ensures ws[n].reqs[r].completer == Access(t) ==> Refreshed(ws, acts, n, r, t)
    ensures ws[n].reqs[r].pc == Leading(RetryingFirst(t)) ==> Refreshed(ws, acts, n, r, t)
    ensures ws[n].reqs[r].pc == Retrying(t) ==> WasTold(ws, acts, n, r, t)
  {
    if Took(ws[n].reqs[r], t) {
      TookWhatWasIssued(ws, acts, n, r, t);
    }
    if ws[n].reqs[r].pc == Retrying(t) {
      WaiterWasTold(ws, acts, n, r, t);
    }
  }

  // ---------- login and logout without interference ----------

  /** A login that is answered stores both of its tokens. */
  lemma LoginStores(w: World, f: FlowId, issued: Token, now: nat) returns (w': World)
    requires f < |w.flows| && w.flows[f].FlowSent? && issued !in w.db.rows && w.me in w.db.users
    ensures Steps(w, [ServeLogin(f, true, true, issued, now, NoFault), FlowSaveAccess(f), FlowSaveRefresh(f)], w')
    ensures w'.stored == w'.access == Some(issued) && w'.reqs == w.reqs && w'.posts == w.posts
    ensures issued in w'.db.rows && w'.db.rows[issued].user == w.me && w'.db.rows[issued].expires == now + w.db.ttl
  {
    var a1, a2, a3 := ServeLogin(f, true, true, issued, now, NoFault), FlowSaveAccess(f), FlowSaveRefresh(f);
    var w1 := Apply(w, a1);
    assert w1.flows[f] == FlowAnswered(issued);
    var w2 := Apply(w1, a2);
    assert w2.flows[f] == FlowSaving(issued);
    w' := Apply(w2, a3);
    StepsThen(w, [], w, a1);
    StepsThen(w, [a1], w1, a2);
    StepsThen(w, [a1, a2], w2, a3);
    assert [] + [a1] == [a1] && [a1] + [a2] == [a1, a2] && [a1, a2] + [a3] == [a1, a2, a3];
  }

  /** A logout revokes the token that was stored and leaves nothing in the storage. */
  lemma LogoutForgets(w: World, now: nat) returns (acts: seq<Action>, w': World)
    requires w.logout == None && w.stored.Some? && w.stored.value in w.db.rows
    ensures Steps(w, acts, w') && w' == w.(db := w'.db, posts := w'.posts, access := None, stored := None)
    ensures w'.posts == w.posts + [Post(false, w.stored.value, Rejected)]
    ensures w'.db == w.db.(rows := w.db.rows[w.stored.value := w.db.rows[w.stored.value].(revoked := Some(now))])
  {
    acts, w' := LogoutPosts(w, now);
    var w1 := w';
    StepsThen(w, acts, w', LogoutStep);
    acts, w' := acts + [LogoutStep], Apply(w', LogoutStep);
    assert w'.logout == Some(LogoutClearingAccess) && w' == w1.(logout := w'.logout);
    StepsThen(w, acts, w', LogoutStep);
    acts, w' := acts + [LogoutStep], Apply(w', LogoutStep);
    assert w'.logout == Some(LogoutClearingRefresh) && w' == w1.(access := None, logout := w'.logout);
    StepsThen(w, acts, w', LogoutStep);
    acts, w' := acts + [LogoutStep], Apply(w', LogoutStep);
  }

  lemma LogoutPosts(w: World, now: nat) returns (acts: seq<Action>, w': World)
    requires w.logout == None && w.stored.Some? && w.stored.value in w.db.rows
    ensures Steps(w, acts, w') && w' == w.(db := w'.db, posts := w'.posts, logout := Some(LogoutPosted))
    ensures w'.posts == w.posts + [Post(false, w.stored.value, Rejected)]
    ensures w'.db == w.db.(rows := w.db.rows[w.stored.value := w.db.rows[w.stored.value].(revoked := Some(now))])
  {
    var p, t := |w.posts|, w.stored.value;
    var w1 := Apply(w, StartLogout);
    var w2 := Apply(w1, LogoutStep);
    assert w2.posts == w.posts + [Post(false, t, Unanswered)] && w2.db == w.db;
    w' := Apply(w2, ServeLogout(p, now, NoFault));
    acts := [StartLogout];
    StepsThen(w, [], w, StartLogout);
    assert [] + [StartLogout] == acts;
    StepsThen(w, acts, w1, LogoutStep);
    acts := acts + [LogoutStep];
    StepsThen(w, acts, w2, ServeLogout(p, now, NoFault));
    acts := acts + [ServeLogout(p, now, NoFault)];
  }
}

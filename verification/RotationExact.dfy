/** The discipline is exact: after any disciplined run, an action can be followed by a
    reuse detection if and only if its guard is violated; and four runs in which a
    guard is violated. */
module RotationExact {
  import opened Wire
  import opened TokenModel
  import opened RotationModel
  import opened RotationProofs

  // ---------- reuse, backwards ----------

  lemma Prepend(w: World, a: Action)
    requires Enabled(w, a) && Tame(w, a) && CanReuse(Apply(w, a))
    ensures CanReuse(w)
  {
    var acts, w' :| TameSteps(Apply(w, a), acts, w') && w'.reuse;
    assert ([a] + acts)[1..] == acts;
    assert TameSteps(w, [a] + acts, w');
  }

  /** A refresh of a revoked token of mine is on its way. */
  lemma RevokedRefresh(w: World, p: PostId)
    requires p < |w.posts| && w.posts[p].refresh && w.posts[p].answer.Unanswered?
    requires Mine(w, w.posts[p].token) && w.db.rows[w.posts[p].token].revoked.Some?
    ensures CanReuse(w)
  {
    var issued := NewToken(w.db.rows.Keys);
    var a := ServeRefresh(p, issued, 0, NoFault);
    assert TameSteps(Apply(w, a), [], Apply(w, a));
    Prepend(w, a);
  }

  /** Two posts of one token are on their way, one of them for a refresh. */
  lemma TwoOnTheirWay(w: World, i: PostId, p: PostId)
    requires p < |w.posts| && i < |w.posts| && i != p && w.posts[i].token == w.posts[p].token && Mine(w, w.posts[p].token)
    requires w.posts[p].refresh && w.posts[p].answer.Unanswered? && w.posts[i].answer.Unanswered?
    ensures CanReuse(w)
  {
    var t := w.posts[p].token;
    if w.db.rows[t].revoked.Some? {
      RevokedRefresh(w, p);
    } else {
      var issued := NewToken(w.db.rows.Keys);
      var a := if w.posts[i].refresh then ServeRefresh(i, issued, 0, NoFault) else ServeLogout(i, 0, NoFault);
      var w' := Apply(w, a);
      ServedRevokes(w, i, issued);
      assert w'.posts[p] == w.posts[p];
      RevokedRefresh(w', p);
      Prepend(w, a);
    }
  }

  lemma ServedRevokes(w: World, i: PostId, issued: Token)
    requires i < |w.posts| && w.posts[i].answer.Unanswered? && Mine(w, w.posts[i].token)
    requires Active(w.db, w.posts[i].token) && issued !in w.db.rows
    ensures var a := if w.posts[i].refresh then ServeRefresh(i, issued, 0, NoFault) else ServeLogout(i, 0, NoFault);
            && Enabled(w, a) && Mine(Apply(w, a), w.posts[i].token)
            && Apply(w, a).db.rows[w.posts[i].token].revoked.Some?
  {
  }

  /** A refresh is about to read a stored token that is not free. */
  lemma ReadsWhatIsNotFree(w: World)
    requires LeaderReads(w) && w.stored.Some? && Mine(w, w.stored.value) && !Clean(w)
    ensures CanReuse(w)
  {
    var t, p := w.stored.value, |w.posts|;
    var w' := Apply(w, LeaderRead(w.pending.value));
    assert w'.posts == w.posts + [Post(true, t, Unanswered)] && w'.db == w.db;
    if Active(w.db, t) {
      var i :| 0 <= i < |w.posts| && w.posts[i].token == t && w.posts[i].answer.Unanswered?;
      TwoOnTheirWay(w', i, p);
    } else {
      RevokedRefresh(w', p);
    }
    Prepend(w, LeaderRead(w.pending.value));
  }

  /** Nothing is at work, and what is stored is not free. */
  lemma NextRefreshReuses(w: World)
    requires w.pending == None && w.logout == None && w.stored.Some? && Mine(w, w.stored.value) && !Clean(w)
    ensures CanReuse(w)
  {
    var r := |w.reqs|;
    var w1 := Apply(w, Send);
    var w2 := Apply(w1, Got401(r));
    assert w2.reqs[r].pc == Leading(ReadStored);
    ReadsWhatIsNotFree(w2);
    Prepend(w1, Got401(r));
    Prepend(w, Send);
  }

  /** A refresh and a logout are both about to read what is stored. */
  lemma BothRead(w: World)
    requires LeaderReads(w) && w.logout == Some(LogoutReading) && w.stored.Some? && Mine(w, w.stored.value)
    ensures CanReuse(w)
  {
    var t, p := w.stored.value, |w.posts|;
    var w1 := Apply(w, LogoutStep);
    assert w1.posts == w.posts + [Post(false, t, Unanswered)] && w1.stored == Some(t);
    var w2 := Apply(w1, LeaderRead(w.pending.value));
    assert w2.posts == w1.posts + [Post(true, t, Unanswered)] && w2.db == w.db;
    TwoOnTheirWay(w2, p, p + 1);
    Prepend(w1, LeaderRead(w.pending.value));
    Prepend(w, LogoutStep);
  }

  /** The same when nothing is stored: a login may store a token before they read. */
  lemma BothWillRead(w: World)
    requires LeaderReads(w) && w.logout == Some(LogoutReading) && w.me in w.db.users
    requires w.stored.Some? ==> Mine(w, w.stored.value)
    ensures CanReuse(w)
  {
    if w.stored.Some? {
      BothRead(w);
    } else {
      var f := |w.flows|;
      var issued := NewToken(w.db.rows.Keys);
      var w1 := Apply(w, StartLogin);
      assert w1.flows[f] == FlowSent;
      var login := ServeLogin(f, true, true, issued, 0, NoFault);
      var w2 := Apply(w1, login);
      assert w2.flows[f] == FlowAnswered(issued) && Mine(w2, issued);
      BothReadLogin(w2, f);
      Prepend(w1, login);
      Prepend(w, StartLogin);
    }
  }

  lemma BothReadLogin(w: World, f: FlowId)
    requires LeaderReads(w) && w.logout == Some(LogoutReading)
    requires f < |w.flows| && w.flows[f].FlowAnswered? && Mine(w, w.flows[f].token)
    ensures CanReuse(w)
  {
    var w' := Apply(w, FlowSaveAccess(f));
    assert w'.flows[f] == FlowSaving(w.flows[f].token);
    BothRead(Apply(w', FlowSaveRefresh(f)));
    Prepend(w', FlowSaveRefresh(f));
    Prepend(w, FlowSaveAccess(f));
  }

  /** A logout is about to read a token whose refresh is on its way. */
  lemma LogoutReadsPosted(w: World)
    requires w.logout == Some(LogoutReading) && w.stored.Some? && Mine(w, w.stored.value)
    requires CarriedByRefresh(w.posts, w.stored.value)
    ensures CanReuse(w)
  {
    var t, q := w.stored.value, |w.posts|;
    var w' := Apply(w, LogoutStep);
    assert w'.posts == w.posts + [Post(false, t, Unanswered)] && w'.db == w.db;
    var p :| 0 <= p < |w.posts| && w.posts[p].token == t && w.posts[p].answer.Unanswered? && w.posts[p].refresh;
    TwoOnTheirWay(w', q, p);
    Prepend(w, LogoutStep);
  }

  // ---------- each guard ----------

  lemma WildCrash(w: World)
    requires Inv(w) && !Tame(w, Crash)
    ensures CanReuse(Apply(w, Crash))
  {
    NextRefreshReuses(Apply(w, Crash));
  }

  lemma WildClear(w: World, a: Action)
    requires Inv(w) && Enabled(w, a) && !Tame(w, a) && (a.LeaderClearFails? || a.LeaderExpireFails?)
    ensures CanReuse(Apply(w, a))
  {
    NextRefreshReuses(Apply(w, a));
  }

  lemma WildLogoutClear(w: World)
    requires Inv(w) && Enabled(w, LogoutClearFails) && !Tame(w, LogoutClearFails)
    ensures CanReuse(Apply(w, LogoutClearFails))
  {
    var v := Apply(w, LogoutClearFails);
    if v.pending == None {
      NextRefreshReuses(v);
    } else {
      var r := v.pending.value;
      NextRefreshReuses(Apply(v, LeaderRetryOk(r)));
      Prepend(v, LeaderRetryOk(r));
    }
  }

  lemma WildGot401(w: World, r: ReqId)
    requires Inv(w) && Enabled(w, Got401(r)) && !Tame(w, Got401(r)) && w.me in w.db.users
    ensures CanReuse(Apply(w, Got401(r)))
  {
    var v := Apply(w, Got401(r));
    assert v.reqs[r].pc == Leading(ReadStored);
    if w.logout == Some(LogoutReading) {
      BothWillRead(v);
    } else {
      ReadsWhatIsNotFree(v);
    }
  }

  lemma WildLogout(w: World)
    requires Inv(w) && Enabled(w, StartLogout) && !Tame(w, StartLogout) && w.me in w.db.users
    ensures CanReuse(Apply(w, StartLogout))
  {
    var v := Apply(w, StartLogout);
    if LeaderReads(w) {
      BothWillRead(v);
    } else {
      LogoutReadsPosted(v);
    }
  }

  // ---------- exactness ----------

  lemma UsersStay(w: World, a: Action)
    requires Enabled(w, a)
    ensures Apply(w, a).db.users == w.db.users && Apply(w, a).me == w.me
  {
  }

  lemma {:induction false} UsersStayInRun(w: World, acts: seq<Action>, w': World)
    requires TameSteps(w, acts, w')
    ensures w'.db.users == w.db.users && w'.me == w.me
    decreases |acts|
  {
    if acts != [] {
      UsersStay(w, acts[0]);
      UsersStayInRun(Apply(w, acts[0]), acts[1..], w');
    }
  }

  /** The exact condition. Let any disciplined run of an existing account lead to w, and
      let a be any action that is possible there. A disciplined continuation can make
      reuse detection fire after a if and only if a violates its guard: for a death of
      the app or a failing delete, that the stored token is revoked or on its way to the
      server, and nobody at work will replace or delete it; for a logout that overlaps a
      refresh, that both may read one stored token. */
  lemma ReuseCanFollowIff(w0: World, acts: seq<Action>, w: World, a: Action)
    requires Init(w0) && w0.me in w0.db.users && TameSteps(w0, acts, w) && Enabled(w, a)
    ensures CanReuse(Apply(w, a)) <==> !Tame(w, a)
  {
    InitInv(w0);
    InvRun(w0, acts, w);
    UsersStayInRun(w0, acts, w);
    if Tame(w, a) {
      InvApply(w, a);
      NeverFrom(Apply(w, a));
    } else {
      match a
      case Crash => WildCrash(w);
      case LeaderClearFails(_) => WildClear(w, a);
      case LeaderExpireFails(_) => WildClear(w, a);
      case LogoutClearFails => WildLogoutClear(w);
      case Got401(r) => WildGot401(w, r);
      case StartLogout => WildLogout(w);
    }
  }

  /** In particular, killing the app is harmful exactly when the token in its storage is
      revoked or on its way to the server. */
  lemma CrashIsHarmfulIff(w0: World, acts: seq<Action>, w: World)
    requires Init(w0) && w0.me in w0.db.users && TameSteps(w0, acts, w)
    ensures w.stored.Some? ==> Mine(w, w.stored.value)
    ensures CanReuse(Apply(w, Crash)) <==>
            w.stored.Some? && (w.db.rows[w.stored.value].revoked.Some? || Carried(w.posts, w.stored.value))
  {
    ReuseCanFollowIff(w0, acts, w, Crash);
    InitInv(w0);
    InvRun(w0, acts, w);
  }

  lemma NeverFrom(w: World)
    requires Inv(w)
    ensures !CanReuse(w)
  {
    forall acts, w' | TameSteps(w, acts, w') ensures !w'.reuse {
      InvRun(w, acts, w');
    }
  }

  // ---------- without the discipline ----------

  lemma {:induction false} StepsThen(w: World, acts: seq<Action>, w': World, a: Action)
    requires Steps(w, acts, w') && Enabled(w', a)
    ensures Steps(w, acts + [a], Apply(w', a))
    decreases |acts|
  {
    if acts == [] {
      assert [a][1..] == [];
    } else {
      StepsThen(Apply(w, acts[0]), acts[1..], w', a);
      assert (acts + [a])[1..] == acts[1..] + [a];
    }
  }

  /** Some run of the system leads from a fresh account to w. */
  ghost predicate Possible(w: World) {
    exists w0, acts :: Init(w0) && Steps(w0, acts, w)
  }

  lemma Do(w: World, a: Action) returns (w': World)
    requires Possible(w) && Enabled(w, a)
    ensures Possible(w') && w' == Apply(w, a)
  {
    var w0, acts :| Init(w0) && Steps(w0, acts, w);
    StepsThen(w0, acts, w, a);
    w' := Apply(w, a);
  }

  /** Once a revoked token of mine is left in the storage with no refresh running,
      the next request that is answered 401 makes reuse detection fire. */
  lemma LeftoverIsReused(w: World) returns (w': World)
    requires Possible(w) && w.pending == None && w.stored.Some?
    requires w.stored.value in w.db.rows && w.db.rows[w.stored.value].user == w.me
    requires w.db.rows[w.stored.value].revoked.Some?
    ensures Possible(w') && w'.reuse
  {
    var r, p, t := |w.reqs|, |w.posts|, w.stored.value;
    var w1 := Do(w, Send);
    var w2 := Do(w1, Got401(r));
    assert w2.reqs[r].pc == Leading(ReadStored) && w2.stored == Some(t) && w2.posts == w.posts && w2.db == w.db;
    var w3 := Do(w2, LeaderRead(r));
    assert w3.posts == w.posts + [Post(true, t, Unanswered)] && w3.db == w.db && w3.me == w.me;
    var issued := NewToken(w.db.rows.Keys);
    w' := Do(w3, ServeRefresh(p, issued, 0, NoFault));
  }

  /** User 1 exists, has no tokens, and has asked to log in. */
  lemma LoginSent() returns (w: World)
    ensures Possible(w)
    ensures w == World(Db(map[], {1}, 100, 0, []), 1, None, None, None, [], [], [FlowSent], None, false)
  {
    var w0 := World(Db(map[], {1}, 100, 0, []), 1, None, None, None, [], [], [], None, false);
    assert Steps(w0, [], w0);
    w := Do(w0, StartLogin);
    assert w.flows == [FlowSent];
  }

  /** The server has answered the first login of user 1 with token 10. */
  lemma LoginAnswered() returns (w: World)
    ensures Possible(w) && w.me == 1 && w.flows == [FlowAnswered(10)] && w.pending == None && w.logout == None
    ensures w.reqs == [] && w.posts == [] && w.db == Db(map[10 := TokenRow(1, 100, None, 0)], {1}, 100, 1, [])
  {
    var w1 := LoginSent();
    w := Do(w1, ServeLogin(0, true, true, 10, 0, NoFault));
  }

  /** User 1 has logged in: token 10 is stored and active, and nothing is going on. */
  lemma LoggedIn() returns (w: World)
    ensures Possible(w) && w.me == 1 && w.stored == Some(10) && w.pending == None && w.logout == None
    ensures w.reqs == [] && w.posts == [] && w.db == Db(map[10 := TokenRow(1, 100, None, 0)], {1}, 100, 1, [])
  {
    var w0 := LoginAnswered();
    var w1 := Do(w0, FlowSaveAccess(0));
    assert w1.flows == [FlowSaving(10)];
    w := Do(w1, FlowSaveRefresh(0));
  }

  /** The interceptor has read token 10 and posted it. */
  lemma Posted() returns (w: World)
    ensures Possible(w) && w.me == 1 && w.stored == Some(10) && w.pending == Some(0) && w.logout == None
    ensures w.reqs == [Req(Leading(Posting(0)), Open)] && w.posts == [Post(true, 10, Unanswered)]
    ensures w.db == Db(map[10 := TokenRow(1, 100, None, 0)], {1}, 100, 1, [])
  {
    var w0 := LoggedIn();
    var w1 := Do(w0, Send);
    assert w1.reqs == [Req(Sent, Open)];
    w := ReadAndPost(w1);
  }

  lemma ReadAndPost(w1: World) returns (w: World)
    requires Possible(w1) && w1.stored == Some(10) && w1.pending == None && w1.reqs == [Req(Sent, Open)] && w1.posts == []
    ensures Possible(w) && w.me == w1.me && w.logout == w1.logout && w.stored == Some(10) && w.pending == Some(0) && w.db == w1.db
    ensures w.reqs == [Req(Leading(Posting(0)), Open)] && w.posts == [Post(true, 10, Unanswered)]
  {
    var w2 := Do(w1, Got401(0));
    assert w2.reqs == [Req(Leading(ReadStored), Open)];
    w := Do(w2, LeaderRead(0));
  }

  /** A refresh is on its way back: the server has rotated token 10, the app still stores it. */
  lemma RotatedButNotStored() returns (w: World)
    ensures Possible(w) && w.me == 1 && w.stored == Some(10)
    ensures 10 in w.db.rows && w.db.rows[10].user == 1 && w.db.rows[10].revoked.Some?
    ensures |w.reqs| == 1 && w.reqs[0].pc == Leading(Posting(0)) && w.pending == Some(0)
  {
    var w0 := Posted();
    w := Do(w0, ServeRefresh(0, 11, 0, NoFault));
  }

  /** Killing the app while the answer is on its way is enough; saveTokens need not have begun. */
  lemma CrashBreaksIt() returns (w: World)
    ensures Possible(w) && w.reuse
  {
    var w0 := RotatedButNotStored();
    var w1 := Do(w0, Crash);
    w := LeftoverIsReused(w1);
  }

  /** So is a lost answer followed by a delete that fails. */
  lemma FailingDeleteBreaksIt() returns (w: World)
    ensures Possible(w) && w.reuse
  {
    var w0 := RotatedButNotStored();
    var w1 := Do(w0, LeaderGivesUp(0));
    var w2 := Do(w1, LeaderClearFails(0));
    w := LeftoverIsReused(w2);
  }

  /** So is a 401 that arrives between the server's logout and the clearing of the storage. */
  lemma LogoutRaceBreaksIt() returns (w: World)
    ensures Possible(w) && w.reuse
  {
    var w0 := LoggedIn();
    var w1 := Do(w0, StartLogout);
    var w2 := LogoutServed(w1);
    w := LeftoverIsReused(w2);
  }

  lemma LogoutServed(w1: World) returns (w: World)
    requires Possible(w1) && w1.logout == Some(LogoutReading) && w1.stored == Some(10) && w1.pending == None
    requires w1.posts == [] && Mine(w1, 10)
    ensures Possible(w) && w.stored == Some(10) && w.pending == None
    ensures Mine(w, 10) && w.db.rows[10].revoked.Some?
  {
    var w2 := Do(w1, LogoutStep);
    assert w2.posts == [Post(false, 10, Unanswered)] && w2.db == w1.db && w2.stored == Some(10) && w2.pending == None;
    w := ServeLogoutOf(w2, 0);
  }

  lemma ServeLogoutOf(w: World, p: PostId) returns (w': World)
    requires Possible(w) && p < |w.posts| && w.posts[p] == Post(false, 10, Unanswered) && Mine(w, 10)
    ensures Possible(w') && Mine(w', 10) && w'.db.rows[10].revoked.Some?
    ensures w' == w.(db := w'.db, posts := w.posts[p := Post(false, 10, Rejected)])
  {
    w' := Do(w, ServeLogout(p, 0, NoFault));
  }

  /** So is a logout that starts while a refresh is on its way: its own post revokes the
      token before the refresh is served. */
  lemma OverlappingLogoutBreaksIt() returns (w: World)
    ensures Possible(w) && w.reuse
  {
    var w0 := Posted();
    var w1 := Do(w0, StartLogout);
    var w2 := Do(w1, LogoutStep);
    assert w2.posts == [Post(true, 10, Unanswered), Post(false, 10, Unanswered)] && w2.db == w0.db;
    w := LogoutBeforeRefresh(w2);
  }

  lemma LogoutBeforeRefresh(w2: World) returns (w: World)
    requires Possible(w2) && w2.posts == [Post(true, 10, Unanswered), Post(false, 10, Unanswered)] && Mine(w2, 10)
    ensures Possible(w) && w.reuse
  {
    var w3 := ServeLogoutOf(w2, 1);
    var issued := NewToken(w3.db.rows.Keys);
    w := Do(w3, ServeRefresh(0, issued, 0, NoFault));
  }
}

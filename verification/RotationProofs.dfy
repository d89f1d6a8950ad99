/** In every disciplined run the interceptor posts only active refresh tokens, so
    reuse detection never fires for the app's own user. */
module RotationProofs {
  import opened Wire
  import opened TokenModel
  import opened RotationModel

  // ---------- the invariant ----------

  /** An unserved refresh carries an active token; an exchanged token is revoked. */
  ghost predicate PostOk(w: World, i: nat)
    requires i < |w.posts|
  {
    var post := w.posts[i];
    && Mine(w, post.token)
    && (post.refresh && post.answer.Unanswered? ==> Active(w.db, post.token))
    && (post.answer.Got? ==> w.db.rows[post.token].revoked.Some?)
  }

  /** The later of two posts of one token: a refresh comes after a refusal that left the
      token active, a logout not while a refresh is on its way. */
  predicate InTurn(earlier: Post, later: Post) {
    earlier.token == later.token ==>
      && (later.refresh ==> earlier.answer.Rejected?)
      && (earlier.refresh ==> !(earlier.answer.Unanswered? && later.answer.Unanswered?))
  }

  ghost predicate PostsOk(w: World) {
    && (forall i :: 0 <= i < |w.posts| ==> PostOk(w, i))
    && (forall i, j :: 0 <= i < j < |w.posts| ==> InTurn(w.posts[i], w.posts[j]))
  }

  /** What is stored is free, or will be replaced or deleted by whoever is at work. */
  ghost predicate StoredOk(w: World) {
    w.stored.Some? ==> Mine(w, w.stored.value) && (Free(w, w.stored.value) || LeaderWillSettle(w) || w.logout.Some?)
  }

  /** What the readers of the storage rely on. */
  ghost predicate ReadersOk(w: World) {
    && (LeaderReads(w) ==> w.logout != Some(LogoutReading) && Clean(w))
    && (w.logout == Some(LogoutReading) && w.stored.Some? ==> !CarriedByRefresh(w.posts, w.stored.value))
  }

  /** The token that the running refresh has been given and not yet stored. */
  function LeaderToken(w: World): Option<Token> {
    match LeaderPhase(w)
    case Some(SavingAccess(next)) => Some(next)
    case Some(SavingRefresh(next)) => Some(next)
    case Some(Posting(p)) => if p < |w.posts| && w.posts[p].answer.Got? then Some(w.posts[p].answer.next) else None
    case _ => None
  }

  function FlowToken(f: Flow): Option<Token> {
    match f
    case FlowAnswered(t) => Some(t)
    case FlowSaving(t) => Some(t)
    case _ => None
  }

  /** A token on its way to the storage is free, not stored, and on its way only once. */
  ghost predicate HoldersOk(w: World) {
    && (LeaderToken(w).Some? ==> Free(w, LeaderToken(w).value) && w.stored != LeaderToken(w))
    && (forall f :: 0 <= f < |w.flows| && FlowToken(w.flows[f]).Some? ==>
          Free(w, FlowToken(w.flows[f]).value) && w.stored != FlowToken(w.flows[f])
          && LeaderToken(w) != FlowToken(w.flows[f]))
    && (forall f, g :: 0 <= f < g < |w.flows| && FlowToken(w.flows[f]).Some? ==> FlowToken(w.flows[f]) != FlowToken(w.flows[g]))
  }

  /** One leader at a time, and every waiter's leader is running or has completed. */
  ghost predicate ReqsOk(w: World) {
    && (w.pending.Some? ==> InPhase(w, w.pending.value))
    && (forall r :: 0 <= r < |w.reqs| ==> ReqOk(w, r))
  }

  ghost predicate ReqOk(w: World, r: ReqId)
    requires r < |w.reqs|
  {
    match w.reqs[r].pc
    case Leading(phase) =>
      && w.pending == Some(r)
      && (phase.Posting? ==> phase.post < |w.posts| && w.posts[phase.post].refresh)
      && (if phase.RetryingFirst? then w.reqs[r].completer == Access(phase.access)
          else if IsClearing(phase) then w.reqs[r].completer.Null?
          else w.reqs[r].completer.Open?)
    case Sent => w.reqs[r].completer.Open?
    case WaitingOn(n) =>
      w.reqs[r].completer.Open? && n < |w.reqs| && (w.reqs[n].pc.Leading? || !w.reqs[n].completer.Open?)
    case _ => true
  }

  /** What concerns the storage and the tokens on their way to it. */
  ghost predicate TokensOk(w: World) {
    StoredOk(w) && ReadersOk(w) && HoldersOk(w)
  }

  ghost predicate Inv(w: World) {
    !w.reuse && PostsOk(w) && TokensOk(w) && ReqsOk(w)
  }

  // ---------- actions of the app ----------

  lemma PostsSame(w: World, w': World)
    requires PostsOk(w) && w'.db == w.db && w'.me == w.me && w'.posts == w.posts
    ensures PostsOk(w')
  {
    forall i | 0 <= i < |w'.posts| ensures PostOk(w', i) {
      assert PostOk(w, i);
    }
  }

  /** One request changes; a completer once completed stays so. */
  lemma ReqsPut(w: World, w': World, r: ReqId)
    requires ReqsOk(w) && r < |w.reqs| == |w'.reqs| && w'.reqs == w.reqs[r := w'.reqs[r]] && w'.posts == w.posts
    requires w'.pending.Some? ==> InPhase(w', w'.pending.value)
    requires w'.pending == w.pending || (w.pending == None && w'.pending == Some(r)) || (w.pending == Some(r) && w'.pending == None)
    requires ReqOk(w', r)
    requires w.reqs[r].pc.Leading? || !w.reqs[r].completer.Open? ==> w'.reqs[r].pc.Leading? || !w'.reqs[r].completer.Open?
    ensures ReqsOk(w')
  {
    forall q | 0 <= q < |w'.reqs| ensures ReqOk(w', q) {
      assert ReqOk(w, q);
    }
  }

  lemma ReqsSame(w: World, w': World)
    requires ReqsOk(w) && w'.reqs == w.reqs && w'.pending == w.pending
    requires |w'.posts| >= |w.posts| && forall i :: 0 <= i < |w.posts| ==> w'.posts[i].refresh == w.posts[i].refresh
    ensures ReqsOk(w')
  {
    forall q | 0 <= q < |w'.reqs| ensures ReqOk(w', q) {
      assert ReqOk(w, q);
    }
  }

  predicate IsRequestAction(a: Action) {
    a.Answered? || a.OtherError? || a.Got401? || a.WaiterResume? || a.WaiterRetry?
  }

  predicate IsLeaderAction(a: Action) {
    a.LeaderReadFails? || a.LeaderAnswer? || a.LeaderGivesUp? || a.LeaderSaveAccess? || a.LeaderSaveRefresh? || a.LeaderSaveFails?
    || a.LeaderRetryOk? || a.LeaderRetryFails? || a.LeaderClear? || a.LeaderClearFails? || a.LeaderExpireFails?
  }

  predicate IsFlowAction(a: Action) {
    a.StartLogin? || a.FlowSaveAccess? || a.FlowSaveRefresh? || a.FlowDrop?
  }

  /** In every run, disciplined or not: one leader, and waiters that are not forgotten. */
  lemma ReqsApply(w: World, a: Action)
    requires ReqsOk(w) && Enabled(w, a)
    ensures ReqsOk(Apply(w, a))
  {
    if IsRequestAction(a) || IsLeaderAction(a) {
      ReqsOne(w, a);
    } else if a.LeaderRead? {
      ReqsRead(w, a.r);
    } else if a.Send? {
      ReqsSend(w);
    } else if !a.Crash? {
      ReqsElsewhere(w, a);
    }
  }

  lemma ReqsOne(w: World, a: Action)
    requires ReqsOk(w) && Enabled(w, a) && (IsRequestAction(a) || IsLeaderAction(a))
    ensures ReqsOk(Apply(w, a))
  {
    assert ReqOk(w, a.r);
    ReqsPut(w, Apply(w, a), a.r);
  }

  lemma ReqsRead(w: World, r: ReqId)
    requires ReqsOk(w) && Enabled(w, LeaderRead(r))
    ensures ReqsOk(Apply(w, LeaderRead(r)))
  {
    assert ReqOk(w, r);
    if w.stored == None {
      ReqsPut(w, Apply(w, LeaderRead(r)), r);
    } else {
      var v := PutPost(w, w.stored.value, true);
      ReqsSame(w, v);
      ReqsPut(v, Apply(w, LeaderRead(r)), r);
    }
  }

  lemma ReqsSend(w: World)
    requires ReqsOk(w)
    ensures ReqsOk(w.(reqs := w.reqs + [Req(Sent, Open)]))
  {
    var w' := w.(reqs := w.reqs + [Req(Sent, Open)]);
    forall q | 0 <= q < |w'.reqs| ensures ReqOk(w', q) {
      assert q < |w.reqs| ==> ReqOk(w, q);
    }
  }

  lemma ReqsElsewhere(w: World, a: Action)
    requires ReqsOk(w) && Enabled(w, a) && !a.Crash? && !a.Send? && !a.LeaderRead?
    requires !IsRequestAction(a) && !IsLeaderAction(a)
    ensures ReqsOk(Apply(w, a))
  {
    ReqsSame(w, Apply(w, a));
  }

  /** What every disciplined action keeps besides ReqsOk. */
  ghost predicate Sound(w: World) {
    !w.reuse && PostsOk(w) && TokensOk(w)
  }

  lemma InvSend(w: World)
    requires Inv(w)
    ensures Sound(w.(reqs := w.reqs + [Req(Sent, Open)]))
  {
    var w' := w.(reqs := w.reqs + [Req(Sent, Open)]);
    PostsSame(w, w');
    assert LeaderPhase(w') == LeaderPhase(w);
  }

  lemma InvRequest(w: World, a: Action)
    requires Inv(w) && Enabled(w, a) && Tame(w, a) && IsRequestAction(a)
    ensures Sound(Apply(w, a))
  {
    PostsSame(w, Apply(w, a));
    assert ReqOk(w, a.r);
  }

  lemma InvLeader(w: World, a: Action)
    requires Inv(w) && Enabled(w, a) && Tame(w, a) && IsLeaderAction(a)
    ensures Sound(Apply(w, a))
  {
    PostsSame(w, Apply(w, a));
    assert ReqOk(w, a.r);
    StorageLeader(w, a);
    HoldersLeader(w, a);
  }

  lemma StorageLeader(w: World, a: Action)
    requires TokensOk(w) && Enabled(w, a) && Tame(w, a) && IsLeaderAction(a) && w.pending == Some(a.r)
    ensures StoredOk(Apply(w, a)) && ReadersOk(Apply(w, a))
  {
  }

  lemma HoldersLeader(w: World, a: Action)
    requires HoldersOk(w) && Enabled(w, a) && IsLeaderAction(a) && w.pending == Some(a.r)
    ensures HoldersOk(Apply(w, a))
  {
    var w' := Apply(w, a);
    assert w'.db == w.db && w'.me == w.me && w'.posts == w.posts && w'.flows == w.flows;
    assert LeaderToken(w') == None || LeaderToken(w') == LeaderToken(w);
    assert w'.stored == w.stored || w'.stored == None || (w'.stored == LeaderToken(w) && LeaderToken(w') == None);
  }

  lemma PostsPut(w: World, t: Token, refresh: bool)
    requires PostsOk(w) && Mine(w, t)
    requires if refresh then Free(w, t) else !CarriedByRefresh(w.posts, t)
    ensures PostsOk(PutPost(w, t, refresh))
  {
    var w' := PutPost(w, t, refresh);
    forall i | 0 <= i < |w'.posts| ensures PostOk(w', i) {
      assert i < |w.posts| ==> PostOk(w, i);
    }
    forall i, j | 0 <= i < j < |w'.posts| ensures InTurn(w'.posts[i], w'.posts[j]) {
      assert PostOk(w, i);
    }
  }

  /** A new post makes only its own token carried. */
  lemma StillFree(w: World, t: Token, refresh: bool, k: Token)
    requires k != t
    ensures Free(PutPost(w, t, refresh), k) <==> Free(w, k)
  {
    var w' := PutPost(w, t, refresh);
    if i :| 0 <= i < |w.posts| && w.posts[i].token == k && w.posts[i].answer.Unanswered? {
      assert w'.posts[i] == w.posts[i];
    }
  }

  lemma HoldersPut(w: World, w': World, t: Token, refresh: bool)
    requires HoldersOk(w) && w.stored == Some(t)
    requires LeaderToken(w') == LeaderToken(w) && w' == PutPost(w, t, refresh).(reqs := w'.reqs, logout := w'.logout)
    ensures HoldersOk(w')
  {
    forall k: Token | k != t ensures Free(w', k) <==> Free(w, k) {
      StillFree(w, t, refresh, k);
      assert Carried(w'.posts, k) == Carried(PutPost(w, t, refresh).posts, k);
    }
  }

  lemma InvLeaderRead(w: World, r: ReqId)
    requires Inv(w) && Enabled(w, LeaderRead(r))
    ensures Sound(Apply(w, LeaderRead(r)))
  {
    var w' := Apply(w, LeaderRead(r));
    assert ReqOk(w, r);
    if w.stored == None {
      PostsSame(w, w');
    } else {
      var v := PutPost(w, w.stored.value, true);
      PostsPut(w, w.stored.value, true);
      PostsSame(v, w');
      HoldersPut(w, w', w.stored.value, true);
    }
  }

  lemma InvFlow(w: World, a: Action)
    requires Inv(w) && Enabled(w, a)
    requires IsFlowAction(a)
    ensures Sound(Apply(w, a))
  {
    PostsSame(w, Apply(w, a));
    TokensFlow(w, a);
  }

  lemma TokensFlow(w: World, a: Action)
    requires TokensOk(w) && Enabled(w, a)
    requires IsFlowAction(a)
    ensures TokensOk(Apply(w, a))
  {
    var w' := Apply(w, a);
    assert LeaderPhase(w') == LeaderPhase(w);
    if a.FlowSaveRefresh? {
      FreeIsUncarried(w, w.flows[a.f].token);
    }
  }

  lemma FreeIsUncarried(w: World, t: Token)
    requires Free(w, t)
    ensures !CarriedByRefresh(w.posts, t)
  {
  }

  lemma InvLogout(w: World)
    requires Inv(w) && w.logout.Some?
    ensures Sound(LogOut(w))
  {
    if w.logout.value.LogoutReading? && w.stored.Some? {
      PostsPut(w, w.stored.value, false);
      PostsSame(PutPost(w, w.stored.value, false), LogOut(w));
      HoldersPut(w, LogOut(w), w.stored.value, false);
    } else {
      PostsSame(w, LogOut(w));
    }
  }

  lemma InvAppLife(w: World, a: Action)
    requires Inv(w) && Enabled(w, a) && Tame(w, a) && (a.StartLogout? || a.LogoutReadFails? || a.LogoutClearFails? || a.Crash?)
    ensures Sound(Apply(w, a))
  {
    PostsSame(w, Apply(w, a));
    if a.StartLogout? && w.pending == None && w.stored.Some? {
      FreeIsUncarried(w, w.stored.value);
    }
  }

  // ---------- actions of the server ----------

  /** What a served request may do to the table: rows stay with their users, new
      revocations of my tokens are of the one that was posted. */
  ghost predicate Touches(w: World, db': Db, posted: set<Token>) {
    forall t :: t in w.db.rows ==>
                  && t in db'.rows && db'.rows[t].user == w.db.rows[t].user
                  && (w.db.rows[t].revoked.Some? ==> db'.rows[t].revoked.Some?)
                  && (db'.rows[t].user == w.me && db'.rows[t].revoked.Some? ==> w.db.rows[t].revoked.Some? || t in posted)
  }

  lemma PostsServed(w: World, w': World, p: PostId)
    requires PostsOk(w) && p < |w.posts| == |w'.posts| && w'.me == w.me
    requires w.posts[p].answer.Unanswered? && w'.posts == w.posts[p := w'.posts[p]]
    requires w'.posts[p] == w.posts[p].(answer := w'.posts[p].answer) && !w'.posts[p].answer.Unanswered?
    requires Touches(w, w'.db, {w.posts[p].token})
    requires w'.posts[p].answer.Got? ==>
               w.posts[p].token in w'.db.rows && w'.db.rows[w.posts[p].token].revoked.Some?
    ensures PostsOk(w')
  {
    assert PostOk(w, p);
    forall i | 0 <= i < |w'.posts| ensures PostOk(w', i) {
      assert PostOk(w, i);
      if i < p {
        assert InTurn(w.posts[i], w.posts[p]);
      } else if i > p {
        assert InTurn(w.posts[p], w.posts[i]);
      }
    }
    forall i, j | 0 <= i < j < |w'.posts| ensures InTurn(w'.posts[i], w'.posts[j]) {
      assert InTurn(w.posts[i], w.posts[j]);
    }
  }

  lemma PostsElsewhere(w: World, w': World)
    requires PostsOk(w) && w'.me == w.me && w'.posts == w.posts && Touches(w, w'.db, {})
    ensures PostsOk(w')
  {
    forall i | 0 <= i < |w'.posts| ensures PostOk(w', i) {
      assert PostOk(w, i);
    }
  }

  /** A free token stays free, whatever the server serves. */
  lemma FreeServed(w: World, w': World, p: PostId, k: Token)
    requires p < |w.posts| == |w'.posts| && w'.me == w.me && w.posts[p].answer.Unanswered?
    requires w'.posts == w.posts[p := w'.posts[p]] && !w'.posts[p].answer.Unanswered?
    requires Touches(w, w'.db, {w.posts[p].token}) && Free(w, k)
    ensures Free(w', k)
  {
    assert k != w.posts[p].token;
    assert forall i :: 0 <= i < |w'.posts| && i != p ==> w'.posts[i] == w.posts[i];
  }

  lemma UncarriedServed(w: World, w': World, p: PostId, k: Token)
    requires p < |w.posts| == |w'.posts|
    requires w'.posts == w.posts[p := w'.posts[p]] && !w'.posts[p].answer.Unanswered?
    requires !CarriedByRefresh(w.posts, k)
    ensures !CarriedByRefresh(w'.posts, k)
  {
    assert forall i :: 0 <= i < |w'.posts| && i != p ==> w'.posts[i] == w.posts[i];
  }

  lemma RefreshTouches(w: World, t: Token, issued: Token, now: nat, fault: Fault)
    requires Active(w.db, t) && issued !in w.db.rows
    ensures Touches(w, Refresh(w.db, t, issued, now, fault).0, {t})
    ensures Refresh(w.db, t, issued, now, fault).1.Tokens? ==>
              var db' := Refresh(w.db, t, issued, now, fault).0;
              && Active(db', issued) && db'.rows[issued].user == w.db.rows[t].user
              && db'.rows[t].revoked.Some?
  {
  }

  /** A post of mine names a token that exists, so a new token is carried by none. */
  lemma NewIsUncarried(w: World, issued: Token)
    requires PostsOk(w) && issued !in w.db.rows
    ensures !Carried(w.posts, issued)
  {
    forall i | 0 <= i < |w.posts| ensures w.posts[i].token != issued {
      assert PostOk(w, i);
    }
  }

  lemma TokensServed(w: World, w': World, p: PostId, issued: Token)
    requires PostsOk(w) && TokensOk(w) && issued !in w.db.rows && p < |w.posts| == |w'.posts|
    requires w' == w.(db := w'.db, posts := w.posts[p := w'.posts[p]], reuse := w'.reuse)
    requires w.posts[p].answer.Unanswered? && Touches(w, w'.db, {w.posts[p].token})
    requires w'.posts[p] == w.posts[p].(answer := w'.posts[p].answer) && !w'.posts[p].answer.Unanswered?
    requires w'.posts[p].answer.Got? ==>
               w'.posts[p].answer.next == issued && Active(w'.db, issued) && w'.db.rows[issued].user == w.me
    ensures TokensOk(w')
  {
    forall k | Free(w, k) ensures Free(w', k) {
      FreeServed(w, w', p, k);
    }
    if w.stored.Some? && !CarriedByRefresh(w.posts, w.stored.value) {
      UncarriedServed(w, w', p, w.stored.value);
    }
    NewIsUncarried(w, issued);
    assert !Carried(w'.posts, issued);
    assert LeaderPhase(w') == LeaderPhase(w);
    assert LeaderToken(w') == LeaderToken(w) || LeaderToken(w') == Some(issued);
  }

  lemma InvServeRefresh(w: World, p: PostId, issued: Token, now: nat, fault: Fault)
    requires Inv(w) && Enabled(w, ServeRefresh(p, issued, now, fault))
    ensures Sound(Serve(w, p, issued, now, fault))
  {
    var w' := Serve(w, p, issued, now, fault);
    assert PostOk(w, p);
    RefreshTouches(w, w.posts[p].token, issued, now, fault);
    PostsServed(w, w', p);
    TokensServed(w, w', p, issued);
  }

  lemma InvServeLogout(w: World, p: PostId, now: nat, fault: Fault)
    requires Inv(w) && Enabled(w, ServeLogout(p, now, fault))
    ensures Sound(Apply(w, ServeLogout(p, now, fault)))
  {
    var w' := Apply(w, ServeLogout(p, now, fault));
    PostsServed(w, w', p);
    var issued := NewToken(w.db.rows.Keys);
    TokensServed(w, w', p, issued);
  }

  lemma InvServeLogin(w: World, a: Action)
    requires Inv(w) && Enabled(w, a) && a.ServeLogin?
    ensures Sound(Apply(w, a))
  {
    PostsElsewhere(w, Apply(w, a));
    NewIsUncarried(w, a.issued);
    TokensLogin(w, a);
  }

  lemma TokensLogin(w: World, a: Action)
    requires TokensOk(w) && Enabled(w, a) && a.ServeLogin? && !Carried(w.posts, a.issued)
    ensures TokensOk(Apply(w, a))
  {
    assert LeaderPhase(Apply(w, a)) == LeaderPhase(w);
  }

  lemma ForeignTouches(w: World, c: Call)
    requires Foreign(w, c)
    ensures Touches(w, Handle(w.db, c).0, {})
  {
  }

  lemma InvServeOther(w: World, c: Call)
    requires Inv(w) && Foreign(w, c)
    ensures Sound(w.(db := Handle(w.db, c).0))
  {
    ForeignTouches(w, c);
    InvElsewhere(w, Handle(w.db, c).0);
  }

  lemma InvElsewhere(w: World, db': Db)
    requires Inv(w) && Touches(w, db', {})
    ensures Sound(w.(db := db'))
  {
    var w' := w.(db := db');
    PostsElsewhere(w, w');
    assert LeaderPhase(w') == LeaderPhase(w);
  }

  lemma {:induction false} NewToken(used: set<Token>) returns (t: Token)
    ensures t !in used
    ensures forall u :: u in used ==> u < t
  {
    if used == {} {
      t := 0;
    } else {
      var u :| u in used;
      t := NewToken(used - {u});
      assert forall v :: v in used ==> v == u || v in used - {u};
      t := if u < t then t else u + 1;
    }
  }

  // ---------- every disciplined run ----------

  lemma InvApply(w: World, a: Action)
    requires Inv(w) && Enabled(w, a) && Tame(w, a)
    ensures Inv(Apply(w, a))
  {
    ReqsApply(w, a);
    if IsRequestAction(a) {
      InvRequest(w, a);
    } else if IsLeaderAction(a) {
      InvLeader(w, a);
    } else if IsFlowAction(a) {
      InvFlow(w, a);
    } else {
      InvOther(w, a);
    }
  }

  lemma InvOther(w: World, a: Action)
    requires Inv(w) && Enabled(w, a) && Tame(w, a) && !IsRequestAction(a) && !IsLeaderAction(a) && !IsFlowAction(a)
    ensures Sound(Apply(w, a))
  {
    match a
    case Send => InvSend(w);
    case LeaderRead(r) => InvLeaderRead(w, r);
    case LogoutStep => InvLogout(w);
    case StartLogout => InvAppLife(w, a);
    case LogoutReadFails => InvAppLife(w, a);
    case LogoutClearFails => InvAppLife(w, a);
    case Crash => InvAppLife(w, a);
    case ServeRefresh(p, issued, now, fault) => InvServeRefresh(w, p, issued, now, fault);
    case ServeLogout(p, now, fault) => InvServeLogout(w, p, now, fault);
    case ServeLogin(_, _, _, _, _, _) => InvServeLogin(w, a);
    case ServeOther(c) => InvServeOther(w, c);
  }

  lemma {:induction false} InvRun(w: World, acts: seq<Action>, w': World)
    requires Inv(w) && TameSteps(w, acts, w')
    ensures Inv(w')
    decreases |acts|
  {
    if acts != [] {
      InvApply(w, acts[0]);
      InvRun(Apply(w, acts[0]), acts[1..], w');
    }
  }

  lemma InitInv(w: World)
    requires Init(w)
    ensures Inv(w)
  {
  }

  /** Rotation, both parties together. After any disciplined run of the app, the
      network and the server: the token that the interceptor is about to post is an
      active one of this user; every refresh that the server has yet to serve is of an
      active token, even one whose client gave up long ago; and reuse detection has
      never fired for this user. */
  lemma NeverPostsRevoked(w0: World, acts: seq<Action>, w: World, r: ReqId)
    requires Init(w0) && TameSteps(w0, acts, w)
    ensures Enabled(w, LeaderRead(r)) && w.stored.Some? ==>
              Active(w.db, w.stored.value) && w.db.rows[w.stored.value].user == w.me
    ensures forall p :: 0 <= p < |w.posts| && w.posts[p].refresh && w.posts[p].answer.Unanswered? ==>
                          Active(w.db, w.posts[p].token)
    ensures !w.reuse
  {
    InitInv(w0);
    InvRun(w0, acts, w);
    if Enabled(w, LeaderRead(r)) && w.stored.Some? {
      assert ReqOk(w, r);
    }
    forall p | 0 <= p < |w.posts| && w.posts[p].refresh && w.posts[p].answer.Unanswered?
      ensures Active(w.db, w.posts[p].token)
    {
      assert PostOk(w, p);
    }
  }

  lemma {:induction false} ReqsRun(w: World, acts: seq<Action>, w': World)
    requires ReqsOk(w) && Steps(w, acts, w')
    ensures ReqsOk(w')
    decreases |acts|
  {
    if acts != [] {
      ReqsApply(w, acts[0]);
      ReqsRun(Apply(w, acts[0]), acts[1..], w');
    }
  }

  /** Single flight. In every run, disciplined or not, at most one refresh runs at a time,
      and a waiting request waits for a refresh that runs or has completed. */
  lemma SingleFlight(w0: World, acts: seq<Action>, w: World)
    requires Init(w0) && Steps(w0, acts, w)
    ensures forall q, r :: 0 <= q < |w.reqs| && 0 <= r < |w.reqs| && w.reqs[q].pc.Leading? && w.reqs[r].pc.Leading? ==> q == r
    ensures forall r :: 0 <= r < |w.reqs| && w.reqs[r].pc.WaitingOn? ==>
                          w.reqs[r].pc.leader < |w.reqs|
                          && (Enabled(w, WaiterResume(r)) || w.pending == Some(w.reqs[r].pc.leader))
  {
    ReqsRun(w0, acts, w);
    forall r | 0 <= r < |w.reqs| && (w.reqs[r].pc.Leading? || w.reqs[r].pc.WaitingOn?)
      ensures w.reqs[r].pc.Leading? ==> w.pending == Some(r)
      ensures w.reqs[r].pc.WaitingOn? ==>
                w.reqs[r].pc.leader < |w.reqs|
                && (Enabled(w, WaiterResume(r)) || w.pending == Some(w.reqs[r].pc.leader))
    {
      assert ReqOk(w, r);
      assert w.reqs[r].pc.WaitingOn? ==> ReqOk(w, w.reqs[r].pc.leader);
    }
  }

  /** In every disciplined run a token is posted for a refresh only after every earlier
      post of it was answered without an exchange. */
  lemma PostedInTurn(w0: World, acts: seq<Action>, w: World, i: nat, j: nat)
    requires Init(w0) && TameSteps(w0, acts, w) && i < j < |w.posts|
    ensures w.posts[j].refresh && w.posts[i].token == w.posts[j].token ==> w.posts[i].answer.Rejected?
  {
    InitInv(w0);
    InvRun(w0, acts, w);
    assert InTurn(w.posts[i], w.posts[j]);
  }
}

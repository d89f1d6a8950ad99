/** One app instance and the server: the interceptor's single-flight refresh, the
    logins and the logout of the app, the network between, and the token table. Each
    await is a point where any other action may come first. */
module RotationModel {
  import opened Wire
  import opened TokenModel

  type ReqId = nat
  type PostId = nat
  type FlowId = nat

  /** Where the request that runs the refresh is. */
  datatype Phase =
    | ReadStored
    | Posting(post: PostId)
    | SavingAccess(next: Token)
    | SavingRefresh(next: Token)
    | RetryingFirst(access: Token)
    | ClearingAccess
    | ClearingRefresh
    | ExpiringAccess
    | ExpiringRefresh

  /** A request through the interceptor. Resolved and Failed complete its handler;
      Hung is an onError that ended by throwing, its handler never completed. */
  datatype Pc =
    | Sent
    | WaitingOn(leader: ReqId)
    | Leading(phase: Phase)
    | Retrying(access: Token)
    | Resolved
    | Failed
    | Hung

  datatype Completion = Open | Null | Access(token: Token)

  datatype Req = Req(pc: Pc, completer: Completion)

  /** A POST of a refresh token; the server may serve it long after the client gave up. */
  datatype Answer = Unanswered | Got(next: Token) | Rejected
  datatype Post = Post(refresh: bool, token: Token, answer: Answer)

  datatype Flow = FlowSent | FlowAnswered(token: Token) | FlowSaving(token: Token) | FlowDone

  datatype LogoutPc = LogoutReading | LogoutPosted | LogoutClearingAccess | LogoutClearingRefresh

  /** An access token is named by the refresh token issued with it. reuse is history: it
      records that reuse detection fired for me. */
  datatype World = World(
    db: Db,
    me: UserId,
    access: Option<Token>,
    stored: Option<Token>,
    pending: Option<ReqId>,
    reqs: seq<Req>,
    posts: seq<Post>,
    flows: seq<Flow>,
    logout: Option<LogoutPc>,
    reuse: bool)

  datatype Action =
    // requests and the interceptor
    | Send
    | Answered(r: ReqId)
    | OtherError(r: ReqId)
    | Got401(r: ReqId)
    | LeaderRead(r: ReqId)
    | LeaderReadFails(r: ReqId)
    | LeaderAnswer(r: ReqId)
    | LeaderGivesUp(r: ReqId)
    | LeaderSaveAccess(r: ReqId)
    | LeaderSaveRefresh(r: ReqId)
    | LeaderSaveFails(r: ReqId)
    | LeaderRetryOk(r: ReqId)
    | LeaderRetryFails(r: ReqId)
    | LeaderClear(r: ReqId)
    | LeaderClearFails(r: ReqId)
    | LeaderExpireFails(r: ReqId)
    | WaiterResume(r: ReqId)
    | WaiterRetry(r: ReqId, ok: bool)
    // logins, logout, and the death of the app
    | StartLogin
    | FlowSaveAccess(f: FlowId)
    | FlowSaveRefresh(f: FlowId)
    | FlowDrop(f: FlowId)
    | StartLogout
    | LogoutStep
    | LogoutReadFails
    | LogoutClearFails
    | Crash
    // the server
    | ServeRefresh(p: PostId, issued: Token, now: nat, fault: Fault)
    | ServeLogout(p: PostId, now: nat, fault: Fault)
    | ServeLogin(f: FlowId, valid: bool, verified: bool, issued: Token, now: nat, fault: Fault)
    | ServeOther(call: Call)

  // ---------- enabling conditions ----------

  predicate InPhase(w: World, r: ReqId) {
    r < |w.reqs| && w.reqs[r].pc.Leading?
  }

  /** A call that involves nobody's tokens but other users'. */
  predicate Foreign(w: World, c: Call) {
    FreshEnough(w.db, c.r) &&
    match c.r
    case LoginRequest(u, _, _, _) => u != w.me
    case RefreshRequest(t, _) => t in w.db.rows ==> w.db.rows[t].user != w.me
    case LogoutRequest(t) => t in w.db.rows ==> w.db.rows[t].user != w.me
  }

  predicate Enabled(w: World, a: Action) {
    match a
    case Send => true
    case Answered(r) => r < |w.reqs| && w.reqs[r].pc.Sent?
    case OtherError(r) => r < |w.reqs| && w.reqs[r].pc.Sent?
    case Got401(r) => r < |w.reqs| && w.reqs[r].pc.Sent?
    case LeaderRead(r) => InPhase(w, r) && w.reqs[r].pc.phase.ReadStored?
    case LeaderReadFails(r) => InPhase(w, r) && w.reqs[r].pc.phase.ReadStored?
    case LeaderAnswer(r) =>
      InPhase(w, r) && w.reqs[r].pc.phase.Posting? && w.reqs[r].pc.phase.post < |w.posts|
      && !w.posts[w.reqs[r].pc.phase.post].answer.Unanswered?
    case LeaderGivesUp(r) => InPhase(w, r) && w.reqs[r].pc.phase.Posting?
    case LeaderSaveAccess(r) => InPhase(w, r) && w.reqs[r].pc.phase.SavingAccess?
    case LeaderSaveRefresh(r) => InPhase(w, r) && w.reqs[r].pc.phase.SavingRefresh?
    case LeaderSaveFails(r) =>
      InPhase(w, r) && (w.reqs[r].pc.phase.SavingAccess? || w.reqs[r].pc.phase.SavingRefresh?)
    case LeaderRetryOk(r) => InPhase(w, r) && w.reqs[r].pc.phase.RetryingFirst?
    case LeaderRetryFails(r) => InPhase(w, r) && w.reqs[r].pc.phase.RetryingFirst?
    case LeaderClear(r) => InPhase(w, r) && IsClearing(w.reqs[r].pc.phase)
    case LeaderClearFails(r) =>
      InPhase(w, r) && (w.reqs[r].pc.phase.ClearingAccess? || w.reqs[r].pc.phase.ClearingRefresh?)
    case LeaderExpireFails(r) =>
      InPhase(w, r) && (w.reqs[r].pc.phase.ExpiringAccess? || w.reqs[r].pc.phase.ExpiringRefresh?)
    case WaiterResume(r) =>
      r < |w.reqs| && w.reqs[r].pc.WaitingOn? && w.reqs[r].pc.leader < |w.reqs|
      && !w.reqs[w.reqs[r].pc.leader].completer.Open?
    case WaiterRetry(r, _) => r < |w.reqs| && w.reqs[r].pc.Retrying?
    case StartLogin => true
    case FlowSaveAccess(f) => f < |w.flows| && w.flows[f].FlowAnswered?
    case FlowSaveRefresh(f) => f < |w.flows| && w.flows[f].FlowSaving?
    case FlowDrop(f) => f < |w.flows|
    case StartLogout => w.logout == None
    case LogoutStep => w.logout != None
    case LogoutReadFails => w.logout == Some(LogoutReading)
    case LogoutClearFails => w.logout == Some(LogoutClearingAccess) || w.logout == Some(LogoutClearingRefresh)
    case Crash => true
    case ServeRefresh(p, issued, _, _) =>
      p < |w.posts| && w.posts[p].refresh && w.posts[p].answer.Unanswered? && issued !in w.db.rows
    case ServeLogout(p, _, _) => p < |w.posts| && !w.posts[p].refresh && w.posts[p].answer.Unanswered?
    case ServeLogin(f, _, _, issued, _, _) => f < |w.flows| && w.flows[f].FlowSent? && issued !in w.db.rows
    case ServeOther(c) => Foreign(w, c)
  }

  predicate IsClearing(phase: Phase) {
    phase.ClearingAccess? || phase.ClearingRefresh? || phase.ExpiringAccess? || phase.ExpiringRefresh?
  }

  // ---------- effects ----------

  function PutReq(w: World, r: ReqId, x: Req): World
    requires r < |w.reqs|
  {
    w.(reqs := w.reqs[r := x])
  }

  function SetPc(w: World, r: ReqId, pc: Pc): World
    requires r < |w.reqs|
  {
    PutReq(w, r, w.reqs[r].(pc := pc))
  }

  /** The catch block up to clearTokens: the waiters are told null. */
  function Abandon(w: World, r: ReqId): World
    requires r < |w.reqs|
  {
    PutReq(w, r, Req(Leading(ClearingAccess), Null))
  }

  function PutPost(w: World, t: Token, refresh: bool): World {
    w.(posts := w.posts + [Post(refresh, t, Unanswered)])
  }

  /** clearTokens, twice: once in the interceptor, once in forceUnauthenticated. */
  function Clear(w: World, r: ReqId): World
    requires InPhase(w, r) && IsClearing(w.reqs[r].pc.phase)
  {
    match w.reqs[r].pc.phase
    case ClearingAccess => SetPc(w, r, Leading(ClearingRefresh)).(access := None)
    case ClearingRefresh => SetPc(w, r, Leading(ExpiringAccess)).(stored := None)
    case ExpiringAccess => SetPc(w, r, Leading(ExpiringRefresh)).(access := None)
    case ExpiringRefresh => SetPc(w, r, Failed).(stored := None, pending := None)
  }

  function LogOut(w: World): World
    requires w.logout != None
  {
    match w.logout.value
    case LogoutReading =>
      if w.stored == None then w.(logout := Some(LogoutClearingAccess))
      else PutPost(w, w.stored.value, false).(logout := Some(LogoutPosted))
    case LogoutPosted => w.(logout := Some(LogoutClearingAccess))
    case LogoutClearingAccess => w.(access := None, logout := Some(LogoutClearingRefresh))
    case LogoutClearingRefresh => w.(stored := None, logout := None)
  }

  /** The server serves a refresh; reuse is noted when it finds one of my tokens revoked. */
  function Serve(w: World, p: PostId, issued: Token, now: nat, fault: Fault): World
    requires p < |w.posts|
  {
    var t := w.posts[p].token;
    var (db', res) := Refresh(w.db, t, issued, now, fault);
    w.(db := db',
       posts := w.posts[p := w.posts[p].(answer := if res.Tokens? then Got(issued) else Rejected)],
       reuse := w.reuse || (t in w.db.rows && w.db.rows[t].user == w.me && w.db.rows[t].revoked.Some?
                            && fault != LookupFails))
  }

  function Apply(w: World, a: Action): World
    requires Enabled(w, a)
  {
    match a
    case Send => w.(reqs := w.reqs + [Req(Sent, Open)])
    case Answered(r) => SetPc(w, r, Resolved)
    case OtherError(r) => SetPc(w, r, Failed)
    case Got401(r) =>
      if w.pending != None then SetPc(w, r, WaitingOn(w.pending.value))
      else SetPc(w, r, Leading(ReadStored)).(pending := Some(r))
    case LeaderRead(r) =>
      if w.stored == None then Abandon(w, r)
      else SetPc(PutPost(w, w.stored.value, true), r, Leading(Posting(|w.posts|)))
    case LeaderReadFails(r) => Abandon(w, r)
    case LeaderAnswer(r) =>
      var answer := w.posts[w.reqs[r].pc.phase.post].answer;
      if answer.Got? then SetPc(w, r, Leading(SavingAccess(answer.next))) else Abandon(w, r)
    case LeaderGivesUp(r) => Abandon(w, r)
    case LeaderSaveAccess(r) =>
      var next := w.reqs[r].pc.phase.next;
      SetPc(w, r, Leading(SavingRefresh(next))).(access := Some(next))
    case LeaderSaveRefresh(r) =>
      var next := w.reqs[r].pc.phase.next;
      PutReq(w, r, Req(Leading(RetryingFirst(next)), Access(next))).(stored := Some(next))
    case LeaderSaveFails(r) => Abandon(w, r)
    case LeaderRetryOk(r) => SetPc(w, r, Resolved).(pending := None)
    case LeaderRetryFails(r) => SetPc(w, r, Hung).(pending := None)
    case LeaderClear(r) => Clear(w, r)
    case LeaderClearFails(r) => SetPc(w, r, Hung).(pending := None)
    case LeaderExpireFails(r) => SetPc(w, r, Failed).(pending := None)
    case WaiterResume(r) =>
      var completion := w.reqs[w.reqs[r].pc.leader].completer;
      SetPc(w, r, if completion.Access? then Retrying(completion.token) else Failed)
    case WaiterRetry(r, ok) => SetPc(w, r, if ok then Resolved else Failed)
    case StartLogin => w.(flows := w.flows + [FlowSent])
    case FlowSaveAccess(f) =>
      w.(access := Some(w.flows[f].token), flows := w.flows[f := FlowSaving(w.flows[f].token)])
    case FlowSaveRefresh(f) => w.(stored := Some(w.flows[f].token), flows := w.flows[f := FlowDone])
    case FlowDrop(f) => w.(flows := w.flows[f := FlowDone])
    case StartLogout => w.(logout := Some(LogoutReading))
    case LogoutStep => LogOut(w)
    case LogoutReadFails => w.(logout := Some(LogoutClearingAccess))
    case LogoutClearFails => w.(logout := None)
    case Crash => w.(pending := None, reqs := [], flows := [], logout := None)
    case ServeRefresh(p, issued, now, fault) => Serve(w, p, issued, now, fault)
    case ServeLogout(p, now, fault) =>
      w.(db := Logout(w.db, w.posts[p].token, now, fault).0, posts := w.posts[p := w.posts[p].(answer := Rejected)])
    case ServeLogin(f, valid, verified, issued, now, fault) =>
      var (db', res) := Login(w.db, w.me, valid, verified, issued, now, fault);
      w.(db := db', flows := w.flows[f := if res.Tokens? then FlowAnswered(issued) else FlowDone])
    case ServeOther(c) => w.(db := Handle(w.db, c).0)
  }

  // ---------- disciplined runs ----------

  /** A post that the server has yet to serve carries t. */
  predicate Carried(posts: seq<Post>, t: Token) {
    exists i :: 0 <= i < |posts| && posts[i].token == t && posts[i].answer.Unanswered?
  }

  /** The same, for posts that ask for a refresh. */
  predicate CarriedByRefresh(posts: seq<Post>, t: Token) {
    exists i :: 0 <= i < |posts| && posts[i].token == t && posts[i].answer.Unanswered? && posts[i].refresh
  }

  predicate Mine(w: World, t: Token) {
    t in w.db.rows && w.db.rows[t].user == w.me
  }

  /** My token t is active and nothing on its way to the server carries it. */
  predicate Free(w: World, t: Token) {
    Mine(w, t) && Active(w.db, t) && !Carried(w.posts, t)
  }

  /** What is stored may be posted by whoever reads it next. */
  predicate Clean(w: World) {
    w.stored.Some? ==> Free(w, w.stored.value)
  }

  function LeaderPhase(w: World): Option<Phase> {
    if w.pending.Some? && InPhase(w, w.pending.value) then Some(w.reqs[w.pending.value].pc.phase) else None
  }

  predicate LeaderReads(w: World) {
    LeaderPhase(w) == Some(ReadStored)
  }

  /** The running refresh has still to replace or delete what is stored. */
  predicate LeaderWillSettle(w: World) {
    LeaderPhase(w).Some? && !LeaderPhase(w).value.ReadStored? && !LeaderPhase(w).value.RetryingFirst?
  }

  /** The guard of each action that can go wrong: a death of the app, a delete that
      fails, and a logout that overlaps a refresh. Every other action is unrestricted. */
  predicate Tame(w: World, a: Action) {
    match a
    case Crash => Clean(w)
    case LeaderClearFails(_) => w.logout != None || Clean(w)
    case LeaderExpireFails(_) => w.logout != None || Clean(w)
    case LogoutClearFails => LeaderWillSettle(w) || Clean(w)
    case Got401(_) => w.pending.Some? || w.logout == None || (w.logout != Some(LogoutReading) && Clean(w))
    case StartLogout =>
      w.pending == None || (!LeaderReads(w) && (w.stored.Some? ==> !CarriedByRefresh(w.posts, w.stored.value)))
    case _ => true
  }

  /** Nothing of this user exists yet; other users may have any tokens. */
  predicate Init(w: World) {
    && (forall t :: t in w.db.rows ==> w.db.rows[t].user != w.me)
    && w == World(w.db, w.me, None, None, None, [], [], [], None, false)
  }

  ghost predicate Steps(w: World, acts: seq<Action>, w': World)
    decreases |acts|
  {
    if acts == [] then w == w'
    else Enabled(w, acts[0]) && Steps(Apply(w, acts[0]), acts[1..], w')
  }

  ghost predicate TameSteps(w: World, acts: seq<Action>, w': World)
    decreases |acts|
  {
    if acts == [] then w == w'
    else Enabled(w, acts[0]) && Tame(w, acts[0]) && TameSteps(Apply(w, acts[0]), acts[1..], w')
  }

  /** Some disciplined run from w makes reuse detection fire. */
  ghost predicate CanReuse(w: World) {
    exists acts, w' :: TameSteps(w, acts, w') && w'.reuse
  }
}

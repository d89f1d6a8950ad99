/** The refresh_tokens table and the handlers on it, each handler as one step. */
module TokenModel {
  import opened Wire

  type Token = nat

  /** lineage is history: which login or sign-in the token descends from. */
  datatype TokenRow = TokenRow(user: UserId, expires: nat, revoked: Option<nat>, lineage: nat)

  datatype Exchange = Exchange(given: Token, issued: Token)

  /** exchanges is history: the rotations that succeeded, oldest first. */
  datatype Db = Db(
    rows: map<Token, TokenRow>,
    users: set<UserId>,
    ttl: nat,
    lineages: nat,
    exchanges: seq<Exchange>)

  /** The statement that fails, if any; at most one per request. */
  datatype Fault = NoFault | LookupFails | RevokeFails | RevokeAllFails | UserLookupFails | CreateFails

  datatype Response = Tokens(refresh: Token) | Unauthorized | Forbidden | ServerError | LoggedOut

  predicate Active(db: Db, t: Token) {
    t in db.rows && db.rows[t].revoked == None
  }

  // ---------- the repository ----------

  function Revoke(db: Db, t: Token, now: nat): Db {
    if t in db.rows then db.(rows := db.rows[t := db.rows[t].(revoked := Some(now))]) else db
  }

  function RevokeAllForUser(db: Db, u: UserId, now: nat): Db {
    db.(rows := map t | t in db.rows ::
      if db.rows[t].user == u && db.rows[t].revoked == None then db.rows[t].(revoked := Some(now)) else db.rows[t])
  }

  function Create(db: Db, t: Token, u: UserId, now: nat, lineage: nat): Db {
    db.(rows := db.rows[t := TokenRow(u, now + db.ttl, None, lineage)])
  }

  // ---------- the handlers ----------

  /** Login and the sign-in with Google, once the credentials have been judged. */
  function Login(db: Db, u: UserId, valid: bool, verified: bool, issued: Token, now: nat, fault: Fault): (Db, Response) {
    if fault == LookupFails then (db, ServerError)
    else if u !in db.users || !valid then (db, Unauthorized)
    else if !verified then (db, Forbidden)
    else if fault == CreateFails then (db, ServerError)
    else (Create(db, issued, u, now, db.lineages).(lineages := db.lineages + 1), Tokens(issued))
  }

  function Refresh(db: Db, t: Token, issued: Token, now: nat, fault: Fault): (Db, Response) {
    if fault == LookupFails then (db, ServerError)
    else if t !in db.rows then (db, Unauthorized)
    else if db.rows[t].revoked.Some? then
      (if fault == RevokeAllFails then db else RevokeAllForUser(db, db.rows[t].user, now), Unauthorized)
    else if now > db.rows[t].expires then (db, Unauthorized)
    else Rotate(db, t, issued, now, fault)
  }

  /** Refresh after its checks: revoke, look the user up, create the next token. */
  function Rotate(db: Db, t: Token, issued: Token, now: nat, fault: Fault): (Db, Response)
    requires t in db.rows
  {
    var u := db.rows[t].user;
    if fault == RevokeFails then (db, ServerError)
    else
      var revoked := Revoke(db, t, now);
      if fault == UserLookupFails then (revoked, ServerError)
      else if u !in db.users then (revoked, Unauthorized)
      else if fault == CreateFails then (revoked, ServerError)
      else
        var next := Create(revoked, issued, u, now, db.rows[t].lineage);
        (next.(exchanges := next.exchanges + [Exchange(t, issued)]), Tokens(issued))
  }

  function Logout(db: Db, t: Token, now: nat, fault: Fault): (Db, Response) {
    if fault == LookupFails then (db, ServerError)
    else (if fault == RevokeFails then db else Revoke(db, t, now), LoggedOut)
  }

  // ---------- histories ----------

  datatype Request =
    | LoginRequest(user: UserId, valid: bool, verified: bool, issued: Token)
    | RefreshRequest(token: Token, issued: Token)
    | LogoutRequest(token: Token)

  datatype Call = Call(r: Request, now: nat, fault: Fault)

  function Handle(db: Db, c: Call): (Db, Response) {
    match c.r
    case LoginRequest(u, valid, verified, issued) => Login(db, u, valid, verified, issued, c.now, c.fault)
    case RefreshRequest(t, issued) => Refresh(db, t, issued, c.now, c.fault)
    case LogoutRequest(t) => Logout(db, t, c.now, c.fault)
  }

  /** Generated token strings are new. */
  predicate FreshEnough(db: Db, r: Request) {
    match r
    case LoginRequest(_, _, _, issued) => issued !in db.rows
    case RefreshRequest(_, issued) => issued !in db.rows
    case LogoutRequest(_) => true
  }

  ghost predicate History(dbs: seq<Db>, calls: seq<Call>) {
    && |dbs| == |calls| + 1
    && dbs[0].rows == map[] && dbs[0].exchanges == []
    && (forall i {:trigger calls[i]} :: 0 <= i < |calls| ==> FreshEnough(dbs[i], calls[i].r) && dbs[i + 1] == Handle(dbs[i], calls[i]).0)
  }
}

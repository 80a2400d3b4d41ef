// Session tokens: IssueSessionToken, RefreshSession and RevokeAllSessions as
// machines of single repository calls and as the methods the server runs.
module Sessions {
  import opened Domain
  import opened Tables
  import opened Postgres

  const JWT_TTL: int := 8 * HOUR
  const REFRESH_TOKEN_TTL: int := 30 * DAY

  // A claim that is absent, or not of the expected type, is None.
  datatype Claims = Claims(sub: Option<Uuid>, role: Option<UserRole>, iat: Option<int>, exp: Option<int>)

  // A compact token: unparseable, or claims under a signature made with key by a
  // method of the HMAC family or another one.
  datatype Jwt = Malformed | Jwt(hmac: bool, key: string, claims: Claims)

  datatype TokenResponse = TokenResponse(token: Jwt, refreshToken: string, expiresAt: Time, role: UserRole)

  function MintClaims(userId: Uuid, role: UserRole, now: Time): Claims {
    Claims(Some(userId), Some(role), Some(Unix(now)), Some(Unix(now + JWT_TTL)))
  }

  // What one step reads besides the tables: the clock, the fate of its repository
  // call, and the random source.
  datatype Input = Input(now: Time, env: Env, entropy: Option<string>)

  datatype IssuePc =
    | Sign(userId: Uuid, role: UserRole)
    | Store(userId: Uuid, role: UserRole, now: Time, raw: string)
    | Issued(result: Result<TokenResponse>)

  function Response(secret: string, userId: Uuid, role: UserRole, now: Time, raw: string): TokenResponse {
    TokenResponse(Jwt(true, secret, MintClaims(userId, role, now)), raw, now + JWT_TTL, role)
  }

  function FreshRow(userId: Uuid, now: Time, raw: string): RefreshToken {
    RefreshToken(userId, Sha256(raw), now + REFRESH_TOKEN_TTL, None)
  }

  // Sign reads the clock and the random source; Store makes the repository call.
  function IssueStep(secret: string, db: Db, pc: IssuePc, input: Input): (Db, IssuePc) {
    match pc
    case Sign(userId, role) =>
      (db, match input.entropy
           case None => Issued(Err(NoEntropy))
           case Some(raw) => Store(userId, role, input.now, raw))
    case Store(userId, role, now, raw) =>
      var (db', reply) := InsertTokenCall(db, FreshRow(userId, now, raw), input.env);
      (db', match AsToken(reply)
            case Err(e) => Issued(Err(e))
            case Ok(_) => Issued(Ok(Response(secret, userId, role, now, raw))))
    case Issued(_) => (db, pc)
  }

  datatype RefreshPc =
    | Find(raw: string)
    | Check(raw: string, rt: RefreshToken)
    | LoadUser(raw: string, rt: RefreshToken)
    | Rotate(raw: string, rt: RefreshToken, user: User)
    | Reissue(raw: string, rt: RefreshToken, pc: IssuePc)
    | Refused(error: Error)

  // One repository call or one look at the clock.
  function RefreshStep(secret: string, db: Db, pc: RefreshPc, input: Input): (Db, RefreshPc) {
    match pc
    case Find(raw) =>
      (db, match AsToken(SelectTokenCall(db, Sha256(raw), input.env))
           case Err(_) => Refused(InvalidRefreshToken)
           case Ok(rt) => Check(raw, rt))
    case Check(raw, rt) =>
      (db, if input.now > rt.expiresAt || rt.usedAt.Some? then Refused(InvalidRefreshToken)
           else LoadUser(raw, rt))
    case LoadUser(raw, rt) =>
      (db, match AsUser(SelectUserCall(db, rt.userId, input.env))
           case Err(_) => Refused(UserNotFound)
           case Ok(user) => Rotate(raw, rt, user))
    case Rotate(raw, rt, user) =>
      var (db', reply) := DeleteTokensOfCall(db, rt.userId, input.env);
      (db', match AsRows(reply)
            case Err(e) => Refused(e)
            case Ok(_) => Reissue(raw, rt, Sign(user.id, user.role)))
    case Reissue(raw, rt, issue) =>
      var (db', issue') := IssueStep(secret, db, issue, input);
      (db', Reissue(raw, rt, issue'))
    case Refused(_) => (db, pc)
  }

  predicate RefreshOver(pc: RefreshPc) {
    pc.Refused? || (pc.Reissue? && pc.pc.Issued?)
  }

  function RefreshResult(pc: RefreshPc): Result<TokenResponse>
    requires RefreshOver(pc)
  {
    if pc.Refused? then Err(pc.error) else pc.pc.result
  }

  function IssueRank(pc: IssuePc): nat {
    match pc
    case Sign(_, _) => 2
    case Store(_, _, _, _) => 1
    case Issued(_) => 0
  }

  function RefreshRank(pc: RefreshPc): nat {
    match pc
    case Find(_) => 6
    case Check(_, _) => 5
    case LoadUser(_, _) => 4
    case Rotate(_, _, _) => 3
    case Reissue(_, _, issue) => IssueRank(issue)
    case Refused(_) => 0
  }

  // Uninterrupted from pc to the end; step k reads inputs(i + k).
  function RunIssue(secret: string, db: Db, pc: IssuePc, inputs: nat -> Input, i: nat): (Db, Result<TokenResponse>)
    decreases IssueRank(pc)
  {
    if pc.Issued? then (db, pc.result)
    else
      var (db', pc') := IssueStep(secret, db, pc, inputs(i));
      RunIssue(secret, db', pc', inputs, i + 1)
  }

  function RunRefresh(secret: string, db: Db, pc: RefreshPc, inputs: nat -> Input, i: nat): (Db, Result<TokenResponse>)
    decreases RefreshRank(pc)
  {
    if RefreshOver(pc) then (db, RefreshResult(pc))
    else
      var (db', pc') := RefreshStep(secret, db, pc, inputs(i));
      RunRefresh(secret, db', pc', inputs, i + 1)
  }

  class TokenIssuer {
    const jwtSecret: string
    const refreshRepo: RefreshTokenRepo
    const userRepo: UserRepo

    ghost predicate Wired(pool: Pool) {
      refreshRepo.pool == pool && userRepo.pool == pool
    }

    constructor (pool: Pool, jwtSecret: string, miss: MissConvention)
      ensures Wired(pool) && this.jwtSecret == jwtSecret
    {
      this.jwtSecret := jwtSecret;
      refreshRepo := new RefreshTokenRepo(pool);
      userRepo := new UserRepo(pool, miss);
    }

    // Signs first, then stores the refresh row; nothing is released unless it is stored.
    method IssueSessionToken(pool: Pool, userId: Uuid, role: UserRole, inputs: nat -> Input, i: nat)
      returns (r: Result<TokenResponse>)
      requires Wired(pool)
      modifies pool
      ensures (pool.db, r) == RunIssue(jwtSecret, old(pool.db), Sign(userId, role), inputs, i)
    {
      ghost var whole := RunIssue(jwtSecret, pool.db, Sign(userId, role), inputs, i);
      var now := inputs(i).now;
      var token := Jwt(true, jwtSecret, MintClaims(userId, role, now));
      if inputs(i).entropy.None? {
        return Err(NoEntropy);
      }
      var raw := inputs(i).entropy.value;
      assert whole == RunIssue(jwtSecret, pool.db, Store(userId, role, now, raw), inputs, i + 1);
      var stored := refreshRepo.Create(Background, FreshRow(userId, now, raw), inputs(i + 1).env);
      if stored.Err? {
        assert whole == RunIssue(jwtSecret, pool.db, Issued(Err(stored.error)), inputs, i + 2);
        return Err(stored.error);
      }
      r := Ok(TokenResponse(token, raw, now + JWT_TTL, role));
      assert whole == RunIssue(jwtSecret, pool.db, Issued(r), inputs, i + 2);
    }

    // Find, check, load, delete, issue: five separate calls, no transaction.
    method RefreshSession(pool: Pool, raw: string, inputs: nat -> Input) returns (r: Result<TokenResponse>)
      requires Wired(pool)
      modifies pool
      ensures (pool.db, r) == RunRefresh(jwtSecret, old(pool.db), Find(raw), inputs, 0)
    {
      hide Constraints, TokensOf;
      ghost var whole := RunRefresh(jwtSecret, pool.db, Find(raw), inputs, 0);
      var found := refreshRepo.FindByTokenHash(Background, Sha256(raw), inputs(0).env);
      if found.Err? {
        assert whole == RunRefresh(jwtSecret, pool.db, Refused(InvalidRefreshToken), inputs, 1);
        return Err(InvalidRefreshToken);
      }
      var rt := found.value;
      assert whole == RunRefresh(jwtSecret, pool.db, Check(raw, rt), inputs, 1);
      if inputs(1).now > rt.expiresAt {
        assert whole == RunRefresh(jwtSecret, pool.db, Refused(InvalidRefreshToken), inputs, 2);
        return Err(InvalidRefreshToken);
      }
      if rt.usedAt.Some? {
        assert whole == RunRefresh(jwtSecret, pool.db, Refused(InvalidRefreshToken), inputs, 2);
        return Err(InvalidRefreshToken);
      }
      assert whole == RunRefresh(jwtSecret, pool.db, LoadUser(raw, rt), inputs, 2);
      var user := userRepo.FindByID(Background, rt.userId, inputs(2).env);
      if user.Err? {
        assert whole == RunRefresh(jwtSecret, pool.db, Refused(UserNotFound), inputs, 3);
        return Err(UserNotFound);
      }
      assert whole == RunRefresh(jwtSecret, pool.db, Rotate(raw, rt, user.value), inputs, 3);
      var rotated := refreshRepo.DeleteByUserID(Background, rt.userId, inputs(3).env);
      if rotated.Err? {
        assert whole == RunRefresh(jwtSecret, pool.db, Refused(rotated.error), inputs, 4);
        return Err(rotated.error);
      }
      assert whole == RunRefresh(jwtSecret, pool.db, Reissue(raw, rt, Sign(user.value.id, user.value.role)), inputs, 4);
      ReissueIsIssue(jwtSecret, pool.db, raw, rt, Sign(user.value.id, user.value.role), inputs, 4);
      r := IssueSessionToken(pool, user.value.id, user.value.role, inputs, 4);
    }

    method RevokeAllSessions(pool: Pool, userId: Uuid, env: Env) returns (r: Result<nat>)
      requires Wired(pool)
      modifies pool
      ensures pool.db == DeleteTokensOfCall(old(pool.db), userId, env).0
      ensures r == AsRows(DeleteTokensOfCall(old(pool.db), userId, env).1)
    {
      r := refreshRepo.DeleteByUserID(Background, userId, env);
    }
  }

  // The tail of a refresh is an ordinary issue.
  lemma {:induction false} ReissueIsIssue(secret: string, db: Db, raw: string, rt: RefreshToken, pc: IssuePc,
                                          inputs: nat -> Input, i: nat)
    ensures RunRefresh(secret, db, Reissue(raw, rt, pc), inputs, i) == RunIssue(secret, db, pc, inputs, i)
    decreases IssueRank(pc)
  {
    if !pc.Issued? {
      var (db', pc') := IssueStep(secret, db, pc, inputs(i));
      ReissueIsIssue(secret, db', raw, rt, pc', inputs, i + 1);
    }
  }

  // The raw token passes the checks of a refresh made at t.
  predicate ChecksPass(tokens: map<TokenHash, RefreshToken>, raw: string, t: Time) {
    var h := Sha256(raw);
    h in tokens && t <= tokens[h].expiresAt && tokens[h].usedAt.None?
  }

  ghost predicate OthersKept(before: Db, after: Db, userId: Uuid) {
    && after.users == before.users && after.links == before.links
    && after.tokens - TokensOf(after.tokens, userId) == before.tokens - TokensOf(before.tokens, userId)
  }

  // A token for eight hours under the server's key, and what the client is told of it.
  predicate Grants(resp: TokenResponse, secret: string, userId: Uuid, role: UserRole, now: Time, raw: string) {
    var iat, exp := now / 1_000_000_000, (now + 28_800_000_000_000) / 1_000_000_000;
    && resp.token == Jwt(true, secret, Claims(Some(userId), Some(role), Some(iat), Some(exp)))
    && resp.refreshToken == raw && resp.expiresAt == now + 28_800_000_000_000 && resp.role == role
  }

  // An unused refresh token for thirty days.
  predicate Remembers(row: RefreshToken, userId: Uuid, now: Time, raw: string) {
    row == RefreshToken(userId, Sha256(raw), now + 2_592_000_000_000_000, None)
  }

  lemma ResponseGrants(secret: string, userId: Uuid, role: UserRole, now: Time, raw: string)
    ensures Grants(Response(secret, userId, role, now, raw), secret, userId, role, now, raw)
    ensures Remembers(FreshRow(userId, now, raw), userId, now, raw)
  {
  }

  lemma IssueOutcome(secret: string, db: Db, userId: Uuid, role: UserRole, inputs: nat -> Input, i: nat)
    requires userId in db.users
    ensures var (db', r) := RunIssue(secret, db, Sign(userId, role), inputs, i);
      var now := inputs(i).now;
      && (r.Err? ==> db' == db)
      && (r.Ok? ==>
            && inputs(i).entropy == Some(r.value.refreshToken)
            && r.value == Response(secret, userId, role, now, r.value.refreshToken)
            && Sha256(r.value.refreshToken) !in db.tokens
            && var raw := r.value.refreshToken;
               db' == db.(tokens := db.tokens[Sha256(raw) := FreshRow(userId, now, raw)]))
      && (r.Err? <==> inputs(i).entropy.None? || inputs(i + 1).env.down || Sha256(inputs(i).entropy.value) in db.tokens)
      && (r.Err? ==> r.error == if inputs(i).entropy.None? then NoEntropy
                                else if inputs(i + 1).env.down then Unavailable else Conflict)
  {
    var (db1, pc1) := IssueStep(secret, db, Sign(userId, role), inputs(i));
    assert RunIssue(secret, db, Sign(userId, role), inputs, i) == RunIssue(secret, db1, pc1, inputs, i + 1);
    if pc1.Store? {
      var (db2, pc2) := IssueStep(secret, db1, pc1, inputs(i + 1));
      assert RunIssue(secret, db1, pc1, inputs, i + 1) == RunIssue(secret, db2, pc2, inputs, i + 2);
    }
  }

  // A refresh token stored at s and neither marked nor deleted is good up to thirty
  // days later, to the nanosecond, and not after.
  lemma {:induction false} IssuedTokenLasts(secret: string, db: Db, userId: Uuid, role: UserRole,
                                            inputs: nat -> Input, i: nat)
    requires userId in db.users
    ensures var (db', r) := RunIssue(secret, db, Sign(userId, role), inputs, i);
      r.Ok? ==>
        var s := inputs(i).now;
        && (forall t :: ChecksPass(db'.tokens, r.value.refreshToken, t) <==> t <= s + 2_592_000 * 1_000_000_000)
        && ChecksPass(db'.tokens, r.value.refreshToken, s + 2_592_000 * 1_000_000_000)
        && !ChecksPass(db'.tokens, r.value.refreshToken, s + 2_592_000 * 1_000_000_000 + 1)
  {
    hide Constraints, RunIssue, Response;
    IssueOutcome(secret, db, userId, role, inputs, i);
  }

  // How an uninterrupted refresh can leave the token table: with one fresh row for
  // the user, with none of the user's rows, or as it was; never anything else.
  ghost predicate RefreshLeaves(secret: string, db: Db, raw: string, inputs: nat -> Input,
                                after: (Db, Result<TokenResponse>)) {
    var (db', r) := after;
    var h := Sha256(raw);
    if !ChecksPass(db.tokens, raw, inputs(1).now) || inputs(0).env.down then
      db' == db && r == Err(InvalidRefreshToken)
    else
      var u := db.tokens[h].userId;
      && OthersKept(db, db', u)
      && (r.Ok? ==>
            var hash' := Sha256(r.value.refreshToken);
            && TokensOf(db'.tokens, u) == {hash'}
            && db'.tokens[hash'] == FreshRow(u, inputs(4).now, r.value.refreshToken)
            && inputs(4).entropy == Some(r.value.refreshToken)
            && r.value == Response(secret, u, db.users[u].role, inputs(4).now, r.value.refreshToken))
      && (r.Err? ==> db' == db || TokensOf(db'.tokens, u) == {})
      && (r.Err? && db' == db ==> r.error != InvalidRefreshToken)
  }

  lemma OnlyFreshRow(tokens: map<TokenHash, RefreshToken>, u: Uuid, row: RefreshToken)
    requires row.userId == u && row.tokenHash !in tokens - TokensOf(tokens, u)
    ensures var after := (tokens - TokensOf(tokens, u))[row.tokenHash := row];
      && TokensOf(after, u) == {row.tokenHash}
      && after - TokensOf(after, u) == tokens - TokensOf(tokens, u)
  {
    var after := (tokens - TokensOf(tokens, u))[row.tokenHash := row];
    assert TokensOf(after, u) == {row.tokenHash};
  }

  // From the moment the delete has gone through.
  lemma ReissueLeaves(secret: string, db: Db, raw: string, user: User, inputs: nat -> Input)
    requires Sha256(raw) in db.tokens && user.id == db.tokens[Sha256(raw)].userId && user == db.users[user.id]
    requires ChecksPass(db.tokens, raw, inputs(1).now) && !inputs(0).env.down
    ensures var mid := DeleteTokensOfCall(db, user.id, Env(false, 0)).0;
      RefreshLeaves(secret, db, raw, inputs, RunIssue(secret, mid, Sign(user.id, user.role), inputs, 4))
  {
    var mid := DeleteTokensOfCall(db, user.id, Env(false, 0)).0;
    assert mid == db.(tokens := db.tokens - TokensOf(db.tokens, user.id));
    IssueOutcome(secret, mid, user.id, user.role, inputs, 4);
    var (db', r) := RunIssue(secret, mid, Sign(user.id, user.role), inputs, 4);
    if r.Ok? {
      OnlyFreshRow(db.tokens, user.id, FreshRow(user.id, inputs(4).now, r.value.refreshToken));
    } else {
      assert TokensOf(mid.tokens, user.id) == {};
      assert mid.tokens - {} == mid.tokens;
    }
  }

  // The token checks decide whether a refresh gets as far as loading the user.
  lemma ChecksDecide(secret: string, db: Db, raw: string, inputs: nat -> Input)
    ensures RunRefresh(secret, db, Find(raw), inputs, 0) ==
      if ChecksPass(db.tokens, raw, inputs(1).now) && !inputs(0).env.down
      then RunRefresh(secret, db, LoadUser(raw, db.tokens[Sha256(raw)]), inputs, 2)
      else (db, Err(InvalidRefreshToken))
  {
    var (_, pc1) := RefreshStep(secret, db, Find(raw), inputs(0));
    assert RunRefresh(secret, db, Find(raw), inputs, 0) == RunRefresh(secret, db, pc1, inputs, 1);
    if pc1.Check? {
      var (_, pc2) := RefreshStep(secret, db, pc1, inputs(1));
      assert RunRefresh(secret, db, pc1, inputs, 1) == RunRefresh(secret, db, pc2, inputs, 2);
    }
  }

  lemma LoadedUser(secret: string, db: Db, raw: string, rt: RefreshToken, inputs: nat -> Input)
    requires rt.userId in db.users
    ensures RunRefresh(secret, db, LoadUser(raw, rt), inputs, 2) ==
      if inputs(2).env.down then (db, Err(UserNotFound))
      else RunRefresh(secret, db, Rotate(raw, rt, db.users[rt.userId]), inputs, 3)
  {
  }

  lemma Rotated(secret: string, db: Db, raw: string, rt: RefreshToken, user: User, inputs: nat -> Input)
    ensures RunRefresh(secret, db, Rotate(raw, rt, user), inputs, 3) ==
      if inputs(3).env.down then (db, Err(Unavailable))
      else RunIssue(secret, DeleteTokensOfCall(db, rt.userId, Env(false, 0)).0, Sign(user.id, user.role), inputs, 4)
  {
    var (db', pc') := RefreshStep(secret, db, Rotate(raw, rt, user), inputs(3));
    if pc'.Reissue? {
      ReissueIsIssue(secret, db', raw, rt, pc'.pc, inputs, 4);
    }
  }

  lemma RefreshOutcome(secret: string, db: Db, raw: string, inputs: nat -> Input)
    ensures RefreshLeaves(secret, db, raw, inputs, RunRefresh(secret, db, Find(raw), inputs, 0))
  {
    ChecksDecide(secret, db, raw, inputs);
    if ChecksPass(db.tokens, raw, inputs(1).now) && !inputs(0).env.down {
      var rt := db.tokens[Sha256(raw)];
      var user := db.users[rt.userId];
      LoadedUser(secret, db, raw, rt, inputs);
      Rotated(secret, db, raw, rt, user, inputs);
      ReissueLeaves(secret, db, raw, user, inputs);
    }
  }

  // What has become of the tokens of everyone but u, and of those of u.
  ghost predicate OnlyOthersLeft(before: Tables, after: Tables, u: Uuid) {
    && after.users == before.users && after.links == before.links
    && (forall h :: h in before.tokens && before.tokens[h].userId != u ==>
          h in after.tokens && after.tokens[h] == before.tokens[h])
    && (forall h :: h in after.tokens && after.tokens[h].userId != u ==> h in before.tokens)
  }

  // From the delete of the rows of u on: sign, and store the one row of u there is.
  ghost predicate Reissued(secret: string, db: Tables, u: Uuid, inputs: nat -> Input,
                           after: (Tables, Result<TokenResponse>)) {
    var (db', r) := after;
    var drawn := inputs(4).entropy;
    && OnlyOthersLeft(db, db', u) && u in db.users
    && (r.Err? ==> forall h :: h in db'.tokens ==> db'.tokens[h].userId != u)
    && if drawn == None then r == Err(NoEntropy)
       else
         var h := Sha256(drawn.value);
         if inputs(5).env.down then r == Err(Unavailable)
         else if h in db.tokens && db.tokens[h].userId != u then r == Err(Conflict)
         else
           && r.Ok? && Grants(r.value, secret, u, db.users[u].role, inputs(4).now, drawn.value)
           && h in db'.tokens && Remembers(db'.tokens[h], u, inputs(4).now, drawn.value)
           && (forall k :: k in db'.tokens && db'.tokens[k].userId == u ==> k == h)
  }

  lemma ReissueCase(secret: string, db: Db, u: Uuid, inputs: nat -> Input)
    requires u in db.users
    ensures var mid := DeleteTokensOfCall(db, u, Env(false, 0)).0;
      Reissued(secret, db, u, inputs, RunIssue(secret, mid, Sign(u, db.users[u].role), inputs, 4))
  {
    hide Constraints, RunIssue, Response, FreshRow;
    var mid := DeleteTokensOfCall(db, u, Env(false, 0)).0;
    assert mid.tokens == db.tokens - TokensOf(db.tokens, u);
    IssueOutcome(secret, mid, u, db.users[u].role, inputs, 4);
    if inputs(4).entropy.Some? {
      ResponseGrants(secret, u, db.users[u].role, inputs(4).now, inputs(4).entropy.value);
    }
    var (db', r) := RunIssue(secret, mid, Sign(u, db.users[u].role), inputs, 4);
    assert OnlyOthersLeft(db, db', u);
  }

  // A refresh, call by call: find, check, load, delete, sign and store. Until the
  // delete a failure changes nothing; after it the user's rows are gone, and only a
  // success leaves one.
  lemma {:induction false} RefreshCase(secret: string, db: Db, raw: string, inputs: nat -> Input)
    ensures var (db', r) := RunRefresh(secret, db, Find(raw), inputs, 0);
      var h := Sha256(raw);
      if inputs(0).env.down || h !in db.tokens || db.tokens[h].expiresAt < inputs(1).now
         || db.tokens[h].usedAt.Some? then
        db' == db && r == Err(InvalidRefreshToken)
      else if inputs(2).env.down then db' == db && r == Err(UserNotFound)
      else if inputs(3).env.down then db' == db && r == Err(Unavailable)
      else Reissued(secret, db, db.tokens[h].userId, inputs, (db', r))
  {
    hide RunRefresh, RunIssue, DeleteTokensOfCall, Reissued;
    ChecksDecide(secret, db, raw, inputs);
    if ChecksPass(db.tokens, raw, inputs(1).now) && !inputs(0).env.down {
      var rt := db.tokens[Sha256(raw)];
      LoadedUser(secret, db, raw, rt, inputs);
      Rotated(secret, db, raw, rt, db.users[rt.userId], inputs);
      ReissueCase(secret, db, rt.userId, inputs);
    }
  }
}

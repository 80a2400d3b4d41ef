// Purging expired refresh tokens is unobservable: a simulation between runs that
// differ in their DeleteExpired calls only.
module Purging {
  import opened Domain
  import opened Tables
  import opened Transactions
  import opened Resolver
  import opened Sessions
  import opened TokenRuns
  import SequentialLogins

  // The rows a refresh at now or later can still accept.
  function Live(tokens: map<TokenHash, RefreshToken>, now: Time): map<TokenHash, RefreshToken> {
    map h | h in tokens && now <= tokens[h].expiresAt :: tokens[h]
  }

  // Two states no later call can tell apart.
  ghost predicate Sim(a: State, b: State) {
    && a.now == b.now
    && SameUsers(a.db, b.db)
    && Live(a.db.tokens, a.now) == Live(b.db.tokens, b.now)
    && a.minted == b.minted
    && a.replies == b.replies
  }

  // --- A login does not depend on the refresh tokens ---

  ghost predicate SameUsers(a: Tables, b: Tables) {
    a.users == b.users && a.links == b.links
  }

  predicate TouchesTokens(s: Statement) {
    s.InsertToken? || s.SelectToken? || s.MarkTokenUsed? || s.DeleteTokensOf? || s.DeleteTokensBefore?
  }

  // The two outcomes answer alike and leave alike users and links.
  ghost predicate SameOutcome(x: (Db, Reply), y: (Db, Reply)) {
    SameUsers(x.0, y.0) && x.1 == y.1
  }

  lemma InsertSame(a: Db, b: Db, u: User, id: Uuid)
    requires SameUsers(a, b) && id.V4?
    ensures SameOutcome(InsertUserRow(a, u, id), InsertUserRow(b, u, id))
  {
  }

  lemma UpdateSame(a: Db, b: Db, u: User)
    requires SameUsers(a, b)
    ensures SameOutcome(UpdateUserRow(a, u), UpdateUserRow(b, u))
  {
  }

  lemma SoftDeleteSame(a: Db, b: Db, id: Uuid, at: Time)
    requires SameUsers(a, b)
    ensures SameOutcome(SoftDeleteRow(a, id, at), SoftDeleteRow(b, id, at))
  {
  }

  lemma UpsertSame(a: Db, b: Db, account: OAuthAccount)
    requires SameUsers(a, b)
    ensures SameOutcome(UpsertLinkRow(a, account), UpsertLinkRow(b, account))
  {
  }

  lemma StatementSame(a: Db, b: Db, s: Statement, env: Env)
    requires SameUsers(a, b) && !TouchesTokens(s)
    ensures SameOutcome(Exec(a, s, env), Exec(b, s, env))
  {
    hide Constraints, InsertUserRow, UpdateUserRow, SoftDeleteRow, UpsertLinkRow;
    match s
    case InsertUser(u) => InsertSame(a, b, u, V4(env.uuid));
    case UpdateUser(u) => UpdateSame(a, b, u);
    case SoftDeleteUser(id, at) => SoftDeleteSame(a, b, id, at);
    case UpsertLink(account) => UpsertSame(a, b, account);
    case _ =>
  }

  ghost predicate TokenFree<T(!new)>(body: Body<T>, limit: nat)
    decreases limit
  {
    body.Query? && limit > 0 ==>
      !TouchesTokens(body.statement) && forall reply :: TokenFree(body.next(reply), limit - 1)
  }

  lemma {:induction false} BodySame<T(!new)>(body: Body<T>, limit: nat, a: Db, b: Db, envs: nat -> Env, i: nat)
    requires SameUsers(a, b) && TokenFree(body, limit)
    ensures var x, y := RunDirect(body, limit, a, envs, i), RunDirect(body, limit, b, envs, i);
      SameUsers(x.0, y.0) && x.1 == y.1 && x.2 == y.2
    decreases limit
  {
    if body.Query? && limit > 0 {
      StatementSame(a, b, body.statement, envs(i));
      var x, y := Exec(a, body.statement, envs(i)), Exec(b, body.statement, envs(i));
      BodySame(body.next(x.1), limit - 1, x.0, y.0, envs, i + 1);
    }
  }

  lemma CreateBodyTokenFree(b: BootstrapConfig, pu: ProviderUser)
    ensures TokenFree(CreateBody(b, pu), CREATE_LIMIT)
  {
    InsertBodyTokenFree(pu, PlatformAdmin, 3);
    InsertBodyTokenFree(pu, PlatformMember, 3);
    InsertBodyTokenFree(pu, PlatformAdmin, 2);
    InsertBodyTokenFree(pu, PlatformMember, 2);
  }

  lemma InsertBodyTokenFree(pu: ProviderUser, role: UserRole, limit: nat)
    ensures TokenFree(InsertBody(pu, role), limit)
  {
    if limit > 0 {
      forall reply ensures TokenFree(InsertBody(pu, role).next(reply), limit - 1) {
        var rest := InsertBody(pu, role).next(reply);
        if rest.Query? && limit > 1 {
          assert forall reply' :: rest.next(reply').Return?;
        }
      }
    }
  }

  ghost predicate SameStep(x: (Db, LoginPc), y: (Db, LoginPc)) {
    SameUsers(x.0, y.0) && x.1 == y.1
  }

  lemma ReadStepSame(cfg: Config, a: Db, b: Db, pc: LoginPc, envs: nat -> Env, i: nat)
    requires SameUsers(a, b) && (pc.FindLink? || pc.LoadOwner? || pc.FindEmail?)
    ensures SameStep(LoginStep(cfg, a, pc, envs, i), LoginStep(cfg, b, pc, envs, i))
  {
    match pc
    case FindLink(pu) => StatementSame(a, b, SelectLink(pu.key), envs(i));
    case LoadOwner(_, account) => StatementSame(a, b, SelectUser(account.userId), envs(i));
    case FindEmail(pu) => StatementSame(a, b, SelectUserByEmail(pu.email), envs(i));
  }

  lemma WriteStepSame(cfg: Config, a: Db, b: Db, pc: LoginPc, envs: nat -> Env, i: nat)
    requires SameUsers(a, b) && (pc.Retoken? || pc.Upgrade? || pc.AddLink?)
    ensures SameStep(LoginStep(cfg, a, pc, envs, i), LoginStep(cfg, b, pc, envs, i))
  {
    hide Constraints, UpsertLinkRow, UpdateUserRow;
    match pc
    case Retoken(pu, account, _) => StatementSame(a, b, UpsertLink(WithTokens(account, pu)), envs(i));
    case Upgrade(_, user, _) => StatementSame(a, b, UpdateUser(user), envs(i));
    case AddLink(pu, user) => StatementSame(a, b, UpsertLink(BuildOAuthAccount(user.id, pu)), envs(i));
  }

  lemma CreateStepSame(cfg: Config, a: Db, b: Db, pc: LoginPc, envs: nat -> Env, i: nat)
    requires SameUsers(a, b) && pc.CreateUser?
    ensures SameStep(LoginStep(cfg, a, pc, envs, i), LoginStep(cfg, b, pc, envs, i))
  {
    hide RunDirect, CreateBody, Constraints, TokenFree;
    CreateBodyTokenFree(cfg.bootstrap, pc.pu);
    TransactSame(CreateBody(cfg.bootstrap, pc.pu), CREATE_LIMIT, a, b, envs, i);
  }

  lemma TransactSame<T(!new)>(body: Body<T>, limit: nat, a: Db, b: Db, envs: nat -> Env, i: nat)
    requires SameUsers(a, b) && TokenFree(body, limit)
    ensures var x, y := Transact(body, limit, a, envs, i), Transact(body, limit, b, envs, i);
      SameUsers(x.0, y.0) && x.1 == y.1
  {
    BodySame(body, limit, a, b, envs, i + 1);
  }

  lemma {:induction false} StepSame(cfg: Config, a: Db, b: Db, pc: LoginPc, envs: nat -> Env, i: nat)
    requires SameUsers(a, b)
    ensures SameStep(LoginStep(cfg, a, pc, envs, i), LoginStep(cfg, b, pc, envs, i))
  {
    if pc.FindLink? || pc.LoadOwner? || pc.FindEmail? {
      ReadStepSame(cfg, a, b, pc, envs, i);
    } else if pc.CreateUser? {
      CreateStepSame(cfg, a, b, pc, envs, i);
    } else if !pc.Done? {
      WriteStepSame(cfg, a, b, pc, envs, i);
    }
  }

  lemma {:induction false} LoginSame(cfg: Config, a: Db, b: Db, pc: LoginPc, envs: nat -> Env, i: nat)
    requires SameUsers(a, b)
    ensures SameUsers(RunLogin(cfg, a, pc, envs, i).0, RunLogin(cfg, b, pc, envs, i).0)
    ensures RunLogin(cfg, a, pc, envs, i).1 == RunLogin(cfg, b, pc, envs, i).1
    decreases Rank(pc)
  {
    if !pc.Done? {
      StepSame(cfg, a, b, pc, envs, i);
      SequentialLogins.Unrolled(cfg, a, pc, envs, i);
      SequentialLogins.Unrolled(cfg, b, pc, envs, i);
      var x, y := LoginStep(cfg, a, pc, envs, i), LoginStep(cfg, b, pc, envs, i);
      LoginSame(cfg, x.0, y.0, x.1, envs, i + 1);
    }
  }

  // --- A refresh depends on live rows only ---

  lemma LiveLater(a: map<TokenHash, RefreshToken>, b: map<TokenHash, RefreshToken>, now: Time, later: Time)
    requires Live(a, now) == Live(b, now) && now <= later
    ensures Live(a, later) == Live(b, later)
  {
    forall h ensures h in Live(a, later) ==> h in Live(b, later) && Live(b, later)[h] == a[h] {
      assert h in Live(a, later) ==> h in Live(a, now);
    }
    forall h ensures h in Live(b, later) ==> h in Live(a, later) {
      assert h in Live(b, later) ==> h in Live(b, now);
    }
  }

  lemma LivePurge(tokens: map<TokenHash, RefreshToken>, before: Time, now: Time)
    requires before <= now
    ensures Live(tokens - TokensBefore(tokens, before), now) == Live(tokens, now)
  {
  }

  lemma LiveDelete(a: map<TokenHash, RefreshToken>, b: map<TokenHash, RefreshToken>, now: Time, u: Uuid)
    requires Live(a, now) == Live(b, now)
    ensures Live(a - TokensOf(a, u), now) == Live(b - TokensOf(b, u), now)
  {
    var x, y := Live(a - TokensOf(a, u), now), Live(b - TokensOf(b, u), now);
    forall h ensures h in x ==> h in y && y[h] == x[h] {
      assert h in x ==> h in Live(a, now);
    }
    forall h ensures h in y ==> h in x {
      assert h in y ==> h in Live(b, now);
    }
  }

  lemma LiveStore(a: map<TokenHash, RefreshToken>, b: map<TokenHash, RefreshToken>, now: Time, row: RefreshToken)
    requires Live(a, now) == Live(b, now)
    ensures Live(a[row.tokenHash := row], now) == Live(b[row.tokenHash := row], now)
  {
    var x, y := Live(a[row.tokenHash := row], now), Live(b[row.tokenHash := row], now);
    forall h ensures h in x ==> h in y && y[h] == x[h] {
      assert h in x && h != row.tokenHash ==> h in Live(a, now);
    }
    forall h ensures h in y ==> h in x {
      assert h in y && h != row.tokenHash ==> h in Live(b, now);
    }
  }

  lemma LiveMark(a: map<TokenHash, RefreshToken>, b: map<TokenHash, RefreshToken>, now: Time, hash: TokenHash, at: Time)
    requires Live(a, now) == Live(b, now)
    ensures Live(if hash in a then a[hash := a[hash].(usedAt := Some(at))] else a, now)
         == Live(if hash in b then b[hash := b[hash].(usedAt := Some(at))] else b, now)
  {
    var a' := if hash in a then a[hash := a[hash].(usedAt := Some(at))] else a;
    var b' := if hash in b then b[hash := b[hash].(usedAt := Some(at))] else b;
    forall h ensures h in Live(a', now) ==> h in Live(b', now) && Live(b', now)[h] == a'[h] {
      assert h in Live(a', now) ==> h in Live(a, now) && Live(a, now)[h] == a[h];
    }
    forall h ensures h in Live(b', now) ==> h in Live(a', now) {
      assert h in Live(b', now) ==> h in Live(b, now) && Live(b, now)[h] == b[h];
    }
  }

  lemma LiveDecides(a: map<TokenHash, RefreshToken>, b: map<TokenHash, RefreshToken>, now: Time, raw: string)
    requires Live(a, now) == Live(b, now)
    ensures ChecksPass(a, raw, now) <==> ChecksPass(b, raw, now)
    ensures ChecksPass(a, raw, now) ==> a[Sha256(raw)] == b[Sha256(raw)]
  {
    var h := Sha256(raw);
    assert h in a && now <= a[h].expiresAt ==> h in Live(a, now) && Live(a, now)[h] == a[h];
    assert h in b && now <= b[h].expiresAt ==> h in Live(b, now) && Live(b, now)[h] == b[h];
  }

  // --- Calls, and runs of calls, simulate ---

  // The same answer, and databases no later call can tell apart at now.
  ghost predicate OutcomeSim(x: (Db, Result<TokenResponse>), y: (Db, Result<TokenResponse>), now: Time) {
    && SameUsers(x.0, y.0) && x.1 == y.1
    && Live(x.0.tokens, now) == Live(y.0.tokens, now)
  }

  ghost predicate NotStored(tokens: map<TokenHash, RefreshToken>, draw: Option<string>) {
    draw.Some? ==> Sha256(draw.value) !in tokens
  }

  lemma IssueSim(secret: string, a: Db, b: Db, userId: Uuid, role: UserRole, inputs: nat -> Input, i: nat, now: Time)
    requires SameUsers(a, b) && userId in a.users && Live(a.tokens, now) == Live(b.tokens, now)
    requires NotStored(a.tokens, inputs(i).entropy) && NotStored(b.tokens, inputs(i).entropy)
    ensures OutcomeSim(RunIssue(secret, a, Sign(userId, role), inputs, i),
                       RunIssue(secret, b, Sign(userId, role), inputs, i), now)
  {
    IssueOutcome(secret, a, userId, role, inputs, i);
    IssueOutcome(secret, b, userId, role, inputs, i);
    var r := RunIssue(secret, a, Sign(userId, role), inputs, i).1;
    if r.Ok? {
      LiveStore(a.tokens, b.tokens, now, FreshRow(userId, inputs(i).now, r.value.refreshToken));
    }
  }

  // A refresh that passed its checks and found its user, from its delete on.
  lemma RotateSim(secret: string, a: Db, b: Db, raw: string, rt: RefreshToken, user: User, inputs: nat -> Input,
                  now: Time)
    requires SameUsers(a, b) && user.id in a.users && Live(a.tokens, now) == Live(b.tokens, now)
    requires NotStored(a.tokens, inputs(4).entropy) && NotStored(b.tokens, inputs(4).entropy)
    ensures OutcomeSim(RunRefresh(secret, a, Rotate(raw, rt, user), inputs, 3),
                       RunRefresh(secret, b, Rotate(raw, rt, user), inputs, 3), now)
  {
    Rotated(secret, a, raw, rt, user, inputs);
    Rotated(secret, b, raw, rt, user, inputs);
    if !inputs(3).env.down {
      var up := Env(false, 0);
      RevokeEffect(a, rt.userId, up);
      RevokeEffect(b, rt.userId, up);
      LiveDelete(a.tokens, b.tokens, now, rt.userId);
      IssueSim(secret, DeleteTokensOfCall(a, rt.userId, up).0, DeleteTokensOfCall(b, rt.userId, up).0,
               user.id, user.role, inputs, 4, now);
    }
  }

  lemma RefreshSim(secret: string, a: Db, b: Db, raw: string, inputs: nat -> Input)
    requires SameUsers(a, b) && Live(a.tokens, inputs(1).now) == Live(b.tokens, inputs(1).now)
    requires NotStored(a.tokens, inputs(4).entropy) && NotStored(b.tokens, inputs(4).entropy)
    ensures OutcomeSim(RunRefresh(secret, a, Find(raw), inputs, 0), RunRefresh(secret, b, Find(raw), inputs, 0),
                       inputs(1).now)
  {
    var now := inputs(1).now;
    ChecksDecide(secret, a, raw, inputs);
    ChecksDecide(secret, b, raw, inputs);
    LiveDecides(a.tokens, b.tokens, now, raw);
    if ChecksPass(a.tokens, raw, now) && !inputs(0).env.down {
      var rt := a.tokens[Sha256(raw)];
      LoadedUser(secret, a, raw, rt, inputs);
      LoadedUser(secret, b, raw, rt, inputs);
      RotateSim(secret, a, b, raw, rt, a.users[rt.userId], inputs, now);
    }
  }

  function Draw(c: Call): Option<string> {
    match c
    case SignIn(_, _, _, _, entropy) => entropy
    case Refresh(_, _, _, entropy) => entropy
    case _ => None
  }

  // Random values never repeat.
  ghost predicate DistinctDraws(calls: seq<Call>) {
    forall i, j :: 0 <= i < j < |calls| && Draw(calls[i]).Some? ==> Draw(calls[i]) != Draw(calls[j])
  }

  function Draws(calls: seq<Call>): set<string> {
    set i | 0 <= i < |calls| && Draw(calls[i]).Some? :: Draw(calls[i]).value
  }

  lemma SignInSim(srv: Server, a: State, b: State, c: Call)
    requires Sim(a, b) && c.SignIn? && NotStored(a.db.tokens, c.entropy) && NotStored(b.db.tokens, c.entropy)
    ensures OutcomeSim(SignInOutcome(srv, a, c), SignInOutcome(srv, b, c), a.now)
  {
    LoginSame(srv.cfg, a.db, b.db, Start(c.pu), c.envs, 0);
    StartOk(srv.cfg, a.db, c.pu);
    StartOk(srv.cfg, b.db, c.pu);
    LoginKeepsTokens(srv.cfg, a.db, Start(c.pu), c.envs, 0);
    LoginKeepsTokens(srv.cfg, b.db, Start(c.pu), c.envs, 0);
    var x, y := RunLogin(srv.cfg, a.db, Start(c.pu), c.envs, 0), RunLogin(srv.cfg, b.db, Start(c.pu), c.envs, 0);
    if x.1.Ok? {
      IssueSim(srv.secret, x.0, y.0, x.1.value.id, x.1.value.role, SignInInputs(c, a.now), 0, a.now);
    }
  }

  lemma SignedInSim(a: State, b: State, later: Time, x: (Db, Result<TokenResponse>), y: (Db, Result<TokenResponse>))
    requires Sim(a, b) && a.now <= later && OutcomeSim(x, y, a.now)
    ensures Sim(SignedIn(a, later, x), SignedIn(b, later, y))
  {
    LiveLater(x.0.tokens, y.0.tokens, a.now, later);
  }

  lemma RefreshedSim(a: State, b: State, raw: string, later: Time, x: (Db, Result<TokenResponse>),
                     y: (Db, Result<TokenResponse>))
    requires Sim(a, b) && a.now <= later && OutcomeSim(x, y, a.now)
    ensures Sim(Refreshed(a, raw, later, x), Refreshed(b, raw, later, y))
  {
    LiveLater(x.0.tokens, y.0.tokens, a.now, later);
  }

  lemma RefreshCallSim(srv: Server, a: State, b: State, c: Call)
    requires Sim(a, b) && c.Refresh? && NotStored(a.db.tokens, c.entropy) && NotStored(b.db.tokens, c.entropy)
    ensures OutcomeSim(RefreshCall(srv, a, c), RefreshCall(srv, b, c), a.now)
  {
    RefreshSim(srv.secret, a.db, b.db, c.raw, RefreshInputs(c, a.now));
  }

  lemma TokenCallSim(srv: Server, a: State, b: State, c: Call)
    requires Sim(a, b) && (c.Revoke? || c.MarkUsed? || c.SoftDelete? || c.Wait?)
    ensures Sim(Do(srv, a, c), Do(srv, b, c))
  {
    hide Constraints, Live, SoftDeleteRow, MarkTokenRow, DropTokens;
    match c
    case Revoke(u, env) =>
      RevokeEffect(a.db, u, env);
      RevokeEffect(b.db, u, env);
      LiveDelete(a.db.tokens, b.db.tokens, a.now, u);
    case MarkUsed(hash, env) =>
      MarkEffect(a.db, hash, a.now, env);
      MarkEffect(b.db, hash, a.now, env);
      LiveMark(a.db.tokens, b.db.tokens, a.now, hash, a.now);
    case SoftDelete(id, env) =>
      StatementSame(a.db, b.db, SoftDeleteUser(id, a.now), env);
      SequentialLogins.SoftDeleteKeeps(a.db, id, a.now, env);
      SequentialLogins.SoftDeleteKeeps(b.db, id, a.now, env);
    case Wait(delay) => LiveLater(a.db.tokens, b.db.tokens, a.now, a.now + delay);
  }

  lemma SignInPair(srv: Server, a: State, b: State, c: Call)
    returns (x: (Db, Result<TokenResponse>), y: (Db, Result<TokenResponse>))
    requires Sim(a, b) && c.SignIn? && NotStored(a.db.tokens, c.entropy) && NotStored(b.db.tokens, c.entropy)
    ensures OutcomeSim(x, y, a.now)
    ensures Do(srv, a, c) == SignedIn(a, a.now + c.lag, x)
    ensures Do(srv, b, c) == SignedIn(b, b.now + c.lag, y)
  {
    x, y := SignInOutcome(srv, a, c), SignInOutcome(srv, b, c);
    SignInSim(srv, a, b, c);
  }

  lemma SignInCallSim(srv: Server, a: State, b: State, c: Call)
    requires Sim(a, b) && c.SignIn? && NotStored(a.db.tokens, c.entropy) && NotStored(b.db.tokens, c.entropy)
    ensures Sim(Do(srv, a, c), Do(srv, b, c))
  {
    hide Do, SignInOutcome, SignedIn, OutcomeSim;
    var x, y := SignInPair(srv, a, b, c);
    SignedInSim(a, b, a.now + c.lag, x, y);
  }

  lemma RefreshPair(srv: Server, a: State, b: State, c: Call)
    returns (x: (Db, Result<TokenResponse>), y: (Db, Result<TokenResponse>))
    requires Sim(a, b) && c.Refresh? && NotStored(a.db.tokens, c.entropy) && NotStored(b.db.tokens, c.entropy)
    ensures OutcomeSim(x, y, a.now)
    ensures Do(srv, a, c) == Refreshed(a, c.raw, a.now + c.lag, x)
    ensures Do(srv, b, c) == Refreshed(b, c.raw, a.now + c.lag, y)
  {
    hide RefreshCall, Refreshed, OutcomeSim, Live;
    x, y := RefreshCall(srv, a, c), RefreshCall(srv, b, c);
    RefreshCallSim(srv, a, b, c);
  }

  lemma RefreshDoSim(srv: Server, a: State, b: State, c: Call)
    requires Sim(a, b) && c.Refresh? && NotStored(a.db.tokens, c.entropy) && NotStored(b.db.tokens, c.entropy)
    ensures Sim(Do(srv, a, c), Do(srv, b, c))
  {
    hide Do, Refreshed, OutcomeSim, Sim;
    var x, y := RefreshPair(srv, a, b, c);
    RefreshedSim(a, b, c.raw, a.now + c.lag, x, y);
  }

  lemma CallSim(srv: Server, a: State, b: State, c: Call)
    requires Sim(a, b) && !c.Purge? && NotStored(a.db.tokens, Draw(c)) && NotStored(b.db.tokens, Draw(c))
    ensures Sim(Do(srv, a, c), Do(srv, b, c))
  {
    if c.SignIn? {
      SignInCallSim(srv, a, b, c);
    } else if c.Refresh? {
      RefreshDoSim(srv, a, b, c);
    } else {
      TokenCallSim(srv, a, b, c);
    }
  }

  lemma PurgeSim(srv: Server, a: State, c: Call)
    requires c.Purge?
    ensures Sim(Do(srv, a, c), a)
  {
    hide Constraints, DeleteTokensBeforeCall, Live;
    PurgeEffect(a.db, a.now - c.age, c.env);
    LivePurge(a.db.tokens, a.now - c.age, a.now);
  }

  // Every stored token was drawn by some call of the run.
  lemma {:induction false} StoredWereDrawn(srv: Server, t0: Time, calls: seq<Call>)
    ensures forall h :: h in After(srv, Initial(t0), calls).db.tokens ==> h.raw in Draws(calls)
  {
    if calls != [] {
      var n := |calls| - 1;
      StoredWereDrawn(srv, t0, calls[..n]);
      var s := After(srv, Initial(t0), calls[..n]);
      DrawsGrow(calls);
      CallStores(srv, s, calls[n]);
    }
  }

  lemma DrawsGrow(calls: seq<Call>)
    requires calls != []
    ensures var n := |calls| - 1;
      Draws(calls) == Draws(calls[..n]) + if Draw(calls[n]).Some? then {Draw(calls[n]).value} else {}
  {
    var n := |calls| - 1;
    forall d ensures d in Draws(calls[..n]) ==> d in Draws(calls) {
      if d in Draws(calls[..n]) {
        var i :| 0 <= i < n && Draw(calls[..n][i]) == Some(d);
        assert Draw(calls[i]) == Some(d);
      }
    }
    forall d ensures d in Draws(calls) ==> d in Draws(calls[..n]) || Draw(calls[n]) == Some(d) {
      if d in Draws(calls) {
        var i :| 0 <= i < |calls| && Draw(calls[i]) == Some(d);
        assert i < n ==> Draw(calls[..n][i]) == Some(d);
      }
    }
    if Draw(calls[n]).Some? {
      assert Draw(calls[n]).value in Draws(calls);
    }
  }

  // A call stores no token but the one it drew.
  lemma CallStores(srv: Server, s: State, c: Call)
    ensures forall h :: h in Do(srv, s, c).db.tokens ==> h in s.db.tokens || Draw(c) == Some(h.raw)
  {
    match c
    case SignIn(_, _, _, _, _) => ShapeOfSignIn(srv, s, c);
    case Refresh(_, _, _, _) => var _ := RefreshCallShape(srv, s, c);
    case Revoke(u, env) => RevokeEffect(s.db, u, env);
    case MarkUsed(hash, env) => MarkEffect(s.db, hash, s.now, env);
    case Purge(age, env) => PurgeEffect(s.db, s.now - age, env);
    case SoftDelete(id, env) => SequentialLogins.SoftDeleteKeeps(s.db, id, s.now, env);
    case Wait(_) =>
  }

  function WithoutPurges(calls: seq<Call>): seq<Call> {
    if calls == [] then []
    else
      var n := |calls| - 1;
      WithoutPurges(calls[..n]) + if calls[n].Purge? then [] else [calls[n]]
  }

  lemma {:induction false} SameDraws(calls: seq<Call>)
    ensures Draws(WithoutPurges(calls)) == Draws(calls)
  {
    if calls != [] {
      var n := |calls| - 1;
      SameDraws(calls[..n]);
      DrawsGrow(calls);
      var rest := WithoutPurges(calls[..n]);
      if calls[n].Purge? {
        assert rest + [] == rest;
      } else {
        DrawsGrow(rest + [calls[n]]);
        assert (rest + [calls[n]])[..|rest|] == rest;
      }
    }
  }

  // A run and the same run without its purges end in states no later call can tell apart.
  lemma {:induction false} RunSim(srv: Server, t0: Time, calls: seq<Call>)
    requires DistinctDraws(calls)
    ensures Sim(After(srv, Initial(t0), calls), After(srv, Initial(t0), WithoutPurges(calls)))
  {
    if calls != [] {
      var n := |calls| - 1;
      var before, last, rest := calls[..n], calls[n], WithoutPurges(calls[..n]);
      RunSim(srv, t0, before);
      var a, b := After(srv, Initial(t0), before), After(srv, Initial(t0), rest);
      if last.Purge? {
        PurgeSim(srv, a, last);
        assert rest + [] == rest;
      } else {
        LastDrawIsNew(srv, t0, calls);
        CallSim(srv, a, b, last);
        assert (rest + [last])[..|rest|] == rest;
      }
    }
  }

  lemma LastDrawIsNew(srv: Server, t0: Time, calls: seq<Call>)
    requires DistinctDraws(calls) && calls != []
    ensures var n := |calls| - 1;
      && NotStored(After(srv, Initial(t0), calls[..n]).db.tokens, Draw(calls[n]))
      && NotStored(After(srv, Initial(t0), WithoutPurges(calls[..n])).db.tokens, Draw(calls[n]))
  {
    var n := |calls| - 1;
    StoredWereDrawn(srv, t0, calls[..n]);
    StoredWereDrawn(srv, t0, WithoutPurges(calls[..n]));
    SameDraws(calls[..n]);
    if Draw(calls[n]).Some? {
      assert Draw(calls[n]).value !in Draws(calls[..n]);
    }
  }

  // Two runs that differ only in their purges have given the same answers, and
  // give the same answer to every further refresh, at every time.
  lemma PurgesAreUnobservable(srv: Server, t0: Time, x: seq<Call>, y: seq<Call>, c: Call)
    requires WithoutPurges(x) == WithoutPurges(y)
    requires DistinctDraws(x + [c]) && DistinctDraws(y + [c]) && c.Refresh?
    ensures var a, b := After(srv, Initial(t0), x), After(srv, Initial(t0), y);
      && a.replies == b.replies && a.now == b.now
      && RefreshCall(srv, a, c).1 == RefreshCall(srv, b, c).1
  {
    assert DistinctDraws(x) by { assert forall i :: 0 <= i < |x| ==> (x + [c])[i] == x[i]; }
    assert DistinctDraws(y) by { assert forall i :: 0 <= i < |y| ==> (y + [c])[i] == y[i]; }
    RunSim(srv, t0, x);
    RunSim(srv, t0, y);
    assert (x + [c])[..|x|] == x && (y + [c])[..|y|] == y;
    LastDrawIsNew(srv, t0, x + [c]);
    LastDrawIsNew(srv, t0, y + [c]);
    RefreshCallSim(srv, After(srv, Initial(t0), x), After(srv, Initial(t0), y), c);
  }
}

// What every interleaving keeps about users, links and the tokens in flight,
// and who can act as an administrator.
module Authority {
  import opened Domain
  import opened Tables
  import opened Resolver
  import opened Logins
  import opened Sessions
  import opened Middleware
  import opened Service
  import SequentialLogins
  import TokenRuns

  // The row exists, and is an admin's if this role is.
  ghost predicate Holds(db: Tables, id: Uuid, role: UserRole) {
    id in db.users && (role == PlatformAdmin ==> db.users[id].role == PlatformAdmin)
  }

  ghost predicate IssueOk(secret: string, db: Tables, draws: map<string, Draw>, tid: nat, pc: IssuePc) {
    match pc
    case Sign(u, role) => Holds(db, u, role)
    case Store(u, role, at, raw) =>
      && raw in draws && draws[raw].tid == tid
      && draws[raw].userId == u && draws[raw].role == role && draws[raw].at == at
    case Issued(r) =>
      r.Ok? ==>
        var raw := r.value.refreshToken;
        && raw in draws && draws[raw].tid == tid
        && r.value == Response(secret, draws[raw].userId, draws[raw].role, draws[raw].at, raw)
  }

  // What a request relies on, whatever other requests do between its steps.
  ghost predicate RequestOk(srv: TokenRuns.Server, db: Tables, draws: map<string, Draw>, tid: nat, rq: Request) {
    match rq
    case TurnedAway(_) => true
    case LoggingIn(_, pc) => LocalOk(srv.cfg, db, pc) && (pc.Done? ==> pc.result.Err?)
    case LoggedIn(_, user, pc) => Snapshot(db, user) && IssueOk(srv.secret, db, draws, tid, pc)
    case Refreshing(Rotate(_, _, user)) => Snapshot(db, user)
    case Refreshing(Reissue(_, _, pc)) => IssueOk(srv.secret, db, draws, tid, pc)
    case Refreshing(_) => true
  }

  // No claim was signed for a role its user's row did not have, and admins stay admins.
  ghost predicate DrawsOk(db: Tables, draws: map<string, Draw>, now: Time) {
    forall raw {:trigger draws[raw]} :: raw in draws ==>
      var d := draws[raw];
      d.at <= now && Holds(db, d.userId, d.role) && (d.role == PlatformAdmin ==> d.was == Some(PlatformAdmin))
  }

  ghost predicate Coherent(srv: TokenRuns.Server, s: State) {
    && DrawsOk(s.db, s.log.draws, s.now)
    && forall tid {:trigger s.requests[tid]} :: tid in s.requests ==>
         RequestOk(srv, s.db, s.log.draws, tid, s.requests[tid])
  }

  ghost predicate Extends(draws: map<string, Draw>, draws': map<string, Draw>) {
    forall raw {:trigger draws'[raw]} {:trigger draws[raw]} ::
      raw in draws ==> raw in draws' && draws'[raw] == draws[raw]
  }

  lemma RequestOkStays(srv: TokenRuns.Server, a: Tables, b: Tables, draws: map<string, Draw>, draws': map<string, Draw>,
                       tid: nat, rq: Request)
    requires RequestOk(srv, a, draws, tid, rq) && Grows(a, b) && Extends(draws, draws')
    ensures RequestOk(srv, b, draws', tid, rq)
  {
    if rq.LoggingIn? {
      LocalOkGrows(srv.cfg, a, b, rq.login);
    }
  }

  // How a step may change the users table and the order of creation: rows are
  // kept, or exactly one is added, by a login that had reached its transaction.
  ghost predicate UsersStep(b: BootstrapConfig, db: Tables, order: seq<Uuid>, db': Tables, order': seq<Uuid>) {
    || (order' == order && RowsKept(b, db, db'))
    || (|order'| == |order| + 1 && order'[..|order|] == order
        && order'[|order|] in db'.users && RowAdded(b, db, db', db'.users[order'[|order|]]))
  }

  // What one step of a request keeps.
  ghost predicate StepFair(srv: TokenRuns.Server, db: Db, draws: map<string, Draw>, order: seq<Uuid>, now: Time,
                           tid: nat, rq: Request, after: (Db, Request)) {
    var (db', rq') := after;
    var draws' := DrawsAfter(draws, db, tid, rq, rq');
    && Grows(db, db') && Extends(draws, draws')
    && DrawsOk(db', draws', now) && RequestOk(srv, db', draws', tid, rq')
    && UsersStep(srv.cfg.bootstrap, db, order, db', if Created(rq, rq') then order + [rq'.user.id] else order)
  }

  lemma IssueKeepsUsers(secret: string, db: Db, pc: IssuePc, input: Input)
    ensures var (db', pc') := IssueStep(secret, db, pc, input);
      && db'.users == db.users && db'.links == db.links
      && (pc.Sign? ==> db' == db && pc' == match input.entropy
                                            case None => Issued(Err(NoEntropy))
                                            case Some(raw) => Store(pc.userId, pc.role, input.now, raw))
      && (pc.Store? ==> pc'.Issued?)
      && (pc.Store? && pc'.result.Ok? ==> pc'.result.value == Response(secret, pc.userId, pc.role, pc.now, pc.raw))
      && (pc.Issued? ==> pc' == pc)
  {
  }

  lemma SameUsersGrow(b: BootstrapConfig, db: Tables, db': Tables)
    requires db'.users == db.users && db'.links == db.links
    ensures Grows(db, db') && RowsKept(b, db, db')
  {
  }

  lemma DrawsOkGrows(a: Tables, b: Tables, draws: map<string, Draw>, now: Time)
    requires DrawsOk(a, draws, now) && Grows(a, b)
    ensures DrawsOk(b, draws, now)
  {
  }

  // A step of the issuer, within a login or a refresh.
  lemma IssueFair(srv: TokenRuns.Server, db: Db, draws: map<string, Draw>, tid: nat, pc: IssuePc, input: Input)
    requires DrawsOk(db, draws, input.now) && IssueOk(srv.secret, db, draws, tid, pc)
    requires input.entropy.Some? ==> input.entropy.value !in draws
    ensures var (db', pc') := IssueStep(srv.secret, db, pc, input);
      var draws' :=
        if pc.Sign? && pc'.Store? then
          draws[pc'.raw := Draw(tid, pc'.userId, pc'.role, pc'.now, RoleOf(db, pc'.userId))]
        else draws;
      && db'.users == db.users && db'.links == db.links
      && Extends(draws, draws') && DrawsOk(db', draws', input.now) && IssueOk(srv.secret, db', draws', tid, pc')
  {
    IssueKeepsUsers(srv.secret, db, pc, input);
  }

  lemma LoginFair(srv: TokenRuns.Server, db: Db, draws: map<string, Draw>, order: seq<Uuid>, now: Time, tid: nat,
                  rq: Request, envs: nat -> Env, entropy: Option<string>)
    requires DrawsOk(db, draws, now) && RequestOk(srv, db, draws, tid, rq) && rq.LoggingIn?
    ensures StepFair(srv, db, draws, order, now, tid, rq, Step(srv, db, rq, envs, now, entropy))
  {
    hide LoginStep;
    StepKeeps(srv.cfg, db, rq.login, envs, 0);
    var (db', pc') := LoginStep(srv.cfg, db, rq.login, envs, 0);
    DrawsOkGrows(db, db', draws, now);
    OnlyCreateAdds(srv.cfg, db, rq.login, envs);
  }

  // A login that succeeds out of another case has added no row.
  lemma OnlyCreateAdds(cfg: Config, db: Db, pc: LoginPc, envs: nat -> Env)
    requires LocalOk(cfg, db, pc)
    ensures var (db', pc') := LoginStep(cfg, db, pc, envs, 0);
      (pc.CreateUser? ==> pc'.Done?) && (pc.Done? ==> pc' == pc && db' == db)
  {
  }

  lemma LoggedInFair(srv: TokenRuns.Server, db: Db, draws: map<string, Draw>, order: seq<Uuid>, now: Time, tid: nat,
                     rq: Request, envs: nat -> Env, entropy: Option<string>)
    requires DrawsOk(db, draws, now) && RequestOk(srv, db, draws, tid, rq) && rq.LoggedIn?
    requires entropy.Some? ==> entropy.value !in draws
    ensures StepFair(srv, db, draws, order, now, tid, rq, Step(srv, db, rq, envs, now, entropy))
  {
    hide IssueStep, Constraints, DrawsOk, Extends, IssueOk, RowsKept, Grows;
    IssueFair(srv, db, draws, tid, rq.issue, Input(now, envs(0), entropy));
    SameUsersGrow(srv.cfg.bootstrap, db, IssueStep(srv.secret, db, rq.issue, Input(now, envs(0), entropy)).0);
  }

  lemma EarlyRefreshKeepsUsers(secret: string, db: Db, pc: RefreshPc, input: Input)
    requires !pc.Reissue?
    ensures var (db', pc') := RefreshStep(secret, db, pc, input);
      && db'.users == db.users && db'.links == db.links
      && (pc'.Rotate? ==> pc == pc' || (pc.LoadUser? && Snapshot(db, pc'.user)))
      && (pc'.Reissue? ==> pc.Rotate? && pc'.pc == Sign(pc.user.id, pc.user.role))
  {
    hide TokensOf;
  }

  lemma RefreshFair(srv: TokenRuns.Server, db: Db, draws: map<string, Draw>, order: seq<Uuid>, now: Time, tid: nat,
                    rq: Request, envs: nat -> Env, entropy: Option<string>)
    requires DrawsOk(db, draws, now) && RequestOk(srv, db, draws, tid, rq) && rq.Refreshing?
    requires entropy.Some? ==> entropy.value !in draws
    ensures StepFair(srv, db, draws, order, now, tid, rq, Step(srv, db, rq, envs, now, entropy))
  {
    hide Constraints;
    var input := Input(now, envs(0), entropy);
    if rq.refresh.Reissue? {
      ReissueFair(srv, db, draws, order, now, tid, rq, envs, entropy);
    } else {
      hide RefreshStep, Constraints, Extends, RowsKept, Grows;
      EarlyRefreshKeepsUsers(srv.secret, db, rq.refresh, input);
      SameUsersGrow(srv.cfg.bootstrap, db, RefreshStep(srv.secret, db, rq.refresh, input).0);
    }
  }

  lemma ReissueFair(srv: TokenRuns.Server, db: Db, draws: map<string, Draw>, order: seq<Uuid>, now: Time, tid: nat,
                    rq: Request, envs: nat -> Env, entropy: Option<string>)
    requires DrawsOk(db, draws, now) && RequestOk(srv, db, draws, tid, rq) && rq.Refreshing? && rq.refresh.Reissue?
    requires entropy.Some? ==> entropy.value !in draws
    ensures StepFair(srv, db, draws, order, now, tid, rq, Step(srv, db, rq, envs, now, entropy))
  {
    hide IssueStep, Constraints, DrawsOk, Extends, IssueOk, RowsKept, Grows;
    var input := Input(now, envs(0), entropy);
    IssueFair(srv, db, draws, tid, rq.refresh.pc, input);
    SameUsersGrow(srv.cfg.bootstrap, db, IssueStep(srv.secret, db, rq.refresh.pc, input).0);
  }

  lemma RequestFair(srv: TokenRuns.Server, db: Db, draws: map<string, Draw>, order: seq<Uuid>, now: Time, tid: nat,
                    rq: Request, envs: nat -> Env, entropy: Option<string>)
    requires DrawsOk(db, draws, now) && RequestOk(srv, db, draws, tid, rq)
    requires entropy.Some? ==> entropy.value !in draws
    ensures StepFair(srv, db, draws, order, now, tid, rq, Step(srv, db, rq, envs, now, entropy))
  {
    match rq
    case TurnedAway(_) =>
    case LoggingIn(_, _) => LoginFair(srv, db, draws, order, now, tid, rq, envs, entropy);
    case LoggedIn(_, _, _) => LoggedInFair(srv, db, draws, order, now, tid, rq, envs, entropy);
    case Refreshing(_) => RefreshFair(srv, db, draws, order, now, tid, rq, envs, entropy);
  }

  // --- Whole actions, and runs of them ---

  // What one action of the machine keeps.
  ghost predicate Fair(srv: TokenRuns.Server, s: State, s': State) {
    && Coherent(srv, s') && s.now <= s'.now
    && Grows(s.db, s'.db) && Extends(s.log.draws, s'.log.draws)
    && UsersStep(srv.cfg.bootstrap, s.db, s.log.order, s'.db, s'.log.order)
    && forall tid :: tid in s.requests ==> tid in s'.requests
  }

  // An action that adds no draw and keeps the users, but for rows marked deleted.
  lemma QuietFair(srv: TokenRuns.Server, s: State, s': State)
    requires Coherent(srv, s) && s.now <= s'.now && s'.requests == s.requests && s'.log.draws == s.log.draws
    requires s'.log.order == s.log.order && Grows(s.db, s'.db) && RowsKept(srv.cfg.bootstrap, s.db, s'.db)
    ensures Fair(srv, s, s')
  {
    hide Grows, RequestOk, RowsKept;
    DrawsOkGrows(s.db, s'.db, s.log.draws, s.now);
    forall tid | tid in s'.requests ensures RequestOk(srv, s'.db, s'.log.draws, tid, s'.requests[tid]) {
      RequestOkStays(srv, s.db, s'.db, s.log.draws, s'.log.draws, tid, s.requests[tid]);
    }
  }

  lemma ArrivalFair(srv: TokenRuns.Server, s: State, s': State, tid: nat, rq: Request)
    requires Coherent(srv, s) && s.now == s'.now && s'.requests == s.requests[tid := rq] && s'.log.draws == s.log.draws
    requires s'.log.order == s.log.order && s'.db == s.db
    requires RequestOk(srv, s.db, s.log.draws, tid, rq)
    ensures Fair(srv, s, s')
  {
    hide RequestOk;
    SameUsersGrow(srv.cfg.bootstrap, s.db, s'.db);
  }

  lemma AdvanceFair(srv: TokenRuns.Server, s: State, tid: nat, envs: nat -> Env, entropy: Option<string>)
    requires Coherent(srv, s)
    ensures Fair(srv, s, DoAdvance(srv, s, tid, envs, entropy))
  {
    hide Grows, RequestOk, RowsKept, Step, DrawsOk, Extends, UsersStep;
    if tid !in s.requests || Repeats(s, entropy) {
      SameUsersGrow(srv.cfg.bootstrap, s.db, s.db);
      QuietFair(srv, s, Idle(s));
    } else {
      var rq := s.requests[tid];
      RequestFair(srv, s.db, s.log.draws, s.log.order, s.now, tid, rq, envs, entropy);
      var s' := DoAdvance(srv, s, tid, envs, entropy);
      forall t | t in s'.requests ensures RequestOk(srv, s'.db, s'.log.draws, t, s'.requests[t]) {
        if t != tid {
          RequestOkStays(srv, s.db, s'.db, s.log.draws, s'.log.draws, t, s.requests[t]);
        }
      }
    }
  }

  lemma StoreCallFair(srv: TokenRuns.Server, s: State, a: Action)
    requires Coherent(srv, s) && (a.Revoke? || a.MarkUsed? || a.Purge? || a.SoftDelete?)
    ensures Fair(srv, s, Next(srv, s, a))
  {
    hide Grows, RequestOk, RowsKept, Coherent, Fair;
    match a
    case Revoke(u, env) =>
      TokenRuns.RevokeEffect(s.db, u, env);
      SameUsersGrow(srv.cfg.bootstrap, s.db, Next(srv, s, a).db);
      QuietFair(srv, s, Next(srv, s, a));
    case MarkUsed(hash, env) =>
      TokenRuns.MarkEffect(s.db, hash, s.now, env);
      SameUsersGrow(srv.cfg.bootstrap, s.db, Next(srv, s, a).db);
      QuietFair(srv, s, Next(srv, s, a));
    case Purge(age, env) =>
      TokenRuns.PurgeEffect(s.db, s.now - age, env);
      SameUsersGrow(srv.cfg.bootstrap, s.db, Next(srv, s, a).db);
      QuietFair(srv, s, Next(srv, s, a));
    case SoftDelete(id, env) =>
      SoftDeleteKeepsRows(srv.cfg.bootstrap, s.db, id, s.now, env);
      QuietFair(srv, s, Next(srv, s, a));
  }

  lemma SoftDeleteKeepsRows(b: BootstrapConfig, db: Db, id: Uuid, at: Time, env: Env)
    ensures var db' := SoftDeleteUserCall(db, id, at, env).0; Grows(db, db') && RowsKept(b, db, db')
  {
    hide SoftDeleteUserCall, Constraints;
    SequentialLogins.SoftDeleteKeeps(db, id, at, env);
  }

  lemma CallbackFair(srv: TokenRuns.Server, s: State, tid: nat, state: string, provider: Provider)
    requires Coherent(srv, s)
    ensures Fair(srv, s, DoCallback(s, tid, state, provider))
  {
    hide Fair, Coherent, Constraints;
    var s' := DoCallback(s, tid, state, provider);
    SameUsersGrow(srv.cfg.bootstrap, s.db, s.db);
    if tid in s.requests {
      QuietFair(srv, s, s');
    } else {
      ArrivalFair(srv, s, s', tid, s'.requests[tid]);
    }
  }

  lemma AskRefreshFair(srv: TokenRuns.Server, s: State, tid: nat, raw: string)
    requires Coherent(srv, s)
    ensures Fair(srv, s, DoAskRefresh(s, tid, raw))
  {
    hide Fair, Coherent, Constraints;
    SameUsersGrow(srv.cfg.bootstrap, s.db, s.db);
    if tid in s.requests {
      QuietFair(srv, s, Idle(s));
    } else {
      ArrivalFair(srv, s, DoAskRefresh(s, tid, raw), tid, Refreshing(Find(raw)));
    }
  }

  lemma {:induction false} NextFair(srv: TokenRuns.Server, s: State, a: Action)
    requires Coherent(srv, s)
    ensures Fair(srv, s, Next(srv, s, a))
  {
    hide Fair, Coherent, Constraints, DoAdvance, DoCallback, DoAskRefresh, DoRevoke;
    match a
    case Advance(tid, envs, entropy) => AdvanceFair(srv, s, tid, envs, entropy);
    case Callback(tid, state, provider) => CallbackFair(srv, s, tid, state, provider);
    case AskRefresh(tid, raw) => AskRefreshFair(srv, s, tid, raw);
    case Tick(_) =>
      SameUsersGrow(srv.cfg.bootstrap, s.db, s.db);
      QuietFair(srv, s, Next(srv, s, a));
    case Begin(_) =>
      SameUsersGrow(srv.cfg.bootstrap, s.db, s.db);
      QuietFair(srv, s, Next(srv, s, a));
    case _ => StoreCallFair(srv, s, a);
  }

  lemma {:induction false} RunCoherent(srv: TokenRuns.Server, t0: Time, actions: seq<Action>)
    ensures Coherent(srv, Run(srv, t0, actions))
  {
    hide Next;
    if actions != [] {
      RunCoherent(srv, t0, actions[..|actions| - 1]);
      NextFair(srv, Run(srv, t0, actions[..|actions| - 1]), actions[|actions| - 1]);
    }
  }

  // --- Who is admitted as an administrator ---

  // The service has handed out a token with these claims.
  ghost predicate HandedOut(s: State, claims: Claims) {
    exists tid :: tid in s.requests && Over(s.requests[tid]) && Issue(s.requests[tid]).Some?
      && Issue(s.requests[tid]).value.result.Ok?
      && Issue(s.requests[tid]).value.result.value.token.Jwt?
      && Issue(s.requests[tid]).value.result.value.token.claims == claims
  }

  // Signatures cannot be forged: whoever shows a token under the server's key has
  // been handed it. Any other token may be made up freely.
  ghost predicate Presentable(srv: TokenRuns.Server, s: State, header: Authorization) {
    header.Bearer? && header.token.Jwt? && header.token.hmac && header.token.key == srv.secret ==>
      HandedOut(s, header.token.claims)
  }

  lemma HandedOutWasDrawn(srv: TokenRuns.Server, s: State, claims: Claims) returns (raw: string)
    requires Coherent(srv, s) && HandedOut(s, claims)
    ensures raw in s.log.draws
    ensures var d := s.log.draws[raw]; claims == MintClaims(d.userId, d.role, d.at)
  {
    var tid :| tid in s.requests && Over(s.requests[tid]) && Issue(s.requests[tid]).Some?
      && Issue(s.requests[tid]).value.result.Ok?
      && Issue(s.requests[tid]).value.result.value.token.Jwt?
      && Issue(s.requests[tid]).value.result.value.token.claims == claims;
    assert RequestOk(srv, s.db, s.log.draws, tid, s.requests[tid]);
    raw := Issue(s.requests[tid]).value.result.value.refreshToken;
  }

  // What the draw says was so when k actions had been taken.
  ghost predicate DrawnAt(srv: TokenRuns.Server, t0: Time, actions: seq<Action>, k: int, d: Draw) {
    0 <= k < |actions| && var past := Run(srv, t0, actions[..k]); d.at == past.now && d.was == RoleOf(past.db, d.userId)
  }

  lemma StepDraws(srv: TokenRuns.Server, db: Db, rq: Request, envs: nat -> Env, now: Time, entropy: Option<string>)
    ensures var rq' := Step(srv, db, rq, envs, now, entropy).1;
      Drew(rq, rq') ==> Issue(rq').value.now == now
  {
    hide Constraints, LoginStep, IssueStep;
    var input := Input(now, envs(0), entropy);
    if rq.LoggedIn? {
      IssueKeepsUsers(srv.secret, db, rq.issue, input);
    } else if rq.Refreshing? && rq.refresh.Reissue? {
      IssueKeepsUsers(srv.secret, db, rq.refresh.pc, input);
    }
  }

  lemma AdvanceDraws(srv: TokenRuns.Server, s: State, tid: nat, envs: nat -> Env, entropy: Option<string>, raw: string)
    requires raw in DoAdvance(srv, s, tid, envs, entropy).log.draws
    ensures var d := DoAdvance(srv, s, tid, envs, entropy).log.draws[raw];
      (raw in s.log.draws && d == s.log.draws[raw]) || (d.at == s.now && d.was == RoleOf(s.db, d.userId))
  {
    hide Constraints, Step, Drew, RoleOf, Kill, Sight, StoredAfter, Saved, LookedUp, Revoked, Created, Over, Failing;
    if tid in s.requests {
      StepDraws(srv, s.db, s.requests[tid], envs, s.now, entropy);
    }
  }

  lemma NextDraws(srv: TokenRuns.Server, s: State, a: Action, raw: string)
    requires raw in Next(srv, s, a).log.draws
    ensures var d := Next(srv, s, a).log.draws[raw];
      (raw in s.log.draws && d == s.log.draws[raw]) || (d.at == s.now && d.was == RoleOf(s.db, d.userId))
  {
    hide Constraints, DoAdvance, RoleOf, Kill, DeleteTokensOfCall, MarkTokenUsedCall, DeleteTokensBeforeCall,
      SoftDeleteUserCall;
    match a
    case Advance(tid, envs, entropy) => AdvanceDraws(srv, s, tid, envs, entropy, raw);
    case Begin(state) => assert DoBegin(s, state).log.draws == s.log.draws;
    case Callback(tid, state, provider) => assert DoCallback(s, tid, state, provider).log.draws == s.log.draws;
    case _ =>
  }

  lemma {:induction false} DrawsTellHistory(srv: TokenRuns.Server, t0: Time, actions: seq<Action>, raw: string)
    returns (k: nat)
    requires raw in Run(srv, t0, actions).log.draws
    ensures DrawnAt(srv, t0, actions, k, Run(srv, t0, actions).log.draws[raw])
  {
    hide Next, RoleOf;
    assert actions != [];
    var n := |actions| - 1;
    var s, d := Run(srv, t0, actions[..n]), Run(srv, t0, actions).log.draws[raw];
    NextDraws(srv, s, actions[n], raw);
    if raw in s.log.draws && d == s.log.draws[raw] {
      k := DrawsTellHistory(srv, t0, actions[..n], raw);
      assert actions[..n][..k] == actions[..k];
    } else {
      k := n;
    }
  }

  // Whoever passes AuthRequired and RequireRole("platform_admin") is an admin in
  // the users table now, and was one already at an earlier moment, less than 8 hours
  // and 60 seconds ago, at which the token was signed.
  lemma {:induction false} OnlyAdminsAreAdmitted(srv: TokenRuns.Server, t0: Time, actions: seq<Action>,
                                                 header: Authorization)
    requires Presentable(srv, Run(srv, t0, actions), header)
    requires RequireRole(PlatformAdmin, AuthRequired(srv.secret, header, Run(srv, t0, actions).now))
    ensures var s := Run(srv, t0, actions);
      var u := AuthRequired(srv.secret, header, s.now).value.userId;
      && u in s.db.users && s.db.users[u].role == PlatformAdmin
      && exists k :: 0 <= k < |actions|
           && var past := Run(srv, t0, actions[..k]);
              && u in past.db.users && past.db.users[u].role == PlatformAdmin
              && s.now - 28_860_000_000_000 < past.now <= s.now
              && header.token.claims == MintClaims(u, PlatformAdmin, past.now)
  {
    hide Run, Constraints;
    RunCoherent(srv, t0, actions);
    var s := Run(srv, t0, actions);
    var raw := HandedOutWasDrawn(srv, s, header.token.claims);
    var d := s.log.draws[raw];
    MintedTokenLifetime(srv.secret, d.userId, d.role, d.at, s.now);
    var k := DrawsTellHistory(srv, t0, actions, raw);
    assert d.userId == AuthRequired(srv.secret, header, s.now).value.userId;
  }

  // For every role: what is accepted was handed out by this service, signed at an
  // earlier moment, less than 8 hours and 60 seconds ago, for that user and that role.
  // Nothing made up gets in.
  lemma {:induction false} AcceptedTokensAreOurs(srv: TokenRuns.Server, t0: Time, actions: seq<Action>,
                                                 header: Authorization)
    requires Presentable(srv, Run(srv, t0, actions), header)
    requires AuthRequired(srv.secret, header, Run(srv, t0, actions).now).Ok?
    ensures var s := Run(srv, t0, actions);
      var id := AuthRequired(srv.secret, header, s.now).value;
      && header.Bearer? && header.token.Jwt? && header.token.hmac && header.token.key == srv.secret
      && HandedOut(s, header.token.claims)
      && exists raw :: raw in s.log.draws
           && var d := s.log.draws[raw];
              && d.userId == id.userId && d.role == id.role
              && header.token.claims == MintClaims(id.userId, id.role, d.at)
              && s.now - 28_860_000_000_000 < d.at <= s.now
              && exists k :: 0 <= k < |actions| && Run(srv, t0, actions[..k]).now == d.at
  {
    hide Run, Constraints;
    RunCoherent(srv, t0, actions);
    var s := Run(srv, t0, actions);
    AcceptedExactly(srv.secret, header, s.now);
    var raw := HandedOutWasDrawn(srv, s, header.token.claims);
    var d := s.log.draws[raw];
    MintedTokenLifetime(srv.secret, d.userId, d.role, d.at, s.now);
    var k := DrawsTellHistory(srv, t0, actions, raw);
    assert Run(srv, t0, actions[..k]).now == d.at;
  }

  // --- Who becomes an administrator ---

  // The order of creation lists every row once, and accounts for every admin.
  ghost predicate Accounted(b: BootstrapConfig, db: Tables, order: seq<Uuid>) {
    && (forall id :: id in db.users <==> id in order)
    && (forall i, j :: 0 <= i < j < |order| ==> order[i] != order[j])
    && (forall id {:trigger db.users[id]} :: id in db.users && db.users[id].role == PlatformAdmin ==>
          IsBootstrapAdmin(b, db.users[id].email) || (b.devFallback && id == order[0]))
    && (b.devFallback && order != [] ==> order[0] in db.users && db.users[order[0]].role == PlatformAdmin)
  }

  lemma RowsKeptAccounted(b: BootstrapConfig, db: Db, db': Db, order: seq<Uuid>)
    requires Accounted(b, db, order) && Grows(db, db') && RowsKept(b, db, db')
    ensures Accounted(b, db', order)
  {
  }

  lemma RowAddedAccounted(b: BootstrapConfig, db: Db, db': Db, order: seq<Uuid>, u: User)
    requires Accounted(b, db, order) && RowAdded(b, db, db', u)
    ensures Accounted(b, db', order + [u.id])
  {
    hide Constraints;
    assert db.users == map[] <==> order == [] by {
      if order != [] {
        assert order[0] in db.users;
      }
    }
  }

  lemma StepAccounted(b: BootstrapConfig, s: State, s': State)
    requires Accounted(b, s.db, s.log.order) && Grows(s.db, s'.db)
    requires UsersStep(b, s.db, s.log.order, s'.db, s'.log.order)
    ensures Accounted(b, s'.db, s'.log.order)
  {
    hide Constraints, Accounted, Grows;
    if RowsKept(b, s.db, s'.db) && s'.log.order == s.log.order {
      RowsKeptAccounted(b, s.db, s'.db, s.log.order);
    } else {
      var id := s'.log.order[|s.log.order|];
      RowAddedAccounted(b, s.db, s'.db, s.log.order, s'.db.users[id]);
      assert s'.db.users[id].id == id by { IdOfRow(s'.db, id); }
      assert s'.log.order == s.log.order + [id];
    }
  }

  lemma IdOfRow(db: Db, id: Uuid)
    requires id in db.users
    ensures db.users[id].id == id
  {
  }

  lemma {:induction false} RunAccounted(srv: TokenRuns.Server, t0: Time, actions: seq<Action>)
    ensures var s := Run(srv, t0, actions); Accounted(srv.cfg.bootstrap, s.db, s.log.order)
  {
    hide Next, Accounted, Coherent;
    if actions == [] {
      assert Accounted(srv.cfg.bootstrap, EMPTY, []) by { NothingAccounted(srv.cfg.bootstrap); }
    } else {
      var before, last := actions[..|actions| - 1], actions[|actions| - 1];
      RunAccounted(srv, t0, before);
      RunCoherent(srv, t0, before);
      NextFair(srv, Run(srv, t0, before), last);
      StepAccounted(srv.cfg.bootstrap, Run(srv, t0, before), Run(srv, t0, actions));
    }
  }

  lemma NothingAccounted(b: BootstrapConfig)
    ensures Accounted(b, EMPTY, [])
  {
  }

  function Admins(users: map<Uuid, User>): set<Uuid> {
    set id | id in users && users[id].role == PlatformAdmin
  }

  lemma AtMostTwo<T>(s: set<T>, a: T, b: T)
    requires s <= {a, b}
    ensures |s| <= 2
  {
    if a in s {
      assert |s - {a}| <= 1 by {
        assert s - {a} == {} || s - {a} == {b};
      }
    } else {
      assert s == {} || s == {b};
    }
  }

  // However logins, refreshes and deletes interleave: an admin is the first row
  // created, under the fallback only, or the row with the bootstrap email. So with
  // neither there is none, with the fallback alone there is exactly one as soon as
  // there is a user, and there are never more than two.
  lemma AdminsAreExplained(srv: TokenRuns.Server, t0: Time, actions: seq<Action>)
    ensures var s := Run(srv, t0, actions);
      var b, users, order := srv.cfg.bootstrap, s.db.users, s.log.order;
      && (forall id :: id in users <==> id in order)
      && (users != map[] ==> order != [])
      && (forall id :: id in Admins(users) ==>
            || (b.adminEmail != "" && users[id].email == b.adminEmail)
            || (b.devFallback && order != [] && id == order[0]))
      && (b.devFallback && users != map[] ==> order[0] in Admins(users))
      && (b.adminEmail == "" && !b.devFallback ==> Admins(users) == {})
      && (b.adminEmail == "" && b.devFallback && users != map[] ==> Admins(users) == {order[0]})
      && |Admins(users)| <= 2
  {
    hide Run;
    RunAccounted(srv, t0, actions);
    var s := Run(srv, t0, actions);
    AdminsOfAccounted(srv.cfg.bootstrap, s.db, s.log.order);
  }

  lemma AdminsOfAccounted(b: BootstrapConfig, db: Db, order: seq<Uuid>)
    requires Accounted(b, db, order)
    ensures forall id :: id in db.users <==> id in order
    ensures db.users != map[] ==> order != []
    ensures forall id :: id in Admins(db.users) ==>
      IsBootstrapAdmin(b, db.users[id].email) || (b.devFallback && order != [] && id == order[0])
    ensures b.devFallback && db.users != map[] ==> order[0] in Admins(db.users)
    ensures b.adminEmail == "" && !b.devFallback ==> Admins(db.users) == {}
    ensures b.adminEmail == "" && b.devFallback && db.users != map[] ==> Admins(db.users) == {order[0]}
    ensures |Admins(db.users)| <= 2
  {
    var first := if order == [] then NilUuid else order[0];
    var owner := EmailOwner(db.users, b.adminEmail);
    AtMostTwo(Admins(db.users), first, owner.GetOr(NilUuid));
  }

  // --- Links and emails ---

  lemma {:induction false} OnwardGrows(srv: TokenRuns.Server, s: State, more: seq<Action>)
    requires Coherent(srv, s)
    ensures Coherent(srv, After(srv, s, more)) && Grows(s.db, After(srv, s, more).db)
  {
    hide Next, Coherent, Constraints;
    if more == [] {
      SameUsersGrow(srv.cfg.bootstrap, s.db, s.db);
    } else {
      var mid := After(srv, s, more[..|more| - 1]);
      OnwardGrows(srv, s, more[..|more| - 1]);
      NextFair(srv, mid, more[|more| - 1]);
      GrowsTransitive(s.db, mid.db, After(srv, s, more).db);
    }
  }

  // Whatever happens next, every link stays and keeps its owner, an existing user;
  // and no two users share an email.
  lemma {:induction false} LinkOwnersAreFinal(srv: TokenRuns.Server, t0: Time, actions: seq<Action>, more: seq<Action>)
    ensures var s := Run(srv, t0, actions);
      var s' := After(srv, s, more);
      && (forall k :: k in s.db.links ==> k in s'.db.links && s'.db.links[k].userId == s.db.links[k].userId)
      && (forall k :: k in s'.db.links ==> s'.db.links[k].userId in s'.db.users)
      && UniqueEmails(s'.db.users)
  {
    hide After;
    RunCoherent(srv, t0, actions);
    OnwardGrows(srv, Run(srv, t0, actions), more);
  }
}

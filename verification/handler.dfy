// The OAuth handlers: begin, and the callback that both providers share.
module Handlers {
  import opened Domain
  import opened Tables
  import opened Postgres
  import opened Transactions
  import opened Resolver
  import opened Sessions
  import opened StateStores
  import opened Service
  import SequentialLogins
  import TokenRuns

  class OAuthHandler {
    const states: StateStore
    const resolver: UserResolver
    const issuer: TokenIssuer

    ghost predicate Wired(pool: Pool) {
      resolver.Wired(pool) && issuer.Wired(pool)
    }

    ghost function Server(): TokenRuns.Server {
      TokenRuns.Server(resolver.cfg, issuer.jwtSecret)
    }

    constructor (states: StateStore, resolver: UserResolver, issuer: TokenIssuer)
      ensures this.states == states && this.resolver == resolver && this.issuer == issuer
    {
      this.states := states;
      this.resolver := resolver;
      this.issuer := issuer;
    }

    method Begin(entropy: Option<string>, now: Time) returns (r: Result<string>)
      modifies states
      ensures entropy.None? ==> r == Err(NoEntropy) && states.entries == old(states.entries)
      ensures entropy.Some? ==>
        r == Ok(entropy.value) && states.entries == old(states.entries)[entropy.value := now + 300_000_000_000]
    {
      r := states.Generate(entropy, now);
    }

    // The state is spent whatever comes of the login. Nothing else happens unless it
    // was valid and the provider identified someone; then the identity is resolved
    // and a session issued to whom it resolves to.
    method Callback(pool: Pool, state: string, provider: Provider, now: Time, envs: nat -> Env, inputs: nat -> Input)
      returns (r: Result<TokenResponse>)
      requires Wired(pool)
      modifies states, pool
      ensures states.entries == Take(old(states.entries), state, now).0
      ensures var rq := Admitted(Take(old(states.entries), state, now).1, state, provider);
        (pool.db, r) == if rq.TurnedAway? then (old(pool.db), Err(rq.error))
                        else TokenRuns.ResolveAndIssue(Server(), old(pool.db), provider.pu, envs, inputs)
      ensures
        var valid := state in old(states.entries) && now < old(states.entries)[state];
        && (!valid ==> r == Err(BadState))
        && (valid && provider.Declined? ==> r == Err(ProviderRefused))
        && (valid && provider.Identified? && provider.pu.email == "" ==> r == Err(NoEmail))
        && (!valid || provider.Declined? || provider.pu.email == "" ==> pool.db == old(pool.db))
    {
      var valid := states.Validate(state, now);
      if !valid {
        return Err(BadState);
      }
      if provider.Declined? {
        return Err(ProviderRefused);
      }
      if provider.pu.email == "" {
        return Err(NoEmail);
      }
      var user := resolver.ResolveOrCreateUser(pool, provider.pu, envs);
      if user.Err? {
        return Err(user.error);
      }
      r := issuer.IssueSessionToken(pool, user.value.id, user.value.role, inputs, 0);
    }
  }

  // --- A request that nothing interleaves with ---

  function Shift(envs: nat -> Env, i: nat): nat -> Env {
    (k: nat) => envs(i + k)
  }

  function Left(rq: Request): nat {
    match rq
    case TurnedAway(_) => 0
    case LoggingIn(_, pc) => Rank(pc) + 3
    case LoggedIn(_, _, pc) => IssueRank(pc)
    case Refreshing(pc) => RefreshRank(pc)
  }

  function Answer(rq: Request): Result<TokenResponse>
    requires Over(rq) && (rq.LoggingIn? ==> rq.login.result.Err?)
  {
    match rq
    case TurnedAway(e) => Err(e)
    case LoggingIn(_, pc) => Err(pc.result.error)
    case LoggedIn(_, _, pc) => pc.result
    case Refreshing(pc) => RefreshResult(pc)
  }

  // A login holds a result only if it failed.
  predicate Pending(rq: Request) {
    rq.LoggingIn? && rq.login.Done? ==> rq.login.result.Err?
  }

  lemma StepFalls(srv: TokenRuns.Server, db: Db, rq: Request, envs: nat -> Env, now: Time, entropy: Option<string>)
    requires !Over(rq)
    ensures var rq' := Step(srv, db, rq, envs, now, entropy).1; Left(rq') < Left(rq) && Pending(rq')
  {
    hide Constraints, Transact, UpsertLinkCall, UpdateUserCall, EmailAnswer, InsertTokenCall, DeleteTokensOfCall;
  }

  // The machine's steps of one request in a row: the login's calls meet envs, what
  // follows meets inputs.
  function Serve(srv: TokenRuns.Server, db: Db, rq: Request, envs: nat -> Env, inputs: nat -> Input, i: nat, j: nat)
    : (Db, Result<TokenResponse>)
    requires Pending(rq)
    decreases Left(rq)
  {
    if Over(rq) then (db, Answer(rq))
    else if rq.LoggingIn? then
      hide Step;
      StepFalls(srv, db, rq, Shift(envs, i), 0, None);
      var (db', rq') := Step(srv, db, rq, Shift(envs, i), 0, None);
      Serve(srv, db', rq', envs, inputs, i + 1, j)
    else
      hide Step;
      StepFalls(srv, db, rq, (k: nat) => inputs(j).env, inputs(j).now, inputs(j).entropy);
      var (db', rq') := Step(srv, db, rq, (k: nat) => inputs(j).env, inputs(j).now, inputs(j).entropy);
      Serve(srv, db', rq', envs, inputs, i, j + 1)
  }

  lemma {:induction false} ShiftedBody<T>(body: Body<T>, limit: nat, db: Db, envs: nat -> Env, i: nat, a: nat)
    ensures var x, y := RunDirect(body, limit, db, Shift(envs, i), a), RunDirect(body, limit, db, envs, i + a);
      x.0 == y.0 && x.1 == y.1 && x.2 + i == y.2
    decreases limit
  {
    hide Exec;
    if body.Query? && limit > 0 {
      var after := Exec(db, body.statement, envs(i + a));
      ShiftedBody(body.next(after.1), limit - 1, after.0, envs, i, a + 1);
    }
  }

  lemma ShiftedStep(cfg: Config, db: Db, pc: LoginPc, envs: nat -> Env, i: nat)
    ensures LoginStep(cfg, db, pc, Shift(envs, i), 0) == LoginStep(cfg, db, pc, envs, i)
  {
    hide Constraints, RunDirect, CreateBody;
    if pc.CreateUser? {
      ShiftedBody(CreateBody(cfg.bootstrap, pc.pu), CREATE_LIMIT, db, envs, i, 1);
    }
  }

  lemma {:induction false} ServeIssues(srv: TokenRuns.Server, db: Db, grant: string, user: User, pc: IssuePc,
                                       envs: nat -> Env, inputs: nat -> Input, i: nat, j: nat)
    ensures Serve(srv, db, LoggedIn(grant, user, pc), envs, inputs, i, j) == RunIssue(srv.secret, db, pc, inputs, j)
    decreases IssueRank(pc)
  {
    hide Constraints, InsertTokenCall;
    if !pc.Issued? {
      assert Input(inputs(j).now, inputs(j).env, inputs(j).entropy) == inputs(j);
      var (db', pc') := IssueStep(srv.secret, db, pc, inputs(j));
      ServeIssues(srv, db', grant, user, pc', envs, inputs, i, j + 1);
    }
  }

  // A login that goes on from pc, and the session it may lead to.
  function LoginThenIssue(srv: TokenRuns.Server, db: Db, pc: LoginPc, envs: nat -> Env, inputs: nat -> Input, i: nat)
    : (Db, Result<TokenResponse>)
  {
    var (db1, user) := RunLogin(srv.cfg, db, pc, envs, i);
    match user
    case Err(e) => (db1, Err(e))
    case Ok(u) => RunIssue(srv.secret, db1, Sign(u.id, u.role), inputs, 0)
  }

  lemma {:induction false} ServeLogsIn(srv: TokenRuns.Server, db: Db, grant: string, pc: LoginPc,
                                       envs: nat -> Env, inputs: nat -> Input, i: nat)
    ensures Serve(srv, db, Resolved(grant, pc), envs, inputs, i, 0) == LoginThenIssue(srv, db, pc, envs, inputs, i)
    decreases Rank(pc)
  {
    hide Constraints, LoginStep, RunIssue, IssueStep;
    if pc.Done? {
      if pc.result.Ok? {
        var u := pc.result.value;
        ServeIssues(srv, db, grant, u, Sign(u.id, u.role), envs, inputs, i, 0);
      }
    } else {
      SequentialLogins.Unrolled(srv.cfg, db, pc, envs, i);
      ShiftedStep(srv.cfg, db, pc, envs, i);
      var (db', pc') := LoginStep(srv.cfg, db, pc, envs, i);
      ServeLogsIn(srv, db', grant, pc', envs, inputs, i + 1);
    }
  }

  // The interleaved machine does nothing the handler does not do: left alone, its
  // request ends as the callback does.
  lemma CallbackAlone(srv: TokenRuns.Server, db: Db, state: string, pu: ProviderUser, envs: nat -> Env,
                      inputs: nat -> Input)
    ensures Serve(srv, db, Admitted(true, state, Identified(pu)), envs, inputs, 0, 0) ==
      TokenRuns.ResolveAndIssue(srv, db, pu, envs, inputs)
  {
    hide Serve, RunLogin, RunIssue;
    ServeLogsIn(srv, db, state, Start(pu), envs, inputs, 0);
  }

  // And a refresh ends as RefreshSession does.
  lemma {:induction false} RefreshAlone(srv: TokenRuns.Server, db: Db, pc: RefreshPc, envs: nat -> Env,
                                        inputs: nat -> Input, i: nat, j: nat)
    ensures Serve(srv, db, Refreshing(pc), envs, inputs, i, j) == RunRefresh(srv.secret, db, pc, inputs, j)
    decreases RefreshRank(pc)
  {
    hide Constraints, InsertTokenCall, SelectTokenCall, SelectUserCall, DeleteTokensOfCall;
    if !RefreshOver(pc) {
      assert Input(inputs(j).now, inputs(j).env, inputs(j).entropy) == inputs(j);
      var (db', pc') := RefreshStep(srv.secret, db, pc, inputs(j));
      RefreshAlone(srv, db', pc', envs, inputs, i, j + 1);
    }
  }
}

// What the resolver makes of a lookup that finds nothing: its nil tests work with
// repositories that return nil, and not with the Postgres ones.
module Misses {
  import opened Domain
  import opened Tables
  import opened Transactions
  import opened Resolver
  import opened Sessions
  import opened Service
  import opened Authority
  import SequentialLogins
  import TokenRuns

  // Every call reaches the database, which draws a new UUID each time.
  ghost predicate Healthy(db: Tables, envs: nat -> Env) {
    forall k {:trigger envs(k)} :: !envs(k).down && V4(envs(k).uuid) !in db.users
  }

  // A login at pc that nothing interrupts is going to succeed.
  ghost predicate Winning(cfg: Config, db: Tables, pc: LoginPc) {
    match pc
    case FindLink(pu) => pu.key in db.links || cfg.miss.NilOnMiss?
    case LoadOwner(pu, account) => pu.key in db.links && account == db.links[pu.key]
    case Retoken(_, account, user) => account.key in db.links && user.id in db.users && db.users[user.id] == user
    case Upgrade(_, user, _) => user.id in db.users && db.users[user.id].email == user.email
    case FindEmail(_) => cfg.miss.NilOnMiss?
    case AddLink(_, user) => user.id in db.users
    case CreateUser(pu) => forall id :: id in db.users ==> db.users[id].email != pu.email
    case Done(r) => r.Ok?
  }

  lemma InsertWins(pu: ProviderUser, role: UserRole, limit: nat, db: Db, envs: nat -> Env, i: nat)
    requires limit >= 2 && Healthy(db, envs) && forall id :: id in db.users ==> db.users[id].email != pu.email
    ensures var (_, r, _) := RunDirect(InsertBody(pu, role), limit, db, envs, i); r.Ok? && r.value.role == role
  {
    hide Constraints, UpsertLinkCall, SelectUserCall, SelectLinkCall;
    var body, u := InsertBody(pu, role), User(NilUuid, pu.email, pu.name, role, Active, None);
    var (db1, created) := InsertUserCall(db, u, envs(i));
    assert created.UserRow? && created.user.id in db1.users && created.user.role == role;
    assert RunDirect(body, limit, db, envs, i) == RunDirect(body.next(created), limit - 1, db1, envs, i + 1);
    LinkWins(pu, role, created.user, limit - 1, db1, envs, i + 1);
  }

  lemma LinkWins(pu: ProviderUser, role: UserRole, u: User, limit: nat, db: Db, envs: nat -> Env, i: nat)
    requires limit >= 1 && u.id in db.users && !envs(i).down
    ensures RunDirect(InsertBody(pu, role).next(UserRow(u)), limit, db, envs, i).1 == Ok(u)
  {
    hide Constraints;
    var rest, a := InsertBody(pu, role).next(UserRow(u)), BuildOAuthAccount(u.id, pu);
    var (db', linked) := UpsertLinkCall(db, a, envs(i));
    assert RunDirect(rest, limit, db, envs, i) == RunDirect(rest.next(linked), limit - 1, db', envs, i + 1);
  }

  // Under the fallback, the count comes first.
  lemma CountedWins(b: BootstrapConfig, pu: ProviderUser, db: Db, envs: nat -> Env, i: nat)
    requires Healthy(db, envs) && forall id :: id in db.users ==> db.users[id].email != pu.email
    requires !IsBootstrapAdmin(b, pu.email) && b.devFallback
    ensures var (_, r, _) := RunDirect(CreateBody(b, pu), CREATE_LIMIT, db, envs, i);
      r.Ok? && r.value.role == if |db.users| == 0 then PlatformAdmin else PlatformMember
  {
    hide Constraints, InsertBody, InsertUserCall, UpsertLinkCall;
    var body := CreateBody(b, pu);
    var (_, counted) := Exec(db, CountUsers, envs(i));
    var role := if |db.users| == 0 then PlatformAdmin else PlatformMember;
    assert body.next(counted) == InsertBody(pu, role);
    assert RunDirect(body, CREATE_LIMIT, db, envs, i) == RunDirect(InsertBody(pu, role), 2, db, envs, i + 1);
    InsertWins(pu, role, 2, db, envs, i + 1);
  }

  lemma CreateBodyWins(b: BootstrapConfig, pu: ProviderUser, db: Db, envs: nat -> Env, i: nat)
    requires Healthy(db, envs) && forall id :: id in db.users ==> db.users[id].email != pu.email
    ensures var (_, r, _) := RunDirect(CreateBody(b, pu), CREATE_LIMIT, db, envs, i);
      r.Ok? && r.value.role == RoleForNewUser(b, pu.email, |db.users|)
  {
    hide Constraints, RunDirect;
    if IsBootstrapAdmin(b, pu.email) || !b.devFallback {
      var role := if IsBootstrapAdmin(b, pu.email) then PlatformAdmin else PlatformMember;
      InsertWins(pu, role, CREATE_LIMIT, db, envs, i);
    } else {
      CountedWins(b, pu, db, envs, i);
    }
  }

  lemma CreateWins(b: BootstrapConfig, pu: ProviderUser, db: Db, envs: nat -> Env, i: nat)
    requires Healthy(db, envs) && forall id :: id in db.users ==> db.users[id].email != pu.email
    ensures var (_, r) := Transact(CreateBody(b, pu), CREATE_LIMIT, db, envs, i);
      r.Ok? && r.value.role == RoleForNewUser(b, pu.email, |db.users|)
  {
    hide Constraints, CreateBody, RoleForNewUser;
    CreateBodyWins(b, pu, db, envs, i + 1);
  }

  lemma ReadWins(cfg: Config, db: Db, pc: LoginPc, envs: nat -> Env, i: nat)
    requires Winning(cfg, db, pc) && Healthy(db, envs) && (pc.FindLink? || pc.LoadOwner? || pc.FindEmail?)
    ensures var (db', pc') := LoginStep(cfg, db, pc, envs, i); Winning(cfg, db', pc') && db' == db
  {
  }

  lemma UpsertWins(cfg: Config, db: Db, pc: LoginPc, envs: nat -> Env, i: nat)
    requires Winning(cfg, db, pc) && !envs(i).down && (pc.Retoken? || pc.AddLink?)
    ensures var (db', pc') := LoginStep(cfg, db, pc, envs, i); Winning(cfg, db', pc')
  {
    hide Constraints, UpsertLinkCall;
    var a := if pc.Retoken? then WithTokens(pc.account, pc.pu) else BuildOAuthAccount(pc.user.id, pc.pu);
    UpsertAnswers(db, a, envs(i));
  }

  lemma UpsertAnswers(db: Db, a: OAuthAccount, env: Env)
    requires !env.down && (a.key in db.links || a.userId in db.users)
    ensures var (db', reply) := UpsertLinkCall(db, a, env); reply.LinkRow? && db'.users == db.users
  {
    hide Constraints;
  }

  lemma UpgradeWins(cfg: Config, db: Db, pc: LoginPc, envs: nat -> Env, i: nat)
    requires Winning(cfg, db, pc) && !envs(i).down && pc.Upgrade?
    ensures var (db', pc') := LoginStep(cfg, db, pc, envs, i); Winning(cfg, db', pc')
  {
    hide UpsertLinkCall;
    assert EmailOwner(db.users, pc.user.email) == Some(pc.user.id);
  }

  lemma {:induction false} RunWins(cfg: Config, db: Db, pc: LoginPc, envs: nat -> Env, i: nat)
    requires Winning(cfg, db, pc)
    requires pc.Done? || pc.Retoken? || pc.Upgrade? || pc.AddLink? || Healthy(db, envs)
    requires forall k :: !envs(k).down
    ensures RunLogin(cfg, db, pc, envs, i).1.Ok?
    decreases Rank(pc)
  {
    hide Constraints, LoginStep, Winning, Healthy;
    if !pc.Done? {
      SequentialLogins.Unrolled(cfg, db, pc, envs, i);
      var (db', pc') := LoginStep(cfg, db, pc, envs, i);
      StepWins(cfg, db, pc, envs, i);
      RunWins(cfg, db', pc', envs, i + 1);
    } else {
      assert pc.result.Ok? by { DoneWins(cfg, db, pc); }
    }
  }

  lemma DoneWins(cfg: Config, db: Db, pc: LoginPc)
    requires Winning(cfg, db, pc) && pc.Done?
    ensures pc.result.Ok?
  {
  }

  lemma StepWins(cfg: Config, db: Db, pc: LoginPc, envs: nat -> Env, i: nat)
    requires Winning(cfg, db, pc) && !pc.Done?
    requires pc.Retoken? || pc.Upgrade? || pc.AddLink? || Healthy(db, envs)
    requires forall k :: !envs(k).down
    ensures var (db', pc') := LoginStep(cfg, db, pc, envs, i);
      && Winning(cfg, db', pc')
      && (pc'.Done? || pc'.Retoken? || pc'.Upgrade? || pc'.AddLink? || Healthy(db', envs))
  {
    hide Constraints, Healthy, Winning, SelectLinkCall, SelectUserCall, SelectUserByEmailCall, UpsertLinkCall,
      UpdateUserCall, Transact;
    match pc
    case Retoken(_, _, _) => UpsertWins(cfg, db, pc, envs, i);
    case AddLink(_, _) => UpsertWins(cfg, db, pc, envs, i);
    case Upgrade(_, _, _) => UpgradeWins(cfg, db, pc, envs, i);
    case CreateUser(pu) => CreateStepWins(cfg, db, pc, envs, i);
    case _ => ReadWins(cfg, db, pc, envs, i);
  }

  lemma CreateStepWins(cfg: Config, db: Db, pc: LoginPc, envs: nat -> Env, i: nat)
    requires Winning(cfg, db, pc) && Healthy(db, envs) && pc.CreateUser?
    ensures var (db', pc') := LoginStep(cfg, db, pc, envs, i); Winning(cfg, db', pc') && pc'.Done?
  {
    hide Constraints, Transact;
    CreateWins(cfg.bootstrap, pc.pu, db, envs, i);
  }

  // With the database up, a login succeeds exactly when the provider gave an email
  // and either the identity is linked already or a miss is reported as nil. The
  // Postgres repositories report it otherwise: with them, no new identity gets in,
  // but is told that its record was not found.
  lemma LoginSucceedsExactly(cfg: Config, db: Db, pu: ProviderUser, envs: nat -> Env)
    requires Healthy(db, envs)
    ensures RunLogin(cfg, db, Start(pu), envs, 0).1.Ok? <==>
      pu.email != "" && (pu.key in db.links || cfg.miss.NilOnMiss?)
    ensures pu.email == "" ==> RunLogin(cfg, db, Start(pu), envs, 0) == (db, Err(NoEmail))
    ensures pu.email != "" && pu.key !in db.links && cfg.miss.RecordOnMiss? ==>
      RunLogin(cfg, db, Start(pu), envs, 0) == (db, Err(NotFound))
  {
    if pu.email != "" {
      if pu.key in db.links || cfg.miss.NilOnMiss? {
        hide RunLogin;
        RunWins(cfg, db, FindLink(pu), envs, 0);
      } else {
        StrangerLoses(cfg, db, pu, envs);
      }
    }
  }

  lemma StrangerLoses(cfg: Config, db: Db, pu: ProviderUser, envs: nat -> Env)
    requires cfg.miss.RecordOnMiss? && pu.key !in db.links && pu.email != "" && Healthy(db, envs)
    ensures RunLogin(cfg, db, Start(pu), envs, 0) == (db, Err(NotFound))
  {
    hide UniqueEmails, UpsertLinkCall, UpdateUserCall;
    SequentialLogins.Unrolled(cfg, db, FindLink(pu), envs, 0);
    assert LoginStep(cfg, db, FindLink(pu), envs, 0).1 == LoadOwner(pu, ZERO_LINK);
    SequentialLogins.Unrolled(cfg, db, LoadOwner(pu, ZERO_LINK), envs, 1);
  }

  // --- In every interleaving ---

  // No user, and no request that could make one.
  ghost predicate Barren(rq: Request) {
    match rq
    case TurnedAway(_) => true
    case LoggingIn(_, pc) => pc.FindLink? || pc.LoadOwner? || (pc.Done? && pc.result.Err?)
    case LoggedIn(_, _, _) => false
    case Refreshing(pc) => pc.Find? || pc.Refused?
  }

  ghost predicate Deserted(s: State) {
    && s.db.users == map[]
    && forall tid {:trigger s.requests[tid]} :: tid in s.requests ==> Barren(s.requests[tid])
  }

  lemma StepBarren(srv: TokenRuns.Server, db: Db, rq: Request, envs: nat -> Env, now: Time, entropy: Option<string>)
    requires srv.cfg.miss.RecordOnMiss? && db.users == map[] && Barren(rq)
    ensures var (db', rq') := Step(srv, db, rq, envs, now, entropy); db' == db && Barren(rq')
  {
    hide UniqueEmails, UpsertLinkCall, UpdateUserCall, IssueStep;
    NoUsersNoRows(db);
  }

  lemma NextDeserted(srv: TokenRuns.Server, s: State, a: Action)
    requires srv.cfg.miss.RecordOnMiss? && Deserted(s) && Coherent(srv, s)
    ensures Deserted(Next(srv, s, a))
  {
    hide Constraints, Step, Coherent, Kill, DeleteTokensOfCall, MarkTokenUsedCall, DeleteTokensBeforeCall,
      SoftDeleteUserCall;
    match a
    case Advance(tid, envs, entropy) =>
      if tid in s.requests {
        StepBarren(srv, s.db, s.requests[tid], envs, s.now, entropy);
      }
    case Revoke(u, env) => TokenRuns.RevokeEffect(s.db, u, env);
    case MarkUsed(hash, env) => TokenRuns.MarkEffect(s.db, hash, s.now, env);
    case Purge(age, env) => TokenRuns.PurgeEffect(s.db, s.now - age, env);
    case SoftDelete(id, env) => SequentialLogins.SoftDeleteKeeps(s.db, id, s.now, env);
    case _ =>
  }

  // When a miss comes as a non-nil record, no interleaving of any requests ever
  // creates a user, a link or a session.
  lemma {:induction false} PostgresMissKeepsEveryoneOut(srv: TokenRuns.Server, t0: Time, actions: seq<Action>)
    requires srv.cfg.miss.RecordOnMiss?
    ensures var s := Run(srv, t0, actions); Deserted(s) && s.db.links == map[] && s.db.tokens == map[]
  {
    hide Next, Coherent;
    if actions != [] {
      var before := Run(srv, t0, actions[..|actions| - 1]);
      PostgresMissKeepsEveryoneOut(srv, t0, actions[..|actions| - 1]);
      RunCoherent(srv, t0, actions[..|actions| - 1]);
      NextDeserted(srv, before, actions[|actions| - 1]);
    }
    NoUsersNoRows(Run(srv, t0, actions).db);
  }

  lemma NoUsersNoRows(db: Db)
    ensures db.users == map[] ==> db.links == map[] && db.tokens == map[]
  {
    assert forall h :: h in db.tokens ==> db.tokens[h].userId in db.users;
    assert forall k :: k in db.links ==> db.links[k].userId in db.users;
  }
}

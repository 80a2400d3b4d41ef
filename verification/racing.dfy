// Logins that race with one email, next to any other logins.
module Racing {
  import opened Domain
  import opened Tables
  import opened Transactions
  import opened Resolver
  import opened Logins
  import opened Sessions
  import opened Service
  import opened Authority
  import SequentialLogins
  import StateStores
  import TokenRuns

  // --- Who reports which email ---

  predicate Identifies(a: Action) {
    a.Callback? && a.provider.Identified?
  }

  // An identity that ever reports this email always does. Other identities may
  // report whatever they like, and change their minds.
  ghost predicate Loyal(actions: seq<Action>, email: string) {
    forall a, b :: a in actions && b in actions && Identifies(a) && Identifies(b)
      && a.provider.pu.email == email && b.provider.pu.key == a.provider.pu.key
      ==> b.provider.pu.email == email
  }

  // The identities that report this email are these.
  ghost predicate Reporters(actions: seq<Action>, email: string, keys: set<LinkKey>) {
    forall a :: a in actions && Identifies(a) ==> (a.provider.pu.key in keys <==> a.provider.pu.email == email)
  }

  ghost function ReportersOf(actions: seq<Action>, email: string): set<LinkKey> {
    set a | a in actions && Identifies(a) && a.provider.pu.email == email :: a.provider.pu.key
  }

  lemma LoyalReporters(actions: seq<Action>, email: string)
    requires Loyal(actions, email)
    ensures Reporters(actions, email, ReportersOf(actions, email))
  {
  }

  // --- What every interleaving keeps about the logins with this email ---

  // The identities that report the email are linked to rows with it.
  ghost predicate Homed(db: Tables, email: string, keys: set<LinkKey>) {
    forall k {:trigger db.links[k]} :: k in db.links && k in keys ==>
      db.links[k].userId in db.users && db.users[db.links[k].userId].email == email
  }

  // A record a login for pu holds has the email, if pu reports it.
  predicate Apt(email: string, pu: ProviderUser, user: User) {
    pu.email == email ==> user.email == email
  }

  // What a login of pu carries from step to step.
  ghost predicate Racer(cfg: Config, db: Tables, email: string, pu: ProviderUser, pc: LoginPc) {
    match pc
    case FindLink(p) => p == pu
    case LoadOwner(p, account) =>
      && p == pu && (cfg.miss.NilOnMiss? ==> account.userId.V4?)
      && (account.userId.V4? ==>
            && account.userId in db.users && account.key == pu.key && pu.key in db.links
            && (pu.email == email ==> db.users[account.userId].email == email))
    case Retoken(p, account, user) => p == pu && account.key == pu.key && pu.key in db.links && Apt(email, pu, user)
    case Upgrade(p, user, _) => p == pu && Apt(email, pu, user)
    case FindEmail(p) => p == pu
    case AddLink(p, user) => p == pu && Apt(email, pu, user)
    case CreateUser(p) => p == pu
    case Done(r) => r.Ok? ==> Apt(email, pu, r.value)
  }

  // pu reports the email exactly if its identity is among the reporters.
  predicate Fits(email: string, keys: set<LinkKey>, pu: ProviderUser) {
    pu.key in keys <==> pu.email == email
  }

  lemma RacerStays(cfg: Config, a: Tables, b: Tables, email: string, pu: ProviderUser, pc: LoginPc)
    requires Racer(cfg, a, email, pu, pc) && Grows(a, b)
    ensures Racer(cfg, b, email, pu, pc)
  {
  }

  lemma HomedStays(b: BootstrapConfig, db: Tables, db': Tables, email: string, keys: set<LinkKey>)
    requires Homed(db, email, keys) && Grows(db, db') && db'.links == db.links
    ensures Homed(db', email, keys)
  {
  }

  // What a step of a login of pu keeps.
  ghost predicate StepRaces(cfg: Config, email: string, keys: set<LinkKey>, pu: ProviderUser, after: (Db, LoginPc)) {
    Homed(after.0, email, keys) && Racer(cfg, after.0, email, pu, after.1)
  }

  lemma LookupRaces(cfg: Config, db: Db, email: string, keys: set<LinkKey>, pu: ProviderUser, pc: LoginPc,
                    envs: nat -> Env)
    requires Homed(db, email, keys) && Racer(cfg, db, email, pu, pc) && Fits(email, keys, pu)
    requires LocalOk(cfg, db, pc) && (pc.FindLink? || pc.LoadOwner? || pc.FindEmail?)
    ensures StepRaces(cfg, email, keys, pu, LoginStep(cfg, db, pc, envs, 0))
  {
    hide UniqueEmails;
  }

  lemma LinkedHomes(db: Db, db': Db, email: string, keys: set<LinkKey>, pu: ProviderUser, account: OAuthAccount)
    requires Homed(db, email, keys) && Fits(email, keys, pu) && Grows(db, db')
    requires account.key == pu.key && db'.links == Linked(db.links, account)
    requires pu.email == email && pu.key !in db.links ==>
      account.userId in db'.users && db'.users[account.userId].email == email
    ensures Homed(db', email, keys)
  {
    hide Constraints;
  }

  lemma UpsertRaces(cfg: Config, db: Db, email: string, keys: set<LinkKey>, pu: ProviderUser, pc: LoginPc,
                    envs: nat -> Env)
    requires Homed(db, email, keys) && Racer(cfg, db, email, pu, pc) && Fits(email, keys, pu)
    requires LocalOk(cfg, db, pc) && (pc.Retoken? || pc.AddLink?)
    ensures StepRaces(cfg, email, keys, pu, LoginStep(cfg, db, pc, envs, 0))
  {
    hide UpsertLinkCall, Constraints, Homed, Linked, Grows;
    var a := if pc.Retoken? then WithTokens(pc.account, pu) else BuildOAuthAccount(pc.user.id, pu);
    UpsertEffect(db, a, envs(0));
    var db' := LoginStep(cfg, db, pc, envs, 0).0;
    if UpsertLinkCall(db, a, envs(0)).1.LinkRow? {
      LinkedGrows(db, db', a);
      LinkedHomes(db, db', email, keys, pu, a);
    }
  }

  lemma PromotionRaces(cfg: Config, db: Db, email: string, keys: set<LinkKey>, pu: ProviderUser, pc: LoginPc,
                       envs: nat -> Env)
    requires Homed(db, email, keys) && Racer(cfg, db, email, pu, pc) && LocalOk(cfg, db, pc) && pc.Upgrade?
    ensures StepRaces(cfg, email, keys, pu, LoginStep(cfg, db, pc, envs, 0))
  {
    hide UpdateUserCall, Constraints, Homed, Grows;
    UpdateEffect(cfg.bootstrap, db, pc.user, envs(0));
    HomedStays(cfg.bootstrap, db, LoginStep(cfg, db, pc, envs, 0).0, email, keys);
  }

  lemma CreateRaces(cfg: Config, db: Db, email: string, keys: set<LinkKey>, pu: ProviderUser, pc: LoginPc,
                    envs: nat -> Env)
    requires Homed(db, email, keys) && Racer(cfg, db, email, pu, pc) && Fits(email, keys, pu)
    requires LocalOk(cfg, db, pc) && pc.CreateUser?
    ensures StepRaces(cfg, email, keys, pu, LoginStep(cfg, db, pc, envs, 0))
  {
    hide Constraints, Transact, Homed, Linked, Grows, RowAdded;
    CreateOutcome(cfg.bootstrap, pu, db, envs, 0);
    var (db', pc') := LoginStep(cfg, db, pc, envs, 0);
    if pc'.result.Ok? {
      var u := pc'.result.value;
      AddedGrows(cfg.bootstrap, db, db', u, BuildOAuthAccount(u.id, pu));
      LinkedHomes(db, db', email, keys, pu, BuildOAuthAccount(u.id, pu));
    }
  }

  lemma LoginRaces(cfg: Config, db: Db, email: string, keys: set<LinkKey>, pu: ProviderUser, pc: LoginPc,
                   envs: nat -> Env)
    requires Homed(db, email, keys) && Racer(cfg, db, email, pu, pc) && Fits(email, keys, pu) && LocalOk(cfg, db, pc)
    ensures StepRaces(cfg, email, keys, pu, LoginStep(cfg, db, pc, envs, 0))
  {
    hide LoginStep, Homed, LocalOk, Constraints, StepRaces;
    match pc
    case CreateUser(_) => CreateRaces(cfg, db, email, keys, pu, pc, envs);
    case Retoken(_, _, _) => UpsertRaces(cfg, db, email, keys, pu, pc, envs);
    case AddLink(_, _) => UpsertRaces(cfg, db, email, keys, pu, pc, envs);
    case Upgrade(_, _, _) => PromotionRaces(cfg, db, email, keys, pu, pc, envs);
    case Done(_) => DoneRaces(cfg, db, email, keys, pu, pc, envs);
    case _ => LookupRaces(cfg, db, email, keys, pu, pc, envs);
  }

  lemma DoneRaces(cfg: Config, db: Db, email: string, keys: set<LinkKey>, pu: ProviderUser, pc: LoginPc,
                  envs: nat -> Env)
    requires Homed(db, email, keys) && Racer(cfg, db, email, pu, pc) && pc.Done?
    ensures StepRaces(cfg, email, keys, pu, LoginStep(cfg, db, pc, envs, 0))
  {
  }

  // --- The machine ---

  ghost predicate RequestRaces(cfg: Config, db: Tables, email: string, came: map<nat, ProviderUser>, tid: nat,
                               rq: Request) {
    match rq
    case LoggingIn(_, pc) => tid in came && Racer(cfg, db, email, came[tid], pc)
    case LoggedIn(_, user, _) => tid in came && Apt(email, came[tid], user)
    case _ => true
  }

  ghost predicate Race(cfg: Config, s: State, email: string, keys: set<LinkKey>) {
    && Homed(s.db, email, keys)
    && (forall tid {:trigger s.seen.came[tid]} :: tid in s.seen.came ==> Fits(email, keys, s.seen.came[tid]))
    && forall tid {:trigger s.requests[tid]} :: tid in s.requests ==>
         RequestRaces(cfg, s.db, email, s.seen.came, tid, s.requests[tid])
  }

  lemma RequestRacesStays(cfg: Config, a: Tables, b: Tables, email: string, came: map<nat, ProviderUser>,
                          came': map<nat, ProviderUser>, tid: nat, rq: Request)
    requires RequestRaces(cfg, a, email, came, tid, rq) && Grows(a, b)
    requires tid in came ==> tid in came' && came'[tid] == came[tid]
    ensures RequestRaces(cfg, b, email, came', tid, rq)
  {
    if rq.LoggingIn? {
      RacerStays(cfg, a, b, email, came[tid], rq.login);
    }
  }

  // The request of tid apart, an action leaves the others' logins where they were.
  lemma OthersRace(cfg: Config, s: State, s': State, email: string, keys: set<LinkKey>, tid: nat)
    requires Race(cfg, s, email, keys) && Grows(s.db, s'.db) && Homed(s'.db, email, keys)
    requires forall t :: t in s'.requests && t != tid ==> t in s.requests && s'.requests[t] == s.requests[t]
    requires forall t :: t in s.seen.came && t != tid ==> t in s'.seen.came && s'.seen.came[t] == s.seen.came[t]
    requires forall t :: t in s'.seen.came ==> Fits(email, keys, s'.seen.came[t])
    requires tid in s'.requests ==> RequestRaces(cfg, s'.db, email, s'.seen.came, tid, s'.requests[tid])
    ensures Race(cfg, s', email, keys)
  {
    hide Grows, Homed, RequestRaces, Fits, Constraints;
    forall t | t in s'.requests ensures RequestRaces(cfg, s'.db, email, s'.seen.came, t, s'.requests[t]) {
      if t != tid {
        RequestRacesStays(cfg, s.db, s'.db, email, s.seen.came, s'.seen.came, t, s.requests[t]);
      }
    }
  }

  // An action that touches no user, link or login.
  lemma QuietRace(srv: TokenRuns.Server, s: State, s': State, email: string, keys: set<LinkKey>)
    requires Race(srv.cfg, s, email, keys) && Grows(s.db, s'.db) && s'.db.links == s.db.links
    requires s'.requests == s.requests && s'.seen.came == s.seen.came
    ensures Race(srv.cfg, s', email, keys)
  {
    hide Grows, Homed, RequestRaces, Fits, Constraints;
    HomedStays(srv.cfg.bootstrap, s.db, s'.db, email, keys);
    forall t | t in s'.requests ensures RequestRaces(srv.cfg, s'.db, email, s'.seen.came, t, s'.requests[t]) {
      RequestRacesStays(srv.cfg, s.db, s'.db, email, s.seen.came, s'.seen.came, t, s.requests[t]);
    }
  }

  lemma AdvanceRaces(srv: TokenRuns.Server, s: State, tid: nat, envs: nat -> Env, entropy: Option<string>,
                     email: string, keys: set<LinkKey>)
    requires Coherent(srv, s) && Race(srv.cfg, s, email, keys)
    ensures Race(srv.cfg, DoAdvance(srv, s, tid, envs, entropy), email, keys)
  {
    hide Grows, Racer, Homed, Constraints, LoginStep, IssueStep, RefreshStep, UsersStep, DrawsOk, Extends, RequestOk,
      Fits;
    AdvanceFair(srv, s, tid, envs, entropy);
    var s' := DoAdvance(srv, s, tid, envs, entropy);
    if tid !in s.requests || Repeats(s, entropy) {
      QuietRace(srv, s, s', email, keys);
    } else {
      var rq := s.requests[tid];
      assert RequestOk(srv, s.db, s.log.draws, tid, rq);
      StepKeepsRace(srv, s, tid, rq, envs, entropy, email, keys);
      OthersRace(srv.cfg, s, s', email, keys, tid);
    }
  }

  lemma StepKeepsRace(srv: TokenRuns.Server, s: State, tid: nat, rq: Request, envs: nat -> Env, entropy: Option<string>,
                      email: string, keys: set<LinkKey>)
    requires Race(srv.cfg, s, email, keys) && tid in s.requests && rq == s.requests[tid]
    requires RequestOk(srv, s.db, s.log.draws, tid, rq)
    ensures var (db', rq') := Step(srv, s.db, rq, envs, s.now, entropy);
      Homed(db', email, keys) && RequestRaces(srv.cfg, db', email, s.seen.came, tid, rq')
  {
    hide Homed, LoginStep, IssueStep, RefreshStep, LocalOk, Constraints, Racer, Apt;
    match rq
    case LoggingIn(_, pc) =>
      LoginRaces(srv.cfg, s.db, email, keys, s.seen.came[tid], pc, envs);
      ResolvedRaces(srv.cfg, LoginStep(srv.cfg, s.db, pc, envs, 0).0, email, s.seen.came[tid],
                    LoginStep(srv.cfg, s.db, pc, envs, 0).1);
    case LoggedIn(_, _, pc) =>
      var input := Input(s.now, envs(0), entropy);
      IssueKeepsUsers(srv.secret, s.db, pc, input);
      SameUsersGrow(srv.cfg.bootstrap, s.db, IssueStep(srv.secret, s.db, pc, input).0);
      HomedStays(srv.cfg.bootstrap, s.db, IssueStep(srv.secret, s.db, pc, input).0, email, keys);
    case Refreshing(pc) =>
      var input := Input(s.now, envs(0), entropy);
      RefreshKeepsUsers(srv.secret, s.db, pc, input);
      SameUsersGrow(srv.cfg.bootstrap, s.db, RefreshStep(srv.secret, s.db, pc, input).0);
      HomedStays(srv.cfg.bootstrap, s.db, RefreshStep(srv.secret, s.db, pc, input).0, email, keys);
    case TurnedAway(_) =>
  }

  lemma ResolvedRaces(cfg: Config, db: Tables, email: string, pu: ProviderUser, pc: LoginPc)
    requires Racer(cfg, db, email, pu, pc)
    ensures pc.Done? && pc.result.Ok? ==> Apt(email, pu, pc.result.value)
  {
  }

  lemma RefreshKeepsUsers(secret: string, db: Db, pc: RefreshPc, input: Input)
    ensures var db' := RefreshStep(secret, db, pc, input).0; db'.users == db.users && db'.links == db.links
  {
    hide Constraints, TokensOf;
    if pc.Reissue? {
      IssueKeepsUsers(secret, db, pc.pc, input);
    }
  }

  lemma CallbackRaces(srv: TokenRuns.Server, s: State, tid: nat, state: string, provider: Provider,
                      email: string, keys: set<LinkKey>)
    requires Race(srv.cfg, s, email, keys) && (provider.Identified? ==> Fits(email, keys, provider.pu))
    ensures Race(srv.cfg, DoCallback(s, tid, state, provider), email, keys)
  {
    hide Homed, Constraints, StateStores.Take, Fits;
    SameUsersGrow(srv.cfg.bootstrap, s.db, s.db);
    if tid in s.requests {
      QuietRace(srv, s, Idle(s), email, keys);
    } else {
      OthersRace(srv.cfg, s, DoCallback(s, tid, state, provider), email, keys, tid);
    }
  }

  lemma StoreCallRaces(srv: TokenRuns.Server, s: State, a: Action, email: string, keys: set<LinkKey>)
    requires Race(srv.cfg, s, email, keys) && (a.Revoke? || a.MarkUsed? || a.Purge? || a.SoftDelete?)
    ensures Race(srv.cfg, Next(srv, s, a), email, keys)
  {
    hide Grows, Race, Constraints, Kill;
    match a
    case Revoke(u, env) =>
      TokenRuns.RevokeEffect(s.db, u, env);
      SameUsersGrow(srv.cfg.bootstrap, s.db, Next(srv, s, a).db);
      QuietRace(srv, s, Next(srv, s, a), email, keys);
    case MarkUsed(hash, env) =>
      TokenRuns.MarkEffect(s.db, hash, s.now, env);
      SameUsersGrow(srv.cfg.bootstrap, s.db, Next(srv, s, a).db);
      QuietRace(srv, s, Next(srv, s, a), email, keys);
    case Purge(age, env) =>
      TokenRuns.PurgeEffect(s.db, s.now - age, env);
      SameUsersGrow(srv.cfg.bootstrap, s.db, Next(srv, s, a).db);
      QuietRace(srv, s, Next(srv, s, a), email, keys);
    case SoftDelete(id, env) =>
      SequentialLogins.SoftDeleteKeeps(s.db, id, s.now, env);
      QuietRace(srv, s, Next(srv, s, a), email, keys);
  }

  lemma NextRaces(srv: TokenRuns.Server, s: State, a: Action, email: string, keys: set<LinkKey>)
    requires Coherent(srv, s) && Race(srv.cfg, s, email, keys)
    requires Identifies(a) ==> Fits(email, keys, a.provider.pu)
    ensures Race(srv.cfg, Next(srv, s, a), email, keys)
  {
    hide Grows, Homed, Constraints, DoAdvance, DoRevoke, DoCallback, Coherent, Race;
    match a
    case Advance(tid, envs, entropy) => AdvanceRaces(srv, s, tid, envs, entropy, email, keys);
    case Callback(tid, state, provider) => CallbackRaces(srv, s, tid, state, provider, email, keys);
    case AskRefresh(tid, raw) => AskRefreshRaces(srv, s, tid, raw, email, keys);
    case Tick(_) =>
      SameUsersGrow(srv.cfg.bootstrap, s.db, s.db);
      QuietRace(srv, s, Next(srv, s, a), email, keys);
    case Begin(_) =>
      SameUsersGrow(srv.cfg.bootstrap, s.db, s.db);
      QuietRace(srv, s, Next(srv, s, a), email, keys);
    case _ => StoreCallRaces(srv, s, a, email, keys);
  }

  lemma AskRefreshRaces(srv: TokenRuns.Server, s: State, tid: nat, raw: string, email: string, keys: set<LinkKey>)
    requires Race(srv.cfg, s, email, keys)
    ensures Race(srv.cfg, DoAskRefresh(s, tid, raw), email, keys)
  {
    hide Homed, Constraints, Fits;
    SameUsersGrow(srv.cfg.bootstrap, s.db, s.db);
    if tid in s.requests {
      QuietRace(srv, s, Idle(s), email, keys);
    } else {
      OthersRace(srv.cfg, s, DoAskRefresh(s, tid, raw), email, keys, tid);
    }
  }

  lemma {:induction false} RunRaces(srv: TokenRuns.Server, t0: Time, actions: seq<Action>, email: string,
                                    keys: set<LinkKey>)
    requires Reporters(actions, email, keys)
    ensures Race(srv.cfg, Run(srv, t0, actions), email, keys)
  {
    hide Next, Coherent;
    if actions != [] {
      hide Race;
      var before, last := actions[..|actions| - 1], actions[|actions| - 1];
      RunRaces(srv, t0, before, email, keys);
      RunCoherent(srv, t0, before);
      NextRaces(srv, Run(srv, t0, before), last, email, keys);
    }
  }

  // --- How a login with this email can end ---

  // A failure for any reason but an unreachable database means the row is there.
  ghost predicate Answered(db: Tables, email: string, pc: LoginPc) {
    pc.Done? && pc.result.Err? ==>
      pc.result.error == Unavailable || pc.result.error == NoEmail || EmailTaken(db.users, email)
  }

  // The database draws no UUID it has drawn before.
  ghost predicate FreshDraw(db: Tables, envs: nat -> Env) {
    forall k {:trigger envs(k)} :: V4(envs(k).uuid) !in db.users
  }

  ghost predicate FreshIds(srv: TokenRuns.Server, t0: Time, actions: seq<Action>) {
    forall i :: 0 <= i < |actions| && actions[i].Advance? ==>
      FreshDraw(Run(srv, t0, actions[..i]).db, actions[i].envs)
  }

  lemma TakenStays(a: Tables, b: Tables, email: string)
    requires EmailTaken(a.users, email) && Grows(a, b)
    ensures EmailTaken(b.users, email)
  {
    var id :| id in a.users && a.users[id].email == email;
    assert id in b.users && b.users[id].email == email;
  }

  lemma RowIsThere(cfg: Config, db: Tables, email: string, pu: ProviderUser, pc: LoginPc)
    requires cfg.miss.NilOnMiss? && LocalOk(cfg, db, pc) && Racer(cfg, db, email, pu, pc) && pu.email == email
    requires pc.LoadOwner? || pc.Retoken? || pc.Upgrade? || pc.AddLink?
    ensures EmailTaken(db.users, email)
  {
    var id := if pc.LoadOwner? then pc.account.userId else pc.user.id;
    assert id in db.users && db.users[id].email == email;
  }

  lemma CreateAnswers(cfg: Config, db: Db, pu: ProviderUser, envs: nat -> Env)
    requires FreshDraw(db, envs)
    ensures var (db', pc') := LoginStep(cfg, db, CreateUser(pu), envs, 0); Answered(db', pu.email, pc')
  {
    hide Constraints, Transact, RowAdded, Linked;
    CreateOutcome(cfg.bootstrap, pu, db, envs, 0);
  }

  lemma LookupAnswers(cfg: Config, db: Db, email: string, pc: LoginPc, envs: nat -> Env)
    requires cfg.miss.NilOnMiss? && (pc.FindLink? || pc.FindEmail?)
    ensures var (db', pc') := LoginStep(cfg, db, pc, envs, 0); db' == db && Answered(db', email, pc')
  {
    hide Constraints, EmailTaken;
  }

  lemma StepAnswers(cfg: Config, db: Db, email: string, pu: ProviderUser, pc: LoginPc, envs: nat -> Env)
    requires cfg.miss.NilOnMiss? && LocalOk(cfg, db, pc) && Racer(cfg, db, email, pu, pc) && pu.email == email
    requires FreshDraw(db, envs) && Answered(db, email, pc)
    ensures var (db', pc') := LoginStep(cfg, db, pc, envs, 0); Answered(db', email, pc')
  {
    hide Constraints, EmailTaken, LoginStep, LocalOk, FreshDraw, Grows;
    var (db', pc') := LoginStep(cfg, db, pc, envs, 0);
    match pc
    case CreateUser(_) => CreateAnswers(cfg, db, pu, envs);
    case FindLink(_) => LookupAnswers(cfg, db, email, pc, envs);
    case FindEmail(_) => LookupAnswers(cfg, db, email, pc, envs);
    case Done(_) => OnlyCreateAdds(cfg, db, pc, envs);
    case _ =>
      RowIsThere(cfg, db, email, pu, pc);
      StepKeeps(cfg, db, pc, envs, 0);
      TakenStays(db, db', email);
  }

  lemma AnsweredStays(a: Tables, b: Tables, email: string, pc: LoginPc)
    requires Answered(a, email, pc) && Grows(a, b)
    ensures Answered(b, email, pc)
  {
    hide Grows, EmailTaken;
    if EmailTaken(a.users, email) {
      TakenStays(a, b, email);
    }
  }

  // Request tid is a login, not successful so far, of someone with this email.
  predicate LogsInWith(s: State, tid: nat, email: string) {
    && tid in s.requests && s.requests[tid].LoggingIn?
    && tid in s.seen.came && s.seen.came[tid].email == email
  }

  ghost predicate AllAnswered(s: State, email: string) {
    forall tid {:trigger s.requests[tid]} ::
      LogsInWith(s, tid, email) ==> Answered(s.db, email, s.requests[tid].login)
  }

  // The request of tid apart, what was answered stays so.
  lemma OthersAnswered(s: State, s': State, email: string, tid: nat)
    requires AllAnswered(s, email) && Grows(s.db, s'.db)
    requires forall t :: t in s'.requests && t != tid ==> t in s.requests && s'.requests[t] == s.requests[t]
    requires forall t :: t in s'.seen.came && t != tid ==> t in s.seen.came && s'.seen.came[t] == s.seen.came[t]
    requires LogsInWith(s', tid, email) ==> Answered(s'.db, email, s'.requests[tid].login)
    ensures AllAnswered(s', email)
  {
    hide Grows, EmailTaken, Constraints;
    if EmailTaken(s.db.users, email) {
      TakenStays(s.db, s'.db, email);
    }
  }

  // Only the request an action names changes, with whom it came for.
  lemma OnlyItsRequest(srv: TokenRuns.Server, s: State, a: Action)
    ensures var s' := Next(srv, s, a);
      var tid := if a.Advance? || a.Callback? || a.AskRefresh? then a.tid else 0;
      && (forall t :: t in s'.requests && t != tid ==> t in s.requests && s'.requests[t] == s.requests[t])
      && (forall t :: t in s'.seen.came && t != tid ==> t in s.seen.came && s'.seen.came[t] == s.seen.came[t])
      && (!a.Advance? && tid in s'.requests && tid in s.requests ==> s'.requests[tid] == s.requests[tid])
      && (!a.Advance? && !a.Callback? && !a.AskRefresh? ==> s'.requests == s.requests)
      && (!a.Callback? ==> s'.seen.came == s.seen.came)
      && (a.Callback? && tid in s.requests ==> s'.seen.came == s.seen.came)
  {
    hide Constraints, Step, DeleteTokensOfCall, MarkTokenUsedCall, DeleteTokensBeforeCall, SoftDeleteUserCall,
      Kill, StateStores.Put, StateStores.Take, Note;
    match a
    case Tick(_) =>
    case Begin(_) =>
    case Callback(_, _, _) =>
    case AskRefresh(_, _) =>
    case Advance(_, _, _) =>
    case Revoke(_, _) =>
    case MarkUsed(_, _) =>
    case Purge(_, _) =>
    case SoftDelete(_, _) =>
  }

  lemma NextAnswers(srv: TokenRuns.Server, s: State, a: Action, email: string, keys: set<LinkKey>)
    requires srv.cfg.miss.NilOnMiss? && Coherent(srv, s) && Race(srv.cfg, s, email, keys) && AllAnswered(s, email)
    requires a.Advance? ==> FreshDraw(s.db, a.envs)
    ensures AllAnswered(Next(srv, s, a), email)
  {
    hide Constraints, Next, Grows, EmailTaken, UsersStep, DrawsOk, Extends, Homed, Fits, FreshDraw, RequestOk, Racer,
      LocalOk, Answered;
    var s' := Next(srv, s, a);
    NextFair(srv, s, a);
    OnlyItsRequest(srv, s, a);
    var tid := if a.Advance? || a.Callback? || a.AskRefresh? then a.tid else 0;
    if a.Advance? && LogsInWith(s, tid, email) {
      AdvanceAnswers(srv, s, a, email, keys);
    } else if a.Callback? || a.AskRefresh? || a.Advance? {
      ArrivalAnswers(srv, s, a, email);
    } else if LogsInWith(s, tid, email) {
      AnsweredStays(s.db, s'.db, email, s.requests[tid].login);
    }
    OthersAnswered(s, s', email, tid);
  }

  lemma AdvanceAnswers(srv: TokenRuns.Server, s: State, a: Action, email: string, keys: set<LinkKey>)
    requires srv.cfg.miss.NilOnMiss? && Coherent(srv, s) && Race(srv.cfg, s, email, keys) && AllAnswered(s, email)
    requires a.Advance? && FreshDraw(s.db, a.envs) && LogsInWith(s, a.tid, email)
    ensures var s' := Next(srv, s, a);
      a.tid in s'.requests && s'.requests[a.tid].LoggingIn? ==> Answered(s'.db, email, s'.requests[a.tid].login)
  {
    hide Constraints, Grows, EmailTaken, DrawsOk, Extends, Homed, Fits, FreshDraw, Racer, LocalOk, LoginStep, Note,
      Answered;
    assert RequestOk(srv, s.db, s.log.draws, a.tid, s.requests[a.tid]);
    assert RequestRaces(srv.cfg, s.db, email, s.seen.came, a.tid, s.requests[a.tid]);
    StepAnswers(srv.cfg, s.db, email, s.seen.came[a.tid], s.requests[a.tid].login, a.envs);
  }

  // Arrivals answer nothing but a missing email; steps of other requests answer no login.
  lemma ArrivalAnswers(srv: TokenRuns.Server, s: State, a: Action, email: string)
    requires AllAnswered(s, email) && Grows(s.db, Next(srv, s, a).db)
    requires a.Callback? || a.AskRefresh? || a.Advance?
    requires a.Advance? ==> !LogsInWith(s, a.tid, email)
    ensures var s' := Next(srv, s, a);
      LogsInWith(s', a.tid, email) ==> Answered(s'.db, email, s'.requests[a.tid].login)
  {
    hide Constraints, Grows, EmailTaken, LoginStep, IssueStep, RefreshStep, Note, StateStores.Take;
    var s' := Next(srv, s, a);
    if EmailTaken(s.db.users, email) {
      TakenStays(s.db, s'.db, email);
    }
  }

  lemma {:induction false} RunAnswers(srv: TokenRuns.Server, t0: Time, actions: seq<Action>, email: string,
                                      keys: set<LinkKey>)
    requires srv.cfg.miss.NilOnMiss? && Reporters(actions, email, keys) && FreshIds(srv, t0, actions)
    ensures AllAnswered(Run(srv, t0, actions), email)
  {
    hide Next, Coherent, Race, FreshDraw;
    if actions != [] {
      var n := |actions| - 1;
      forall i | 0 <= i < n && actions[..n][i].Advance?
        ensures FreshDraw(Run(srv, t0, actions[..n][..i]).db, actions[..n][i].envs)
      {
        assert actions[..n][..i] == actions[..i];
      }
      hide AllAnswered;
      RunAnswers(srv, t0, actions[..n], email, keys);
      RunCoherent(srv, t0, actions[..n]);
      RunRaces(srv, t0, actions[..n], email, keys);
      NextAnswers(srv, Run(srv, t0, actions[..n]), actions[n], email, keys);
    }
  }

  // --- The race ---

  function Rows(users: map<Uuid, User>, email: string): set<Uuid> {
    set id | id in users && users[id].email == email
  }

  lemma AtMostOneRow(db: Db, email: string)
    ensures |Rows(db.users, email)| <= 1
    ensures EmailTaken(db.users, email) ==> |Rows(db.users, email)| == 1
    ensures forall id :: id in db.users && db.users[id].email == email ==> Rows(db.users, email) == {id}
  {
    forall id | id in db.users && db.users[id].email == email ensures Rows(db.users, email) == {id} {
      assert forall other :: other in Rows(db.users, email) ==> db.users[other].email == db.users[id].email;
    }
    if EmailTaken(db.users, email) {
      var id :| id in db.users && db.users[id].email == email;
      assert Rows(db.users, email) == {id};
    } else {
      assert Rows(db.users, email) == {};
    }
  }

  // Any number of logins race with one email among any other requests, calls
  // failing as they may; identities that report this email report no other. Then
  // at most one row has the email; every login that reported it and succeeded was
  // given that row; and once such a login is over for any reason but an
  // unreachable database, the row is there.
  lemma {:induction false} RacingLoginsShareOneUser(srv: TokenRuns.Server, t0: Time, actions: seq<Action>,
                                                    email: string)
    requires Loyal(actions, email)
    ensures var s := Run(srv, t0, actions);
      && |Rows(s.db.users, email)| <= 1
      && (forall tid :: tid in s.requests && s.requests[tid].LoggedIn? ==>
            && tid in s.seen.came
            && (s.seen.came[tid].email == email ==> Rows(s.db.users, email) == {s.requests[tid].user.id}))
      && (srv.cfg.miss.NilOnMiss? && FreshIds(srv, t0, actions) ==>
            forall tid :: LogsInWith(s, tid, email) && s.requests[tid].login.Done?
              && s.requests[tid].login.result != Err(Unavailable) && s.requests[tid].login.result != Err(NoEmail)
              ==> |Rows(s.db.users, email)| == 1)
  {
    hide Run, FreshIds, Constraints, Rows, EmailTaken;
    LoyalReporters(actions, email);
    var keys := ReportersOf(actions, email);
    RunRaces(srv, t0, actions, email, keys);
    RunCoherent(srv, t0, actions);
    var s := Run(srv, t0, actions);
    AtMostOneRow(s.db, email);
    forall tid | tid in s.requests && s.requests[tid].LoggedIn?
      ensures tid in s.seen.came
      ensures s.seen.came[tid].email == email ==> Rows(s.db.users, email) == {s.requests[tid].user.id}
    {
      assert RequestOk(srv, s.db, s.log.draws, tid, s.requests[tid]);
      assert RequestRaces(srv.cfg, s.db, email, s.seen.came, tid, s.requests[tid]);
    }
    if srv.cfg.miss.NilOnMiss? && FreshIds(srv, t0, actions) {
      RunAnswers(srv, t0, actions, email, keys);
      forall tid | LogsInWith(s, tid, email) && s.requests[tid].login.Done?
        && s.requests[tid].login.result != Err(Unavailable) && s.requests[tid].login.result != Err(NoEmail)
        ensures |Rows(s.db.users, email)| == 1
      {
        assert RequestOk(srv, s.db, s.log.draws, tid, s.requests[tid]);
      }
    }
  }
}

// Resolution of a provider identity to a user: ResolveOrCreateUser as a machine
// that makes one repository call per step, and as the method the server runs.
module Resolver {
  import opened Domain
  import opened Tables
  import opened Transactions
  import opened Postgres

  datatype Config = Config(bootstrap: BootstrapConfig, miss: MissConvention)

  // The repository call a login makes next, with what it has learnt so far.
  datatype LoginPc =
    | FindLink(pu: ProviderUser)
    | LoadOwner(pu: ProviderUser, account: OAuthAccount)
    | Retoken(pu: ProviderUser, account: OAuthAccount, user: User)
    | Upgrade(pu: ProviderUser, user: User, linked: bool)
    | FindEmail(pu: ProviderUser)
    | AddLink(pu: ProviderUser, user: User)
    | CreateUser(pu: ProviderUser)
    | Done(result: Result<User>)

  function StrPtr(s: string): Option<string> {
    if s == "" then None else Some(s)
  }

  function BuildOAuthAccount(userId: Uuid, pu: ProviderUser): OAuthAccount {
    OAuthAccount(userId, pu.key, pu.email, StrPtr(pu.accessToken), StrPtr(pu.refreshToken), pu.tokenExpiry)
  }

  // The fetched account with the token fields of this login.
  function WithTokens(account: OAuthAccount, pu: ProviderUser): OAuthAccount {
    account.(accessToken := StrPtr(pu.accessToken), refreshToken := StrPtr(pu.refreshToken),
             tokenExpiry := pu.tokenExpiry)
  }

  predicate IsBootstrapAdmin(b: BootstrapConfig, email: string) {
    b.adminEmail != "" && email == b.adminEmail
  }

  predicate NeedsUpgrade(b: BootstrapConfig, user: User) {
    IsBootstrapAdmin(b, user.email) && user.role != PlatformAdmin
  }

  function RoleForNewUser(b: BootstrapConfig, email: string, count: nat): UserRole {
    if IsBootstrapAdmin(b, email) || (b.devFallback && count == 0) then PlatformAdmin else PlatformMember
  }

  function InsertBody(pu: ProviderUser, role: UserRole): Body<User> {
    Query(InsertUser(User(NilUuid, pu.email, pu.name, role, Active, None)), (created: Reply) =>
      match AsUser(created)
      case Err(e) => Return(Err(e))
      case Ok(u) => Query(UpsertLink(BuildOAuthAccount(u.id, pu)), (linked: Reply) =>
        match AsLink(linked)
        case Err(e) => Return(Err(e))
        case Ok(_) => Return(Ok(u))))
  }

  // The function passed to WithTransaction for a new user.
  function CreateBody(b: BootstrapConfig, pu: ProviderUser): Body<User> {
    if IsBootstrapAdmin(b, pu.email) then InsertBody(pu, PlatformAdmin)
    else if b.devFallback then
      Query(CountUsers, (counted: Reply) =>
        match AsRows(counted)
        case Err(e) => Return(Err(e))
        case Ok(n) => InsertBody(pu, if n == 0 then PlatformAdmin else PlatformMember))
    else InsertBody(pu, PlatformMember)
  }

  // CreateBody makes at most this many statements.
  const CREATE_LIMIT: nat := 3

  function Start(pu: ProviderUser): LoginPc {
    if pu.email == "" then Done(Err(NoEmail)) else FindLink(pu)
  }

  function Settle(pu: ProviderUser, user: User, linked: bool): LoginPc {
    if linked then Done(Ok(user)) else AddLink(pu, user)
  }

  // applyBootstrapUpgrade, up to its repository call if it needs one.
  function ApplyUpgrade(b: BootstrapConfig, pu: ProviderUser, user: User, linked: bool): LoginPc {
    if NeedsUpgrade(b, user) then Upgrade(pu, user.(role := PlatformAdmin), linked) else Settle(pu, user, linked)
  }

  predicate Fatal(error: Option<Error>) {
    error.Some? && error != Some(NotFound)
  }

  // One repository call; the transaction of CreateUser counts as one.
  function LoginStep(cfg: Config, db: Db, pc: LoginPc, envs: nat -> Env, i: nat): (Db, LoginPc) {
    match pc
    case FindLink(pu) =>
      var found := AsLookup(cfg.miss, AsLink(SelectLinkCall(db, pu.key, envs(i))), ZERO_LINK);
      (db, if Fatal(found.error) then Done(Err(found.error.value))
           else if found.record.Some? then LoadOwner(pu, found.record.value)
           else FindEmail(pu))
    case LoadOwner(pu, account) =>
      (db, match AsUser(SelectUserCall(db, account.userId, envs(i)))
           case Err(e) => Done(Err(e))
           case Ok(user) => Retoken(pu, account, user))
    case Retoken(pu, account, user) =>
      var (db', reply) := UpsertLinkCall(db, WithTokens(account, pu), envs(i));
      (db', match AsLink(reply)
            case Err(e) => Done(Err(e))
            case Ok(_) => ApplyUpgrade(cfg.bootstrap, pu, user, true))
    case Upgrade(pu, user, linked) =>
      var (db', reply) := UpdateUserCall(db, user, envs(i));
      (db', match AsRows(reply)
            case Err(e) => Done(Err(e))
            case Ok(_) => Settle(pu, user, linked))
    case FindEmail(pu) =>
      var found := AsLookup(cfg.miss, AsUser(SelectUserByEmailCall(db, pu.email, envs(i))), ZERO_USER);
      (db, if Fatal(found.error) then Done(Err(found.error.value))
           else if found.record.Some? then ApplyUpgrade(cfg.bootstrap, pu, found.record.value, false)
           else CreateUser(pu))
    case AddLink(pu, user) =>
      var (db', reply) := UpsertLinkCall(db, BuildOAuthAccount(user.id, pu), envs(i));
      (db', match AsLink(reply)
            case Err(e) => Done(Err(e))
            case Ok(_) => Done(Ok(user)))
    case CreateUser(pu) =>
      var (db', r) := Transact(CreateBody(cfg.bootstrap, pu), CREATE_LIMIT, db, envs, i);
      (db', Done(r))
    case Done(_) => (db, pc)
  }

  function Rank(pc: LoginPc): nat {
    match pc
    case FindLink(_) => 6
    case LoadOwner(_, _) => 5
    case Retoken(_, _, _) => 4
    case FindEmail(_) => 4
    case Upgrade(_, _, _) => 3
    case AddLink(_, _) => 2
    case CreateUser(_) => 1
    case Done(_) => 0
  }

  // A login that nothing interleaves with, from pc to its end.
  function RunLogin(cfg: Config, db: Db, pc: LoginPc, envs: nat -> Env, i: nat): (Db, Result<User>)
    decreases Rank(pc)
  {
    if pc.Done? then (db, pc.result)
    else
      var (db', pc') := LoginStep(cfg, db, pc, envs, i);
      RunLogin(cfg, db', pc', envs, i + 1)
  }

  class UserResolver {
    const userRepo: UserRepo
    const oauthAccountRepo: OAuthAccountRepo
    const transactor: PostgresTransactor
    const cfg: Config

    // One pool and one miss convention serve all three repositories.
    ghost predicate Wired(pool: Pool) {
      && userRepo.pool == pool && oauthAccountRepo.pool == pool && transactor.pool == pool
      && userRepo.miss == cfg.miss && oauthAccountRepo.miss == cfg.miss
    }

    constructor (pool: Pool, cfg: Config)
      ensures Wired(pool) && this.cfg == cfg
    {
      userRepo := new UserRepo(pool, cfg.miss);
      oauthAccountRepo := new OAuthAccountRepo(pool, cfg.miss);
      transactor := new PostgresTransactor(pool);
      this.cfg := cfg;
    }

    // Upgrades the stored role when the designated admin is still a member.
    method ApplyBootstrapUpgrade(pool: Pool, user: User, env: Env) returns (r: Result<User>)
      requires Wired(pool)
      modifies pool
      ensures
        var email := cfg.bootstrap.adminEmail;
        if email != "" && user.email == email && user.role == PlatformMember then
          var upgraded := user.(role := PlatformAdmin);
          var (db', reply) := UpdateUserCall(old(pool.db), upgraded, env);
          && pool.db == db'
          && r == (if AsRows(reply).Err? then Err(AsRows(reply).error) else Ok(upgraded))
        else
          pool.db == old(pool.db) && r == Ok(user)
    {
      if cfg.bootstrap.adminEmail == "" || user.email != cfg.bootstrap.adminEmail {
        return Ok(user);
      }
      if user.role == PlatformAdmin {
        return Ok(user);
      }
      var upgraded := user.(role := PlatformAdmin);
      var _ :- userRepo.Update(Background, upgraded, env);
      return Ok(upgraded);
    }

    // Case 1: the link exists.
    method ResolveLinked(pool: Pool, pu: ProviderUser, account: OAuthAccount, envs: nat -> Env)
      returns (r: Result<User>)
      requires Wired(pool)
      modifies pool
      ensures (pool.db, r) == RunLogin(cfg, old(pool.db), LoadOwner(pu, account), envs, 1)
    {
      hide Constraints, UpsertLinkRow, UpdateUserRow, UserAnswer, Transact;
      ghost var whole := RunLogin(cfg, pool.db, LoadOwner(pu, account), envs, 1);
      var loaded := userRepo.FindByID(Background, account.userId, envs(1));
      if loaded.Err? {
        assert whole == RunLogin(cfg, pool.db, Done(Err(loaded.error)), envs, 2);
        return Err(loaded.error);
      }
      assert whole == RunLogin(cfg, pool.db, Retoken(pu, account, loaded.value), envs, 2);
      var stored := oauthAccountRepo.Upsert(Background, WithTokens(account, pu), envs(2));
      if stored.Err? {
        assert whole == RunLogin(cfg, pool.db, Done(Err(stored.error)), envs, 3);
        return Err(stored.error);
      }
      assert whole == RunLogin(cfg, pool.db, ApplyUpgrade(cfg.bootstrap, pu, loaded.value, true), envs, 3);
      r := ApplyBootstrapUpgrade(pool, loaded.value, envs(3));
    }

    // Case 2: the email is known but the link is missing.
    method LinkKnownUser(pool: Pool, pu: ProviderUser, user: User, envs: nat -> Env) returns (r: Result<User>)
      requires Wired(pool)
      modifies pool
      ensures (pool.db, r) == RunLogin(cfg, old(pool.db), ApplyUpgrade(cfg.bootstrap, pu, user, false), envs, 2)
    {
      hide Constraints, UpsertLinkRow, UpdateUserRow, Transact;
      ghost var whole := RunLogin(cfg, pool.db, ApplyUpgrade(cfg.bootstrap, pu, user, false), envs, 2);
      var next: nat := if NeedsUpgrade(cfg.bootstrap, user) then 3 else 2;
      var upgraded := ApplyBootstrapUpgrade(pool, user, envs(2));
      if upgraded.Err? {
        assert whole == RunLogin(cfg, pool.db, Done(Err(upgraded.error)), envs, 3);
        return upgraded;
      }
      assert whole == RunLogin(cfg, pool.db, AddLink(pu, upgraded.value), envs, next);
      var stored := oauthAccountRepo.Upsert(Background, BuildOAuthAccount(upgraded.value.id, pu), envs(next));
      r := if stored.Err? then Err(stored.error) else upgraded;
      assert whole == RunLogin(cfg, pool.db, Done(r), envs, next + 1);
    }

    // Does exactly what the step machine does when nothing comes between its steps.
    method ResolveOrCreateUser(pool: Pool, pu: ProviderUser, envs: nat -> Env) returns (r: Result<User>)
      requires Wired(pool)
      modifies pool
      ensures (pool.db, r) == RunLogin(cfg, old(pool.db), Start(pu), envs, 0)
    {
      hide Constraints, Transact, CreateBody, UpsertLinkRow, UpdateUserRow, UserAnswer, LinkAnswer, EmailAnswer;
      if pu.email == "" {
        return Err(NoEmail);
      }
      ghost var whole := RunLogin(cfg, pool.db, FindLink(pu), envs, 0);
      var account := oauthAccountRepo.FindByProvider(Background, pu.key, envs(0));
      if account.error.Some? && account.error != Some(NotFound) {
        assert whole == RunLogin(cfg, pool.db, Done(Err(account.error.value)), envs, 1);
        return Err(account.error.value);
      }
      if account.record.Some? {
        r := ResolveLinked(pool, pu, account.record.value, envs);
        return;
      }
      assert whole == RunLogin(cfg, pool.db, FindEmail(pu), envs, 1);
      var known := userRepo.FindByEmail(Background, pu.email, envs(1));
      if known.error.Some? && known.error != Some(NotFound) {
        assert whole == RunLogin(cfg, pool.db, Done(Err(known.error.value)), envs, 2);
        return Err(known.error.value);
      }
      if known.record.Some? {
        r := LinkKnownUser(pool, pu, known.record.value, envs);
        return;
      }
      assert whole == RunLogin(cfg, pool.db, CreateUser(pu), envs, 2);
      r := transactor.WithTransaction(CreateBody(cfg.bootstrap, pu), CREATE_LIMIT, envs, 2);
      assert whole == RunLogin(cfg, pool.db, Done(r), envs, 3);
    }
  }
}

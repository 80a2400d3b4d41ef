// Who gets to be the first administrator, under the settings main.go derives
// from the environment.
module Bootstrap {
  import opened Domain
  import opened Tables
  import opened Transactions
  import opened Resolver
  import opened Logins
  import opened Authority
  import opened Misses
  import SequentialLogins

  // The fallback is off only in production without a designated admin.
  function Configured(production: bool, adminEmail: string): BootstrapConfig {
    BootstrapConfig(adminEmail, !production || adminEmail != "")
  }

  // Someone new signs in, nothing failing: exactly one row is added.
  lemma NewLogin(cfg: Config, db: Db, pu: ProviderUser, envs: nat -> Env)
    requires cfg.miss.NilOnMiss? && Healthy(db, envs) && pu.email != "" && pu.key !in db.links
    requires forall id :: id in db.users ==> db.users[id].email != pu.email
    ensures var (db', r) := RunLogin(cfg, db, Start(pu), envs, 0);
      r.Ok? && RowAdded(cfg.bootstrap, db, db', r.value) && r.value.email == pu.email
      && db'.links == Linked(db.links, BuildOAuthAccount(r.value.id, pu))
  {
    hide Constraints, Transact;
    SequentialLogins.Unrolled(cfg, db, FindLink(pu), envs, 0);
    SequentialLogins.Unrolled(cfg, db, FindEmail(pu), envs, 1);
    SequentialLogins.Unrolled(cfg, db, CreateUser(pu), envs, 2);
    CreateOutcome(cfg.bootstrap, pu, db, envs, 2);
    CreateWins(cfg.bootstrap, pu, db, envs, 2);
  }

  // The first user to sign in becomes an admin, whoever it is, unless the service
  // runs in production without a designated admin.
  lemma FirstUserIsAdmin(production: bool, adminEmail: string, pu: ProviderUser, envs: nat -> Env)
    requires Healthy(EMPTY, envs) && pu.email != ""
    ensures var cfg := Config(Configured(production, adminEmail), NilOnMiss);
      var (_, r) := RunLogin(cfg, EMPTY, Start(pu), envs, 0);
      r.Ok? && (r.value.role == PlatformAdmin <==> !production || adminEmail != "")
  {
    hide RunLogin;
    NewLogin(Config(Configured(production, adminEmail), NilOnMiss), EMPTY, pu, envs);
  }

  // So with a designated admin, a stranger who signs in first is an admin next to
  // the designated one: the bound of two in AdminsAreExplained is reached, in
  // production too.
  lemma StrangerAndDesignated(production: bool, adminEmail: string, stranger: ProviderUser, designated: ProviderUser,
                              envs: nat -> Env, envs': nat -> Env)
    requires adminEmail != "" && designated.email == adminEmail
    requires stranger.email != "" && stranger.email != adminEmail && stranger.key != designated.key
    requires var cfg := Config(Configured(production, adminEmail), NilOnMiss);
      Healthy(EMPTY, envs) && Healthy(RunLogin(cfg, EMPTY, Start(stranger), envs, 0).0, envs')
    ensures var cfg := Config(Configured(production, adminEmail), NilOnMiss);
      var (db1, first) := RunLogin(cfg, EMPTY, Start(stranger), envs, 0);
      var (db2, second) := RunLogin(cfg, db1, Start(designated), envs', 0);
      && first.Ok? && second.Ok? && first.value.id != second.value.id
      && Admins(db2.users) == {first.value.id, second.value.id}
  {
    hide RunLogin, Healthy, Constraints;
    var cfg := Config(Configured(production, adminEmail), NilOnMiss);
    NewLogin(cfg, EMPTY, stranger, envs);
    var (db1, first) := RunLogin(cfg, EMPTY, Start(stranger), envs, 0);
    NewLogin(cfg, db1, designated, envs');
    var (db2, second) := RunLogin(cfg, db1, Start(designated), envs', 0);
    assert db2.users == map[][first.value.id := first.value][second.value.id := second.value];
  }
}

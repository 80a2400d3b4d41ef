// The three cases of a login, call by call: what each failing call leaves, and
// what a success answers and stores.
module Cases {
  import opened Domain
  import opened Tables
  import opened Transactions
  import opened Resolver
  import opened Statements
  import opened SequentialLogins

  // The configured email, on a row that is not an admin's yet.
  predicate Awaited(b: BootstrapConfig, row: User) {
    b.adminEmail != "" && row.email == b.adminEmail && row.role == PlatformMember
  }

  function AsAdmin(row: User): User {
    User(row.id, row.email, row.fullName, PlatformAdmin, row.status, row.deletedAt)
  }

  // The link a login of pu leaves: everything the provider said now, on this owner.
  ghost predicate LinkIs(link: OAuthAccount, owner: Uuid, pu: ProviderUser, email: string) {
    && link.userId == owner && link.key == pu.key && link.email == email && link.tokenExpiry == pu.tokenExpiry
    && StoredAs(link.accessToken, pu.accessToken) && StoredAs(link.refreshToken, pu.refreshToken)
  }

  // Nothing but this link has changed, if anything.
  ghost predicate OnlyLink(db: Tables, db': Tables, key: LinkKey) {
    && db'.tokens == db.tokens && key in db'.links
    && (forall k :: k in db.links ==> k in db'.links)
    && (forall k :: k in db'.links && k != key ==> k in db.links && db'.links[k] == db.links[k])
  }

  lemma UpdateOfRow(db: Db, row: User, env: Env)
    requires row.id in db.users && db.users[row.id].email == row.email
    ensures var (db', reply) := UpdateUserCall(db, AsAdmin(row), env);
      if env.down then db' == db && AsRows(reply) == Err(Unavailable)
      else
        && AsRows(reply) == Ok(1) && db'.links == db.links && db'.tokens == db.tokens
        && db'.users == db.users[row.id := AsAdmin(row).(deletedAt := db.users[row.id].deletedAt)]
  {
    hide Constraints;
    if !env.down {
      UpdateUserTells(db, AsAdmin(row), env);
      OnlyItsOwn(db, row);
      var db' := UpdateUserCall(db, AsAdmin(row), env).0;
      assert db'.users == db.users[row.id := db'.users[row.id]];
    }
  }

  lemma OnlyItsOwn(db: Db, row: User)
    requires row.id in db.users && db.users[row.id].email == row.email
    ensures !TakenByAnother(db.users, AsAdmin(row))
  {
  }

  lemma UpsertOfLink(db: Db, a: OAuthAccount, pu: ProviderUser, env: Env)
    requires a.key == pu.key && (pu.key in db.links || a.userId in db.users)
    requires a.accessToken == StrPtr(pu.accessToken) && a.refreshToken == StrPtr(pu.refreshToken)
    requires a.tokenExpiry == pu.tokenExpiry
    ensures var (db', reply) := UpsertLinkCall(db, a, env);
      if env.down then db' == db && AsLink(reply) == Err(Unavailable)
      else
        && AsLink(reply).Ok? && db'.users == db.users && OnlyLink(db, db', pu.key)
        && LinkIs(db'.links[pu.key], if pu.key in db.links then db.links[pu.key].userId else a.userId, pu, a.email)
  {
    hide Constraints;
    if !env.down {
      UpsertLinkTells(db, a, env);
    }
  }

  // The upgrade and, for an unlinked identity, the link, from call i on.
  lemma Settles(cfg: Config, db: Db, pu: ProviderUser, row: User, linked: bool, envs: nat -> Env, i: nat)
    requires IsRow(db, row) && (linked || pu.key !in db.links)
    ensures var (db', r) := RunLogin(cfg, db, ApplyUpgrade(cfg.bootstrap, pu, row, linked), envs, i);
      var j := if Awaited(cfg.bootstrap, row) then i + 1 else i;
      var now := if Awaited(cfg.bootstrap, row) then AsAdmin(row) else row;
      if Awaited(cfg.bootstrap, row) && envs(i).down then db' == db && r == Err(Unavailable)
      else
        && db'.users == db.users[row.id := now] && db'.tokens == db.tokens
        && if linked then db'.links == db.links && r == Ok(now)
           else if envs(j).down then db'.links == db.links && r == Err(Unavailable)
           else r == Ok(now) && OnlyLink(db, db', pu.key) && LinkIs(db'.links[pu.key], row.id, pu, pu.email)
  {
    hide Constraints, UpdateUserCall, UpsertLinkCall, LoginStep, OnlyLink, LinkIs;
    var b := cfg.bootstrap;
    if Awaited(b, row) {
      var pc := ApplyUpgrade(b, pu, row, linked);
      assert pc == Upgrade(pu, AsAdmin(row), linked);
      Unrolled(cfg, db, pc, envs, i);
      UpgradeStep(cfg, db, pu, row, linked, envs, i);
      if !envs(i).down {
        var db1 := LoginStep(cfg, db, pc, envs, i).0;
        Links(cfg, db1, pu, AsAdmin(row), linked, envs, i + 1);
        LinkFrom(db, db1, RunLogin(cfg, db1, Settle(pu, AsAdmin(row), linked), envs, i + 1).0, pu.key);
      }
    } else {
      Links(cfg, db, pu, row, linked, envs, i);
      assert db.users[row.id := row] == db.users;
    }
  }

  lemma LinkFrom(db: Tables, db1: Tables, db2: Tables, key: LinkKey)
    requires db1.links == db.links && db1.tokens == db.tokens
    ensures OnlyLink(db1, db2, key) <==> OnlyLink(db, db2, key)
  {
  }

  lemma UpgradeStep(cfg: Config, db: Db, pu: ProviderUser, row: User, linked: bool, envs: nat -> Env, i: nat)
    requires IsRow(db, row)
    ensures var (db', pc') := LoginStep(cfg, db, Upgrade(pu, AsAdmin(row), linked), envs, i);
      if envs(i).down then db' == db && pc' == Done(Err(Unavailable))
      else
        && db'.users == db.users[row.id := AsAdmin(row)] && db'.links == db.links && db'.tokens == db.tokens
        && pc' == Settle(pu, AsAdmin(row), linked)
  {
    hide Constraints, UpdateUserCall;
    UpdateOfRow(db, row, envs(i));
  }

  lemma Links(cfg: Config, db: Db, pu: ProviderUser, user: User, linked: bool, envs: nat -> Env, i: nat)
    requires IsRow(db, user) && (linked || pu.key !in db.links)
    ensures var (db', r) := RunLogin(cfg, db, Settle(pu, user, linked), envs, i);
      && db'.users == db.users && db'.tokens == db.tokens
      && if linked then db'.links == db.links && r == Ok(user)
         else if envs(i).down then db'.links == db.links && r == Err(Unavailable)
         else r == Ok(user) && OnlyLink(db, db', pu.key) && LinkIs(db'.links[pu.key], user.id, pu, pu.email)
  {
    hide Constraints, UpsertLinkCall, OnlyLink, LinkIs;
    if !linked {
      Unrolled(cfg, db, AddLink(pu, user), envs, i);
      UpsertOfLink(db, BuildOAuthAccount(user.id, pu), pu, envs(i));
      TokensKept(db, LoginStep(cfg, db, AddLink(pu, user), envs, i).0, pu.key);
    }
  }

  lemma TokensKept(db: Tables, db': Tables, key: LinkKey)
    ensures OnlyLink(db, db', key) ==> db'.tokens == db.tokens && key in db'.links
  {
  }

  // Case 1: the identity is linked. Find, load, store the tokens, and upgrade if the
  // row awaits it; the answer is the row, promoted if it was.
  lemma {:induction false} LinkedCase(cfg: Config, db: Db, pu: ProviderUser, envs: nat -> Env)
    requires pu.email != "" && pu.key in db.links
    ensures var (db', r) := RunLogin(cfg, db, Start(pu), envs, 0);
      var link := db.links[pu.key];
      var row := db.users[link.userId];
      if envs(0).down || envs(1).down || envs(2).down then db' == db && r == Err(Unavailable)
      else
        && OnlyLink(db, db', pu.key) && LinkIs(db'.links[pu.key], link.userId, pu, link.email)
        && if Awaited(cfg.bootstrap, row) then
             if envs(3).down then db'.users == db.users && r == Err(Unavailable)
             else db'.users == db.users[row.id := AsAdmin(row)] && r == Ok(AsAdmin(row))
           else db'.users == db.users && r == Ok(row)
  {
    var link, row := db.links[pu.key], db.users[db.links[pu.key].userId];
    LinkedRow(db, pu.key);
    hide Constraints, LoginStep, OnlyLink, LinkIs;
    Unrolled(cfg, db, FindLink(pu), envs, 0);
    LinkedReads(cfg, db, pu, envs);
    if !envs(0).down {
      Unrolled(cfg, db, LoadOwner(pu, link), envs, 1);
      if !envs(1).down {
        Unrolled(cfg, db, Retoken(pu, link, row), envs, 2);
        RetokenStep(cfg, db, pu, link, row, envs);
        if !envs(2).down {
          var db1 := LoginStep(cfg, db, Retoken(pu, link, row), envs, 2).0;
          AfterRetoken(cfg, db, db1, pu, row, envs);
        }
      }
    }
  }

  lemma AfterRetoken(cfg: Config, db: Db, db1: Db, pu: ProviderUser, row: User, envs: nat -> Env)
    requires IsRow(db, row) && db1.users == db.users && OnlyLink(db, db1, pu.key)
    ensures var (db', r) := RunLogin(cfg, db1, ApplyUpgrade(cfg.bootstrap, pu, row, true), envs, 3);
      && OnlyLink(db, db', pu.key) && db'.links == db1.links
      && if Awaited(cfg.bootstrap, row) then
           if envs(3).down then db'.users == db.users && r == Err(Unavailable)
           else db'.users == db.users[row.id := AsAdmin(row)] && r == Ok(AsAdmin(row))
         else db'.users == db.users && r == Ok(row)
  {
    hide Constraints, LoginStep, RunLogin, OnlyLink, Awaited;
    Settles(cfg, db1, pu, row, true, envs, 3);
    LinkCarries(db, db1, RunLogin(cfg, db1, ApplyUpgrade(cfg.bootstrap, pu, row, true), envs, 3).0, pu.key);
    assert db.users[row.id := row] == db.users;
  }

  lemma LinkedRow(db: Db, key: LinkKey)
    requires key in db.links
    ensures db.links[key].key == key && db.links[key].userId in db.users
    ensures IsRow(db, db.users[db.links[key].userId]) && db.users[db.links[key].userId].id == db.links[key].userId
  {
  }

  lemma LinkCarries(db: Tables, db1: Tables, db2: Tables, key: LinkKey)
    requires OnlyLink(db, db1, key) && db2.links == db1.links && db2.tokens == db1.tokens
    ensures OnlyLink(db, db2, key)
  {
  }

  lemma LinkedReads(cfg: Config, db: Db, pu: ProviderUser, envs: nat -> Env)
    requires pu.key in db.links && db.links[pu.key].userId in db.users
    ensures var link := db.links[pu.key];
      var row := db.users[link.userId];
      && LoginStep(cfg, db, FindLink(pu), envs, 0) ==
           (db, if envs(0).down then Done(Err(Unavailable)) else LoadOwner(pu, link))
      && LoginStep(cfg, db, LoadOwner(pu, link), envs, 1) ==
           (db, if envs(1).down then Done(Err(Unavailable)) else Retoken(pu, link, row))
  {
    hide Constraints;
  }

  lemma RetokenStep(cfg: Config, db: Db, pu: ProviderUser, link: OAuthAccount, row: User, envs: nat -> Env)
    requires pu.key in db.links && link == db.links[pu.key] && link.key == pu.key
    ensures var (db', pc') := LoginStep(cfg, db, Retoken(pu, link, row), envs, 2);
      if envs(2).down then db' == db && pc' == Done(Err(Unavailable))
      else
        && db'.users == db.users && OnlyLink(db, db', pu.key) && LinkIs(db'.links[pu.key], link.userId, pu, link.email)
        && pc' == ApplyUpgrade(cfg.bootstrap, pu, row, true)
  {
    hide Constraints, UpsertLinkCall, OnlyLink, LinkIs;
    UpsertOfLink(db, WithTokens(link, pu), pu, envs(2));
  }

  // Case 2: the email is known, the identity is not. Upgrade first, then the link; a
  // failure between the two keeps the upgrade.
  lemma {:induction false} KnownEmailCase(cfg: Config, db: Db, pu: ProviderUser, row: User, envs: nat -> Env)
    requires cfg.miss.NilOnMiss? && pu.email != "" && pu.key !in db.links && IsRow(db, row) && row.email == pu.email
    ensures var (db', r) := RunLogin(cfg, db, Start(pu), envs, 0);
      var j := if Awaited(cfg.bootstrap, row) then 3 else 2;
      var now := if Awaited(cfg.bootstrap, row) then AsAdmin(row) else row;
      if envs(0).down || envs(1).down || (Awaited(cfg.bootstrap, row) && envs(2).down) then
        db' == db && r == Err(Unavailable)
      else
        && db'.users == db.users[row.id := now] && db'.tokens == db.tokens
        && if envs(j).down then db'.links == db.links && r == Err(Unavailable)
           else r == Ok(now) && OnlyLink(db, db', pu.key) && LinkIs(db'.links[pu.key], row.id, pu, pu.email)
  {
    hide LoginStep, OnlyLink, LinkIs;
    Unrolled(cfg, db, FindLink(pu), envs, 0);
    KnownReads(cfg, db, pu, row, envs);
    hide Constraints;
    if !envs(0).down {
      Unrolled(cfg, db, FindEmail(pu), envs, 1);
      if !envs(1).down {
        Settles(cfg, db, pu, row, false, envs, 2);
      }
    }
  }

  lemma KnownReads(cfg: Config, db: Db, pu: ProviderUser, row: User, envs: nat -> Env)
    requires cfg.miss.NilOnMiss? && pu.key !in db.links && IsRow(db, row) && row.email == pu.email
    ensures LoginStep(cfg, db, FindLink(pu), envs, 0) ==
      (db, if envs(0).down then Done(Err(Unavailable)) else FindEmail(pu))
    ensures LoginStep(cfg, db, FindEmail(pu), envs, 1) ==
      (db, if envs(1).down then Done(Err(Unavailable)) else ApplyUpgrade(cfg.bootstrap, pu, row, false))
  {
    hide ApplyUpgrade;
    assert EmailOwner(db.users, pu.email) == Some(row.id);
  }

  // What inserting a new user and its link comes to, from call i on.
  ghost predicate Inserted(db: Tables, pu: ProviderUser, role: UserRole, envs: nat -> Env, i: nat,
                           after: (Tables, Result<User>, nat)) {
    var (db', r, j) := after;
    var u := User(V4(envs(i).uuid), pu.email, pu.name, role, Active, None);
    if envs(i).down then r == Err(Unavailable)
    else if u.id in db.users then r == Err(Conflict)
    else if envs(i + 1).down then r == Err(Unavailable)
    else
      && r == Ok(u) && j == i + 2
      && db'.users == db.users[u.id := u] && OnlyLink(db, db', pu.key) && LinkIs(db'.links[pu.key], u.id, pu, pu.email)
  }

  lemma InsertCase(pu: ProviderUser, role: UserRole, limit: nat, db: Db, envs: nat -> Env, i: nat)
    requires limit >= 2 && pu.key !in db.links && forall id :: id in db.users ==> db.users[id].email != pu.email
    ensures Inserted(db, pu, role, envs, i, RunDirect(InsertBody(pu, role), limit, db, envs, i))
  {
    hide Constraints, UpsertLinkCall, InsertUserCall, OnlyLink, LinkIs;
    var body, u := InsertBody(pu, role), User(NilUuid, pu.email, pu.name, role, Active, None);
    var (db1, created) := InsertUserCall(db, u, envs(i));
    assert RunDirect(body, limit, db, envs, i) == RunDirect(body.next(created), limit - 1, db1, envs, i + 1);
    if envs(i).down {
      DownChangesNothing(db, InsertUser(u), envs(i));
    } else {
      InsertUserTells(db, u, envs(i));
      if created.UserRow? {
        SecondStatement(pu, role, created.user, limit - 1, db1, envs, i + 1);
        assert db1.users == db.users[created.user.id := created.user];
        LinkFrom(db, db1, RunDirect(body.next(created), limit - 1, db1, envs, i + 1).0, pu.key);
      }
    }
  }

  lemma SecondStatement(pu: ProviderUser, role: UserRole, u: User, limit: nat, db: Db, envs: nat -> Env, i: nat)
    requires limit >= 1 && pu.key !in db.links && u.id in db.users
    ensures var (db', r, j) := RunDirect(InsertBody(pu, role).next(UserRow(u)), limit, db, envs, i);
      if envs(i).down then r == Err(Unavailable)
      else
        && r == Ok(u) && j == i + 1 && db'.users == db.users
        && OnlyLink(db, db', pu.key) && LinkIs(db'.links[pu.key], u.id, pu, pu.email)
  {
    hide Constraints, UpsertLinkCall, OnlyLink, LinkIs;
    var rest, a := InsertBody(pu, role).next(UserRow(u)), BuildOAuthAccount(u.id, pu);
    UpsertOfLink(db, a, pu, envs(i));
    var (db', linked) := UpsertLinkCall(db, a, envs(i));
    assert RunDirect(rest, limit, db, envs, i) == RunDirect(rest.next(linked), limit - 1, db', envs, i + 1);
  }

  // The configured email is an admin's; under the fallback, so is the first user.
  function RoleAtFirst(b: BootstrapConfig, email: string, noUsers: bool): UserRole {
    if (b.adminEmail != "" && email == b.adminEmail) || (b.devFallback && noUsers) then PlatformAdmin
    else PlatformMember
  }

  // Users are counted only under the fallback, and not for the configured email.
  predicate Counts(b: BootstrapConfig, email: string) {
    b.devFallback && !(b.adminEmail != "" && email == b.adminEmail)
  }

  lemma BodyCase(b: BootstrapConfig, pu: ProviderUser, db: Db, envs: nat -> Env, i: nat)
    requires pu.key !in db.links && forall id :: id in db.users ==> db.users[id].email != pu.email
    ensures var after := RunDirect(CreateBody(b, pu), CREATE_LIMIT, db, envs, i);
      var role := RoleAtFirst(b, pu.email, db.users == map[]);
      if Counts(b, pu.email) then
        if envs(i).down then after.1 == Err(Unavailable) else Inserted(db, pu, role, envs, i + 1, after)
      else
        Inserted(db, pu, role, envs, i, after)
  {
    hide Constraints, InsertBody, Inserted;
    var body, role := CreateBody(b, pu), RoleAtFirst(b, pu.email, db.users == map[]);
    if !Counts(b, pu.email) {
      InsertCase(pu, role, CREATE_LIMIT, db, envs, i);
    } else {
      var (_, counted) := Exec(db, CountUsers, envs(i));
      assert RunDirect(body, CREATE_LIMIT, db, envs, i) == RunDirect(body.next(counted), 2, db, envs, i + 1);
      if !envs(i).down {
        assert body.next(counted) == InsertBody(pu, role);
        InsertCase(pu, role, 2, db, envs, i + 1);
      }
    }
  }

  // Case 3: neither is known. Begin, count if the count matters, insert, link and
  // commit; whatever call fails, nothing has changed.
  lemma {:induction false} CreateCase(cfg: Config, db: Db, pu: ProviderUser, envs: nat -> Env)
    requires cfg.miss.NilOnMiss? && pu.email != "" && pu.key !in db.links
    requires forall id :: id in db.users ==> db.users[id].email != pu.email
    ensures var (db', r) := RunLogin(cfg, db, Start(pu), envs, 0);
      var i: nat := if Counts(cfg.bootstrap, pu.email) then 4 else 3;
      var role := RoleAtFirst(cfg.bootstrap, pu.email, db.users == map[]);
      var u := User(V4(envs(i).uuid), pu.email, pu.name, role, Active, None);
      if envs(0).down || envs(1).down || envs(2).down || envs(3).down || envs(i).down then
        db' == db && r == Err(Unavailable)
      else if u.id in db.users then db' == db && r == Err(Conflict)
      else if envs(i + 1).down || envs(i + 2).down then db' == db && r == Err(Unavailable)
      else
        && r == Ok(u) && db'.users == db.users[u.id := u]
        && OnlyLink(db, db', pu.key) && LinkIs(db'.links[pu.key], u.id, pu, pu.email)
  {
    hide Constraints, CreateBody, RoleAtFirst, OnlyLink, LinkIs;
    Unrolled(cfg, db, FindLink(pu), envs, 0);
    Unrolled(cfg, db, FindEmail(pu), envs, 1);
    Unrolled(cfg, db, CreateUser(pu), envs, 2);
    UnknownReads(cfg, db, pu, envs);
    BodyCase(cfg.bootstrap, pu, db, envs, 3);
  }

  lemma UnknownReads(cfg: Config, db: Db, pu: ProviderUser, envs: nat -> Env)
    requires cfg.miss.NilOnMiss? && pu.key !in db.links
    requires forall id :: id in db.users ==> db.users[id].email != pu.email
    ensures LoginStep(cfg, db, FindLink(pu), envs, 0) ==
      (db, if envs(0).down then Done(Err(Unavailable)) else FindEmail(pu))
    ensures LoginStep(cfg, db, FindEmail(pu), envs, 1) ==
      (db, if envs(1).down then Done(Err(Unavailable)) else CreateUser(pu))
  {
  }
}

// What single login steps and whole uninterrupted logins do to the tables.
module Logins {
  import opened Domain
  import opened Tables
  import opened Transactions
  import opened Resolver

  // The tables only ever move this way: users stay, with their email; an admin
  // stays an admin, and a deleted user deleted; a link stays, with its owner.
  ghost predicate Grows(a: Tables, b: Tables) {
    && (forall id {:trigger b.users[id]} {:trigger a.users[id]} :: id in a.users ==>
          && id in b.users
          && b.users[id].email == a.users[id].email
          && (a.users[id].role == PlatformAdmin ==> b.users[id].role == PlatformAdmin)
          && (a.users[id].deletedAt.Some? ==> b.users[id].deletedAt.Some?))
    && (forall k {:trigger b.links[k]} {:trigger a.links[k]} :: k in a.links ==>
          k in b.links && b.links[k].userId == a.links[k].userId)
  }

  lemma GrowsTransitive(a: Tables, b: Tables, c: Tables)
    requires Grows(a, b) && Grows(b, c)
    ensures Grows(a, c)
  {
    assert forall id :: id in a.users ==> id in b.users && id in c.users;
    assert forall k :: k in a.links ==> k in b.links && k in c.links;
  }

  // A record a login holds still describes its row, except that the row's role
  // may have risen.
  ghost predicate Snapshot(db: Tables, user: User) {
    && user.id in db.users
    && db.users[user.id].email == user.email
    && (user.role == PlatformAdmin ==> db.users[user.id].role == PlatformAdmin)
  }

  // What a login at pc may rely on, whatever other logins do between its steps.
  ghost predicate LocalOk(cfg: Config, db: Tables, pc: LoginPc) {
    match pc
    case FindLink(pu) => pu.email != ""
    case LoadOwner(_, _) => true
    case Retoken(_, _, user) => Snapshot(db, user)
    case Upgrade(_, user, linked) =>
      && user.id in db.users && db.users[user.id].email == user.email
      && user.role == PlatformAdmin && IsBootstrapAdmin(cfg.bootstrap, user.email)
      && (!linked ==> cfg.miss.NilOnMiss?)
    case FindEmail(pu) => cfg.miss.NilOnMiss? && pu.email != ""
    case AddLink(_, user) => cfg.miss.NilOnMiss? && Snapshot(db, user)
    case CreateUser(pu) => cfg.miss.NilOnMiss? && pu.email != ""
    case Done(r) => r.Ok? ==> Snapshot(db, r.value)
  }

  lemma LocalOkGrows(cfg: Config, a: Tables, b: Tables, pc: LoginPc)
    requires LocalOk(cfg, a, pc) && Grows(a, b)
    ensures LocalOk(cfg, b, pc)
  {
  }

  // The same rows; a role changes only by rising, and only for the bootstrap email.
  ghost predicate RowsKept(b: BootstrapConfig, before: Tables, after: Tables) {
    && after.users.Keys == before.users.Keys
    && forall id {:trigger after.users[id]} {:trigger before.users[id]} :: id in before.users ==>
         after.users[id].role == before.users[id].role || IsBootstrapAdmin(b, before.users[id].email)
  }

  // Exactly one new row, with a new email and the role the bootstrap rules give.
  ghost predicate RowAdded(b: BootstrapConfig, before: Tables, after: Tables, u: User) {
    && u.id !in before.users && u.id.V4?
    && (forall id :: id in before.users ==> before.users[id].email != u.email)
    && u.role == RoleForNewUser(b, u.email, |before.users|)
    && after.users == before.users[u.id := u]
  }

  // The links after an upsert of account.
  function Linked(links: map<LinkKey, OAuthAccount>, account: OAuthAccount): map<LinkKey, OAuthAccount> {
    links[account.key := if account.key in links then Relink(links[account.key], account) else account]
  }

  ghost predicate EmailTaken(users: map<Uuid, User>, email: string) {
    exists id :: id in users && users[id].email == email
  }

  lemma InsertUserEffect(db: Db, u: User, env: Env)
    ensures var (db', reply) := InsertUserCall(db, u, env);
      && (reply.UserRow? ==>
            var row := reply.user;
            && row.id == V4(env.uuid) && row.id !in db.users && row == u.(id := row.id, deletedAt := None)
            && db' == db.(users := db.users[row.id := row]))
      && (!reply.UserRow? ==> db' == db && (reply == Failed(Unavailable) || reply == Failed(Conflict)))
      && (reply == Failed(Unavailable) <==> env.down)
      && (reply == Failed(Conflict) <==> !env.down && (V4(env.uuid) in db.users || EmailTaken(db.users, u.email)))
  {
  }

  lemma UpsertEffect(db: Db, a: OAuthAccount, env: Env)
    ensures var (db', reply) := UpsertLinkCall(db, a, env);
      && (reply.LinkRow? ==> db' == db.(links := Linked(db.links, a)))
      && (!reply.LinkRow? ==> db' == db)
      && (reply.LinkRow? || reply == Failed(Unavailable)
          || (reply == Failed(ForeignKey) && a.userId !in db.users && a.key !in db.links))
  {
  }

  lemma UpdateEffect(b: BootstrapConfig, db: Db, user: User, env: Env)
    requires user.id in db.users && db.users[user.id].email == user.email
    requires user.role == PlatformAdmin && IsBootstrapAdmin(b, user.email)
    ensures var (db', reply) := UpdateUserCall(db, user, env);
      && Grows(db, db') && RowsKept(b, db, db') && db'.tokens == db.tokens && db'.links == db.links
      && (if env.down then reply == Failed(Unavailable) && db' == db
          else reply == Affected(1) && Snapshot(db', user)
               && db'.users[user.id] == user.(deletedAt := db.users[user.id].deletedAt))
  {
  }

  lemma InsertOutcome(b: BootstrapConfig, pu: ProviderUser, role: UserRole, limit: nat, db: Db, envs: nat -> Env,
                      i: nat)
    requires limit >= 2
    requires role == RoleForNewUser(b, pu.email, |db.users|)
    ensures var (db', r, _) := RunDirect(InsertBody(pu, role), limit, db, envs, i);
      && (r.Ok? ==>
            && RowAdded(b, db, db', r.value)
            && r.value == User(r.value.id, pu.email, pu.name, r.value.role, Active, None)
            && (exists k: nat :: r.value.id == V4(envs(k).uuid))
            && db'.links == Linked(db.links, BuildOAuthAccount(r.value.id, pu))
            && db'.tokens == db.tokens)
      && (r == Err(Conflict) ==> EmailTaken(db.users, pu.email) || exists k: nat :: V4(envs(k).uuid) in db.users)
      && (r.Err? ==> r.error == Unavailable || r.error == Conflict)
  {
    hide Constraints, InsertUserRow, UpsertLinkRow;
    var body, u := InsertBody(pu, role), User(NilUuid, pu.email, pu.name, role, Active, None);
    var (db1, created) := InsertUserCall(db, u, envs(i));
    InsertUserEffect(db, u, envs(i));
    assert RunDirect(body, limit, db, envs, i) == RunDirect(body.next(created), limit - 1, db1, envs, i + 1);
    if created.UserRow? {
      LinkOutcome(b, pu, role, created.user, limit - 1, db1, envs, i + 1);
    }
  }

  // The second statement of InsertBody, after the user row u went in.
  lemma LinkOutcome(b: BootstrapConfig, pu: ProviderUser, role: UserRole, u: User, limit: nat, db: Db,
                    envs: nat -> Env, i: nat)
    requires limit >= 1 && u.id in db.users
    ensures var (db', r, _) := RunDirect(InsertBody(pu, role).next(UserRow(u)), limit, db, envs, i);
      && (r.Ok? ==> r.value == u && db' == db.(links := Linked(db.links, BuildOAuthAccount(u.id, pu))))
      && (r.Err? ==> r.error == Unavailable)
  {
    hide Constraints, UpsertLinkRow;
    var rest, a := InsertBody(pu, role).next(UserRow(u)), BuildOAuthAccount(u.id, pu);
    var (db', linked) := UpsertLinkCall(db, a, envs(i));
    UpsertEffect(db, a, envs(i));
    assert RunDirect(rest, limit, db, envs, i) == RunDirect(rest.next(linked), limit - 1, db', envs, i + 1);
  }

  // The transaction of case 3: one new user with its link, or nothing at all.
  lemma {:induction false} CreateOutcome(b: BootstrapConfig, pu: ProviderUser, db: Db, envs: nat -> Env, i: nat)
    ensures var (db', r) := Transact(CreateBody(b, pu), CREATE_LIMIT, db, envs, i);
      && (r.Err? ==> db' == db)
      && (r.Ok? ==>
            && RowAdded(b, db, db', r.value)
            && r.value == User(r.value.id, pu.email, pu.name, r.value.role, Active, None)
            && (exists k: nat :: r.value.id == V4(envs(k).uuid))
            && db'.links == Linked(db.links, BuildOAuthAccount(r.value.id, pu))
            && db'.tokens == db.tokens)
      && (r == Err(Conflict) ==> EmailTaken(db.users, pu.email) || exists k: nat :: V4(envs(k).uuid) in db.users)
      && (r.Err? ==> r.error == Unavailable || r.error == Conflict)
  {
    hide Constraints, InsertBody, InsertUserCall, UpsertLinkCall, RowAdded, Linked, EmailTaken;
    var body := CreateBody(b, pu);
    if IsBootstrapAdmin(b, pu.email) || !b.devFallback {
      var role := if IsBootstrapAdmin(b, pu.email) then PlatformAdmin else PlatformMember;
      InsertOutcome(b, pu, role, CREATE_LIMIT, db, envs, i + 1);
    } else {
      var (_, counted) := Exec(db, CountUsers, envs(i + 1));
      if counted.Affected? {
        var role := if counted.rows == 0 then PlatformAdmin else PlatformMember;
        assert body.next(counted) == InsertBody(pu, role);
        assert RunDirect(body, CREATE_LIMIT, db, envs, i + 1) == RunDirect(InsertBody(pu, role), 2, db, envs, i + 2);
        InsertOutcome(b, pu, role, 2, db, envs, i + 2);
      }
    }
  }

  lemma LinkedGrows(db: Db, after: Db, account: OAuthAccount)
    requires after.links == Linked(db.links, account)
    requires after.users == db.users
    ensures Grows(db, after)
  {
  }

  lemma AddedGrows(b: BootstrapConfig, db: Db, after: Db, u: User, account: OAuthAccount)
    requires RowAdded(b, db, after, u)
    requires after.links == Linked(db.links, account)
    ensures Grows(db, after) && Snapshot(after, u)
  {
  }

  // What one step of a login guarantees, however its call turns out.
  ghost predicate StepGood(cfg: Config, db: Db, pc: LoginPc, after: (Db, LoginPc)) {
    var (db', pc') := after;
    && Grows(db, db') && LocalOk(cfg, db', pc') && db'.tokens == db.tokens
    && (if pc.CreateUser? && pc'.Done? && pc'.result.Ok? then RowAdded(cfg.bootstrap, db, db', pc'.result.value)
        else RowsKept(cfg.bootstrap, db, db'))
  }

  lemma UpsertStepKeeps(cfg: Config, db: Db, pc: LoginPc, envs: nat -> Env, i: nat)
    requires LocalOk(cfg, db, pc) && (pc.Retoken? || pc.AddLink?)
    ensures StepGood(cfg, db, pc, LoginStep(cfg, db, pc, envs, i))
  {
    var a := if pc.Retoken? then WithTokens(pc.account, pc.pu) else BuildOAuthAccount(pc.user.id, pc.pu);
    UpsertEffect(db, a, envs(i));
    var db' := LoginStep(cfg, db, pc, envs, i).0;
    if db' != db {
      LinkedGrows(db, db', a);
    }
  }

  lemma UpgradeStepKeeps(cfg: Config, db: Db, pc: LoginPc, envs: nat -> Env, i: nat)
    requires LocalOk(cfg, db, pc) && pc.Upgrade?
    ensures StepGood(cfg, db, pc, LoginStep(cfg, db, pc, envs, i))
  {
    UpdateEffect(cfg.bootstrap, db, pc.user, envs(i));
  }

  lemma CreateStepKeeps(cfg: Config, db: Db, pc: LoginPc, envs: nat -> Env, i: nat)
    requires LocalOk(cfg, db, pc) && pc.CreateUser?
    ensures StepGood(cfg, db, pc, LoginStep(cfg, db, pc, envs, i))
  {
    var (db', pc') := LoginStep(cfg, db, pc, envs, i);
    CreateOutcome(cfg.bootstrap, pc.pu, db, envs, i);
    if pc'.result.Ok? {
      AddedGrows(cfg.bootstrap, db, db', pc'.result.value, BuildOAuthAccount(pc'.result.value.id, pc.pu));
    }
  }

  // One login step, with anything done by others before it: the tables grow, the
  // refresh tokens stay, and what the login relies on next holds.
  lemma {:induction false} StepKeeps(cfg: Config, db: Db, pc: LoginPc, envs: nat -> Env, i: nat)
    requires LocalOk(cfg, db, pc)
    ensures StepGood(cfg, db, pc, LoginStep(cfg, db, pc, envs, i))
  {
    hide UpsertLinkRow, UpdateUserRow, Transact;
    match pc
    case Retoken(_, _, _) => UpsertStepKeeps(cfg, db, pc, envs, i);
    case AddLink(_, _) => UpsertStepKeeps(cfg, db, pc, envs, i);
    case Upgrade(_, _, _) => UpgradeStepKeeps(cfg, db, pc, envs, i);
    case CreateUser(_) => CreateStepKeeps(cfg, db, pc, envs, i);
    case _ =>
  }
}

// Logins that do not overlap, with a failure possible at every repository call.
module SequentialLogins {
  import opened Domain
  import opened Tables
  import opened Transactions
  import opened Resolver
  import opened Logins

  ghost predicate EveryUserLinked(db: Tables) {
    forall id :: id in db.users ==> exists k :: k in db.links && db.links[k].userId == id
  }

  // An empty string is stored as no token at all.
  ghost predicate StoredAs(stored: Option<string>, sent: string) {
    if sent == "" then stored == None else stored == Some(sent)
  }

  // The link of this identity points to the user and carries this login's tokens.
  ghost predicate Fulfilled(db: Tables, pu: ProviderUser, id: Uuid) {
    && pu.key in db.links
    && var link := db.links[pu.key];
    && link.userId == id && link.tokenExpiry == pu.tokenExpiry
    && StoredAs(link.accessToken, pu.accessToken) && StoredAs(link.refreshToken, pu.refreshToken)
  }

  // The record is the user's row.
  ghost predicate IsRow(db: Tables, user: User) {
    user.id in db.users && db.users[user.id] == user
  }

  // What a login for pu knows at pc when nothing has come between its steps.
  ghost predicate Alone(db: Tables, pc: LoginPc, pu: ProviderUser) {
    match pc
    case FindLink(p) => p == pu
    case LoadOwner(p, account) => p == pu && pu.key in db.links && account == db.links[pu.key]
    case Retoken(p, account, user) =>
      p == pu && pu.key in db.links && account == db.links[pu.key] && user.id == account.userId && IsRow(db, user)
    case Upgrade(p, user, linked) =>
      && p == pu && user.id in db.users && user == db.users[user.id].(role := PlatformAdmin)
      && if linked then Fulfilled(db, pu, user.id) else pu.key !in db.links
    case FindEmail(p) => p == pu && pu.key !in db.links
    case AddLink(p, user) => p == pu && pu.key !in db.links && IsRow(db, user)
    case CreateUser(p) =>
      p == pu && pu.key !in db.links && forall id :: id in db.users ==> db.users[id].email != pu.email
    case Done(r) => r.Ok? ==> Fulfilled(db, pu, r.value.id) && IsRow(db, r.value)
  }

  // The email of the link of pu: as it was, or the one the provider reported.
  ghost predicate LinkEmail(db: Tables, db': Tables, pu: ProviderUser) {
    pu.key in db'.links ==>
      db'.links[pu.key].email == if pu.key in db.links then db.links[pu.key].email else pu.email
  }

  ghost predicate SameKeys(a: Tables, b: Tables) {
    a.users.Keys == b.users.Keys && a.links.Keys == b.links.Keys
  }

  lemma LinkingKeeps(db: Db, after: Db, account: OAuthAccount)
    requires EveryUserLinked(db)
    requires after.links == Linked(db.links, account) && after.users == db.users
    ensures EveryUserLinked(after)
  {
    forall id | id in after.users ensures exists k :: k in after.links && after.links[k].userId == id {
      var k :| k in db.links && db.links[k].userId == id;
      assert after.links[k].userId == id;
    }
  }

  lemma AddingKeeps(b: BootstrapConfig, db: Db, after: Db, u: User, account: OAuthAccount)
    requires EveryUserLinked(db) && RowAdded(b, db, after, u)
    requires account.key !in db.links && account.userId == u.id
    requires after.links == Linked(db.links, account)
    ensures EveryUserLinked(after)
  {
    forall id | id in after.users ensures exists k :: k in after.links && after.links[k].userId == id {
      if id == u.id {
        assert after.links[account.key].userId == id;
      } else {
        var k :| k in db.links && db.links[k].userId == id;
        assert after.links[k].userId == id;
      }
    }
  }

  // What an uninterrupted step keeps for a login for pu.
  ghost predicate AloneGood(db: Db, pu: ProviderUser, after: (Db, LoginPc)) {
    && EveryUserLinked(after.0) && Alone(after.0, after.1, pu)
    && (pu.key in db.links ==> SameKeys(db, after.0)) && LinkEmail(db, after.0, pu)
  }

  lemma AloneRetoken(cfg: Config, db: Db, pc: LoginPc, pu: ProviderUser, envs: nat -> Env, i: nat)
    requires Alone(db, pc, pu) && EveryUserLinked(db) && pc.Retoken? && pc.account.key == pu.key
    ensures AloneGood(db, pu, LoginStep(cfg, db, pc, envs, i))
  {
    hide UpsertLinkCall, EveryUserLinked, Constraints;
    var a := WithTokens(pc.account, pu);
    UpsertEffect(db, a, envs(i));
    if UpsertLinkCall(db, a, envs(i)).1.LinkRow? {
      LinkingKeeps(db, LoginStep(cfg, db, pc, envs, i).0, a);
    }
  }

  lemma AloneAddLink(cfg: Config, db: Db, pc: LoginPc, pu: ProviderUser, envs: nat -> Env, i: nat)
    requires Alone(db, pc, pu) && EveryUserLinked(db) && pc.AddLink?
    ensures AloneGood(db, pu, LoginStep(cfg, db, pc, envs, i))
  {
    hide UpsertLinkCall, EveryUserLinked, Constraints;
    var a := BuildOAuthAccount(pc.user.id, pu);
    UpsertEffect(db, a, envs(i));
    if UpsertLinkCall(db, a, envs(i)).1.LinkRow? {
      LinkingKeeps(db, LoginStep(cfg, db, pc, envs, i).0, a);
    }
  }

  lemma AloneCreate(cfg: Config, db: Db, pc: LoginPc, pu: ProviderUser, envs: nat -> Env, i: nat)
    requires cfg.miss.NilOnMiss? && LocalOk(cfg, db, pc) && Alone(db, pc, pu) && EveryUserLinked(db)
    requires pc.CreateUser?
    ensures AloneGood(db, pu, LoginStep(cfg, db, pc, envs, i))
  {
    hide EveryUserLinked, Constraints, Transact;
    CreateOutcome(cfg.bootstrap, pu, db, envs, i);
    var (db', pc') := LoginStep(cfg, db, pc, envs, i);
    if pc'.result.Ok? {
      AddingKeeps(cfg.bootstrap, db, db', pc'.result.value, BuildOAuthAccount(pc'.result.value.id, pu));
    }
  }

  lemma AloneUpgrade(cfg: Config, db: Db, pc: LoginPc, pu: ProviderUser, envs: nat -> Env, i: nat)
    requires cfg.miss.NilOnMiss? && LocalOk(cfg, db, pc) && Alone(db, pc, pu) && EveryUserLinked(db)
    requires pc.Upgrade?
    ensures AloneGood(db, pu, LoginStep(cfg, db, pc, envs, i))
  {
    hide Constraints, UpdateUserCall;
    UpdateEffect(cfg.bootstrap, db, pc.user, envs(i));
  }

  lemma AloneFindLink(cfg: Config, db: Db, pu: ProviderUser, envs: nat -> Env, i: nat)
    requires cfg.miss.NilOnMiss? && EveryUserLinked(db)
    ensures AloneGood(db, pu, LoginStep(cfg, db, FindLink(pu), envs, i))
  {
    hide EveryUserLinked, Constraints;
  }

  lemma AloneLoadOwner(cfg: Config, db: Db, pu: ProviderUser, envs: nat -> Env, i: nat)
    requires EveryUserLinked(db) && pu.key in db.links
    ensures AloneGood(db, pu, LoginStep(cfg, db, LoadOwner(pu, db.links[pu.key]), envs, i))
  {
  }

  lemma AloneFindEmail(cfg: Config, db: Db, pu: ProviderUser, envs: nat -> Env, i: nat)
    requires cfg.miss.NilOnMiss? && EveryUserLinked(db) && pu.key !in db.links
    ensures AloneGood(db, pu, LoginStep(cfg, db, FindEmail(pu), envs, i))
  {
    hide EveryUserLinked;
  }

  lemma AloneStep(cfg: Config, db: Db, pc: LoginPc, pu: ProviderUser, envs: nat -> Env, i: nat)
    requires cfg.miss.NilOnMiss? && LocalOk(cfg, db, pc) && Alone(db, pc, pu) && EveryUserLinked(db)
    ensures AloneGood(db, pu, LoginStep(cfg, db, pc, envs, i))
  {
    hide EveryUserLinked, SelectLinkCall, SelectUserCall, SelectUserByEmailCall, UpsertLinkCall, UpdateUserCall,
      Transact;
    if pc.Retoken? {
      AloneRetoken(cfg, db, pc, pu, envs, i);
    } else if pc.AddLink? {
      AloneAddLink(cfg, db, pc, pu, envs, i);
    } else if pc.CreateUser? {
      AloneCreate(cfg, db, pc, pu, envs, i);
    } else if pc.Upgrade? {
      AloneUpgrade(cfg, db, pc, pu, envs, i);
    } else if pc.FindLink? {
      AloneFindLink(cfg, db, pu, envs, i);
    } else if pc.LoadOwner? {
      AloneLoadOwner(cfg, db, pu, envs, i);
    } else if pc.FindEmail? {
      AloneFindEmail(cfg, db, pu, envs, i);
    }
  }

  // What a whole login for pu from db guarantees about its outcome: users stay
  // linked, and a success leaves the identity's link on the returned user, whose
  // record is the row as it is then.
  ghost predicate LoginGood(db: Db, pu: ProviderUser, outcome: (Db, Result<User>)) {
    var (db', r) := outcome;
    && EveryUserLinked(db') && Grows(db, db') && db'.tokens == db.tokens
    && (r.Ok? ==> Fulfilled(db', pu, r.value.id) && IsRow(db', r.value))
    && (pu.key in db.links ==> SameKeys(db, db')) && LinkEmail(db, db', pu)
  }

  lemma LoginGoodExtends(db: Db, mid: Db, pu: ProviderUser, outcome: (Db, Result<User>))
    requires Grows(db, mid) && mid.tokens == db.tokens && (pu.key in db.links ==> SameKeys(db, mid))
    requires LinkEmail(db, mid, pu)
    requires LoginGood(mid, pu, outcome)
    ensures LoginGood(db, pu, outcome)
  {
    GrowsTransitive(db, mid, outcome.0);
  }

  lemma Unrolled(cfg: Config, db: Db, pc: LoginPc, envs: nat -> Env, i: nat)
    requires !pc.Done?
    ensures var (db', pc') := LoginStep(cfg, db, pc, envs, i);
      RunLogin(cfg, db, pc, envs, i) == RunLogin(cfg, db', pc', envs, i + 1) && Rank(pc') < Rank(pc)
  {
    hide Constraints, Transact, UpsertLinkRow, UpdateUserRow, EmailAnswer;
  }

  lemma BothGood(cfg: Config, db: Db, pc: LoginPc, pu: ProviderUser, db': Db, pc': LoginPc)
    requires StepGood(cfg, db, pc, (db', pc')) && AloneGood(db, pu, (db', pc'))
    ensures LocalOk(cfg, db', pc') && Alone(db', pc', pu) && EveryUserLinked(db')
    ensures Grows(db, db') && db'.tokens == db.tokens && (pu.key in db.links ==> SameKeys(db, db'))
    ensures LinkEmail(db, db', pu)
  {
  }

  // One step of an uninterrupted login, with all it keeps.
  lemma NextStep(cfg: Config, db: Db, pc: LoginPc, pu: ProviderUser, envs: nat -> Env, i: nat)
    returns (db': Db, pc': LoginPc)
    requires cfg.miss.NilOnMiss? && LocalOk(cfg, db, pc) && Alone(db, pc, pu) && EveryUserLinked(db) && !pc.Done?
    ensures RunLogin(cfg, db, pc, envs, i) == RunLogin(cfg, db', pc', envs, i + 1) && Rank(pc') < Rank(pc)
    ensures LocalOk(cfg, db', pc') && Alone(db', pc', pu) && EveryUserLinked(db')
    ensures Grows(db, db') && db'.tokens == db.tokens && (pu.key in db.links ==> SameKeys(db, db'))
    ensures LinkEmail(db, db', pu)
  {
    Unrolled(cfg, db, pc, envs, i);
    StepKeeps(cfg, db, pc, envs, i);
    AloneStep(cfg, db, pc, pu, envs, i);
    var after := LoginStep(cfg, db, pc, envs, i);
    db', pc' := after.0, after.1;
    BothGood(cfg, db, pc, pu, db', pc');
  }

  lemma DoneGood(db: Db, pu: ProviderUser, r: Result<User>)
    requires EveryUserLinked(db)
    requires r.Ok? ==> Fulfilled(db, pu, r.value.id) && IsRow(db, r.value)
    ensures LoginGood(db, pu, (db, r))
  {
  }

  lemma {:induction false} WholeLogin(cfg: Config, db: Db, pc: LoginPc, pu: ProviderUser, envs: nat -> Env, i: nat)
    requires cfg.miss.NilOnMiss? && LocalOk(cfg, db, pc) && Alone(db, pc, pu) && EveryUserLinked(db)
    ensures LoginGood(db, pu, RunLogin(cfg, db, pc, envs, i))
    decreases Rank(pc)
  {
    if pc.Done? {
      DoneGood(db, pu, pc.result);
    } else {
      var db', pc' := NextStep(cfg, db, pc, pu, envs, i);
      WholeLogin(cfg, db', pc', pu, envs, i + 1);
      LoginGoodExtends(db, db', pu, RunLogin(cfg, db', pc', envs, i + 1));
    }
  }

  // A login attempt, or an administrator's soft delete.
  datatype Visit = Attempt(pu: ProviderUser, envs: nat -> Env) | Remove(id: Uuid, at: Time, env: Env)

  function Visited(cfg: Config, db: Db, v: Visit): Db {
    match v
    case Attempt(pu, envs) => RunLogin(cfg, db, Start(pu), envs, 0).0
    case Remove(id, at, env) => SoftDeleteUserCall(db, id, at, env).0
  }

  function AfterVisits(cfg: Config, db: Db, visits: seq<Visit>): Db {
    if visits == [] then db
    else Visited(cfg, AfterVisits(cfg, db, visits[..|visits| - 1]), visits[|visits| - 1])
  }

  lemma SoftDeleteKeeps(db: Db, id: Uuid, at: Time, env: Env)
    ensures var db' := SoftDeleteUserCall(db, id, at, env).0;
      && Grows(db, db') && db'.links == db.links && db'.tokens == db.tokens && db'.users.Keys == db.users.Keys
      && (forall u :: u in db.users ==> db'.users[u].role == db.users[u].role)
      && (!env.down && id in db.users ==> db'.users[id].deletedAt == Some(at))
  {
    if !env.down && id in db.users {
      SoftDeleteRowKeeps(db, db.users[id].(deletedAt := Some(at)));
    }
  }

  lemma SoftDeleteRowKeeps(db: Db, row: User)
    requires row.id in db.users && row == db.users[row.id].(deletedAt := row.deletedAt) && row.deletedAt.Some?
    ensures var users := db.users[row.id := row];
      && users.Keys == db.users.Keys
      && Grows(db, db.(users := users))
      && forall u :: u in db.users ==> users[u].role == db.users[u].role
  {
  }

  // In any sequence of logins from linked tables, whatever calls fail, every user
  // row owns at least one link.
  lemma {:induction false} UsersStayLinked(cfg: Config, db: Db, visits: seq<Visit>)
    requires cfg.miss.NilOnMiss? && EveryUserLinked(db)
    ensures EveryUserLinked(AfterVisits(cfg, db, visits)) && Grows(db, AfterVisits(cfg, db, visits))
  {
    if visits != [] {
      var last := visits[|visits| - 1];
      var before := AfterVisits(cfg, db, visits[..|visits| - 1]);
      UsersStayLinked(cfg, db, visits[..|visits| - 1]);
      match last
      case Attempt(pu, envs) =>
        WholeLogin(cfg, before, Start(pu), pu, envs, 0);
        GrowsTransitive(db, before, Visited(cfg, before, last));
      case Remove(id, at, env) =>
        SoftDeleteKeeps(before, id, at, env);
        GrowsTransitive(db, before, Visited(cfg, before, last));
        var after := Visited(cfg, before, last);
        assert after.links == before.links;
    }
  }

  lemma EveryUserOwnsALink(cfg: Config, visits: seq<Visit>)
    requires cfg.miss.NilOnMiss?
    ensures EveryUserLinked(AfterVisits(cfg, EMPTY, visits))
  {
    UsersStayLinked(cfg, EMPTY, visits);
  }

  // A login of someone new that fails, at whichever call, leaves all tables as they were.
  lemma FailedNewLoginChangesNothing(cfg: Config, db: Db, pu: ProviderUser, envs: nat -> Env)
    requires pu.key !in db.links && forall id :: id in db.users ==> db.users[id].email != pu.email
    requires cfg.miss.NilOnMiss?
    ensures var (db', r) := RunLogin(cfg, db, Start(pu), envs, 0);
      r.Err? ==> db' == db
  {
    hide Constraints, Transact, EmailTaken;
    if pu.email != "" {
      var pc1 := LoginStep(cfg, db, FindLink(pu), envs, 0).1;
      assert RunLogin(cfg, db, FindLink(pu), envs, 0) == RunLogin(cfg, db, pc1, envs, 1);
      if pc1 == FindEmail(pu) {
        var pc2 := LoginStep(cfg, db, pc1, envs, 1).1;
        assert RunLogin(cfg, db, pc1, envs, 1) == RunLogin(cfg, db, pc2, envs, 2);
        if pc2 == CreateUser(pu) {
          CreateOutcome(cfg.bootstrap, pu, db, envs, 2);
          var (db3, pc3) := LoginStep(cfg, db, pc2, envs, 2);
          assert RunLogin(cfg, db, pc2, envs, 2) == RunLogin(cfg, db3, pc3, envs, 3);
        }
      }
    }
  }

  // Once an identity has signed in, it is that user for good: any later success,
  // after any other visits and with any email, returns the same user and adds no row.
  lemma ResolutionIsStable(cfg: Config, db: Db, first: ProviderUser, envs: nat -> Env, visits: seq<Visit>,
                           later: ProviderUser, envs': nat -> Env)
    requires cfg.miss.NilOnMiss? && EveryUserLinked(db)
    requires later.key == first.key
    requires RunLogin(cfg, db, Start(first), envs, 0).1.Ok?
    ensures
      var (db1, r1) := RunLogin(cfg, db, Start(first), envs, 0);
      var db2 := AfterVisits(cfg, db1, visits);
      var (db3, r2) := RunLogin(cfg, db2, Start(later), envs', 0);
      && Fulfilled(db1, first, r1.value.id)
      && first.key in db2.links && db2.links[first.key].userId == r1.value.id
      && (r2.Ok? ==> r2.value.id == r1.value.id)
      && SameKeys(db2, db3)
  {
    var (db1, r1) := RunLogin(cfg, db, Start(first), envs, 0);
    WholeLogin(cfg, db, Start(first), first, envs, 0);
    UsersStayLinked(cfg, db1, visits);
    var db2 := AfterVisits(cfg, db1, visits);
    assert first.key in db2.links && db2.links[first.key].userId == r1.value.id;
    LaterLogin(cfg, db2, later, envs');
  }

  // A login of a known identity answers with the owner of its link, or fails.
  lemma LaterLogin(cfg: Config, db: Db, pu: ProviderUser, envs: nat -> Env)
    requires cfg.miss.NilOnMiss? && EveryUserLinked(db) && pu.key in db.links
    ensures var (db', r) := RunLogin(cfg, db, Start(pu), envs, 0);
      && (r.Ok? ==> r.value.id == db.links[pu.key].userId)
      && SameKeys(db, db')
  {
    WholeLogin(cfg, db, Start(pu), pu, envs, 0);
  }

  lemma LinksOfNewUser(b: BootstrapConfig, db: Db, db': Db, u: User, account: OAuthAccount)
    requires RowAdded(b, db, db', u) && account.userId == u.id && db'.links == Linked(db.links, account)
    ensures (exists k :: k in db'.links && db'.links[k].userId == u.id) <==> account.key !in db.links
  {
    if account.key in db.links {
      assert forall k :: k in db'.links ==> k in db.links && db'.links[k].userId == db.links[k].userId;
    } else {
      assert account.key in db'.links && db'.links[account.key].userId == u.id;
    }
  }

  // Why the logins must not overlap: a login that created a user gave it a link
  // exactly if nobody had linked the identity since it looked.
  lemma {:induction false} NewUserLinkedExactly(cfg: Config, db: Db, pu: ProviderUser, envs: nat -> Env, i: nat)
    ensures var (db', pc) := LoginStep(cfg, db, CreateUser(pu), envs, i);
      pc.Done? && (pc.result.Ok? ==>
        ((exists k :: k in db'.links && db'.links[k].userId == pc.result.value.id) <==> pu.key !in db.links))
  {
    hide Transact, Constraints, RowAdded, Linked;
    CreateOutcome(cfg.bootstrap, pu, db, envs, i);
    var (db', pc) := LoginStep(cfg, db, CreateUser(pu), envs, i);
    if pc.result.Ok? {
      LinksOfNewUser(cfg.bootstrap, db, db', pc.result.value, BuildOAuthAccount(pc.result.value.id, pu));
    }
  }
}

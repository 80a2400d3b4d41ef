// The designated admin: whoever signs in with that email is an administrator from
// then on, and nobody's role changes otherwise.
module Designated {
  import opened Domain
  import opened Tables
  import opened Transactions
  import opened Resolver
  import opened Logins
  import opened Sessions
  import opened Service
  import opened Authority
  import SequentialLogins
  import TokenRuns

  // --- Steps of a login, whatever comes between them ---

  // If the record has the configured email, it is an admin's.
  predicate Promoted(b: BootstrapConfig, user: User) {
    b.adminEmail != "" && user.email == b.adminEmail ==> user.role == PlatformAdmin
  }

  // From the upgrade on, a login carries a promoted record.
  predicate Carries(b: BootstrapConfig, pc: LoginPc) {
    match pc
    case Upgrade(_, user, _) => Promoted(b, user)
    case AddLink(_, user) => Promoted(b, user)
    case Done(r) => r.Ok? ==> Promoted(b, r.value)
    case _ => true
  }

  // A role changes only upwards, and only for the row with the configured email.
  ghost predicate OnlyPromotes(b: BootstrapConfig, db: Tables, db': Tables) {
    forall id {:trigger db'.users[id]} {:trigger db.users[id]} :: id in db.users ==>
      && id in db'.users && db'.users[id].email == db.users[id].email
      && (db'.users[id].role == db.users[id].role
          || (b.adminEmail != "" && db.users[id].email == b.adminEmail && db'.users[id].role == PlatformAdmin))
  }

  lemma PromotesTransitive(b: BootstrapConfig, x: Tables, y: Tables, z: Tables)
    requires OnlyPromotes(b, x, y) && OnlyPromotes(b, y, z)
    ensures OnlyPromotes(b, x, z)
  {
    assert forall id :: id in x.users ==> id in y.users && id in z.users;
  }

  lemma UpgradePromotes(cfg: Config, db: Db, pc: LoginPc, envs: nat -> Env, i: nat)
    requires LocalOk(cfg, db, pc) && pc.Upgrade?
    ensures OnlyPromotes(cfg.bootstrap, db, LoginStep(cfg, db, pc, envs, i).0)
  {
    hide Constraints, UpdateUserCall;
    UpdateEffect(cfg.bootstrap, db, pc.user, envs(i));
  }

  lemma CreatePromotes(cfg: Config, db: Db, pc: LoginPc, envs: nat -> Env, i: nat)
    requires pc.CreateUser?
    ensures var (db', pc') := LoginStep(cfg, db, pc, envs, i);
      OnlyPromotes(cfg.bootstrap, db, db') && Carries(cfg.bootstrap, pc')
  {
    hide Constraints, Transact, Linked, EmailTaken;
    CreateOutcome(cfg.bootstrap, pc.pu, db, envs, i);
  }

  lemma UpsertPromotes(cfg: Config, db: Db, pc: LoginPc, envs: nat -> Env, i: nat)
    requires (pc.Retoken? || pc.AddLink?) && Carries(cfg.bootstrap, pc)
    ensures var (db', pc') := LoginStep(cfg, db, pc, envs, i);
      db'.users == db.users && Carries(cfg.bootstrap, pc')
  {
    hide Constraints, UpsertLinkCall;
    var a := if pc.Retoken? then WithTokens(pc.account, pc.pu) else BuildOAuthAccount(pc.user.id, pc.pu);
    UpsertEffect(db, a, envs(i));
  }

  // One step, on any tables, with anything done by others before it.
  lemma {:induction false} StepPromotes(cfg: Config, db: Db, pc: LoginPc, envs: nat -> Env, i: nat)
    requires LocalOk(cfg, db, pc) && Carries(cfg.bootstrap, pc)
    ensures var (db', pc') := LoginStep(cfg, db, pc, envs, i);
      OnlyPromotes(cfg.bootstrap, db, db') && Carries(cfg.bootstrap, pc')
  {
    hide Constraints, LocalOk, SelectLinkCall, SelectUserCall, SelectUserByEmailCall, UpsertLinkCall, UpdateUserCall,
      Transact;
    match pc
    case CreateUser(_) => CreatePromotes(cfg, db, pc, envs, i);
    case Upgrade(_, _, _) => UpgradePromotes(cfg, db, pc, envs, i);
    case Retoken(_, _, _) => UpsertPromotes(cfg, db, pc, envs, i);
    case AddLink(_, _) => UpsertPromotes(cfg, db, pc, envs, i);
    case _ =>
  }

  // --- Logins left alone ---

  lemma {:induction false} LoginPromotes(cfg: Config, db: Db, pc: LoginPc, envs: nat -> Env, i: nat)
    requires LocalOk(cfg, db, pc) && Carries(cfg.bootstrap, pc)
    ensures var (db', r) := RunLogin(cfg, db, pc, envs, i);
      && OnlyPromotes(cfg.bootstrap, db, db')
      && (r.Ok? ==> Promoted(cfg.bootstrap, r.value) && Snapshot(db', r.value))
    decreases Rank(pc)
  {
    hide LoginStep, LocalOk, Constraints, RowsKept, RowAdded, Grows, OnlyPromotes;
    if pc.Done? {
      DonePromotes(cfg, db, pc);
    } else {
      SequentialLogins.Unrolled(cfg, db, pc, envs, i);
      StepKeeps(cfg, db, pc, envs, i);
      StepPromotes(cfg, db, pc, envs, i);
      var after := LoginStep(cfg, db, pc, envs, i);
      LoginPromotes(cfg, after.0, after.1, envs, i + 1);
      PromotesTransitive(cfg.bootstrap, db, after.0, RunLogin(cfg, after.0, after.1, envs, i + 1).0);
    }
  }

  lemma DonePromotes(cfg: Config, db: Db, pc: LoginPc)
    requires LocalOk(cfg, db, pc) && pc.Done?
    ensures OnlyPromotes(cfg.bootstrap, db, db) && (pc.result.Ok? ==> Snapshot(db, pc.result.value))
  {
  }

  // Whatever the tables and whichever calls fail: a login that succeeds for the
  // configured email makes an admin of that user, in the answer and in the table,
  // however it came to be a member; and no other role in the table changes.
  lemma {:induction false} DesignatedSignsInAsAdmin(cfg: Config, db: Db, pu: ProviderUser, envs: nat -> Env)
    ensures var (db', r) := RunLogin(cfg, db, Start(pu), envs, 0);
      && (r.Ok? && cfg.bootstrap.adminEmail != "" && r.value.email == cfg.bootstrap.adminEmail ==>
            r.value.role == PlatformAdmin && r.value.id in db'.users && db'.users[r.value.id].role == PlatformAdmin)
      && (forall id | id in db.users ::
            && id in db'.users
            && (db'.users[id].role == db.users[id].role
                || (cfg.bootstrap.adminEmail != "" && db.users[id].email == cfg.bootstrap.adminEmail)))
  {
    hide RunLogin, Constraints;
    TokenRuns.StartOk(cfg, db, pu);
    LoginPromotes(cfg, db, Start(pu), envs, 0);
  }

  // --- Every interleaving ---

  ghost predicate AllCarry(b: BootstrapConfig, s: State) {
    forall tid {:trigger s.requests[tid]} :: tid in s.requests ==>
      match s.requests[tid]
      case LoggingIn(_, pc) => Carries(b, pc)
      case LoggedIn(_, user, _) => Promoted(b, user)
      case _ => true
  }

  lemma AdvanceCarries(srv: TokenRuns.Server, s: State, tid: nat, envs: nat -> Env, entropy: Option<string>)
    requires Coherent(srv, s) && AllCarry(srv.cfg.bootstrap, s)
    ensures AllCarry(srv.cfg.bootstrap, DoAdvance(srv, s, tid, envs, entropy))
  {
    hide Constraints, LoginStep, IssueStep, RefreshStep, LocalOk, Note, Sight, OnlyPromotes, DrawsOk;
    if tid in s.requests && s.requests[tid].LoggingIn? {
      assert RequestOk(srv, s.db, s.log.draws, tid, s.requests[tid]);
      StepPromotes(srv.cfg, s.db, s.requests[tid].login, envs, 0);
    }
  }

  lemma NextCarries(srv: TokenRuns.Server, s: State, a: Action)
    requires Coherent(srv, s) && AllCarry(srv.cfg.bootstrap, s)
    ensures AllCarry(srv.cfg.bootstrap, Next(srv, s, a))
  {
    hide Constraints, Coherent, DoAdvance, Kill, DeleteTokensOfCall, MarkTokenUsedCall, DeleteTokensBeforeCall,
      SoftDeleteUserCall, Promoted;
    match a
    case Advance(tid, envs, entropy) => AdvanceCarries(srv, s, tid, envs, entropy);
    case Tick(_) =>
    case Begin(_) =>
    case Callback(_, _, _) =>
    case AskRefresh(_, _) =>
    case Revoke(_, _) =>
    case MarkUsed(_, _) =>
    case Purge(_, _) =>
    case SoftDelete(_, _) =>
  }

  lemma {:induction false} RunCarries(srv: TokenRuns.Server, t0: Time, actions: seq<Action>)
    ensures AllCarry(srv.cfg.bootstrap, Run(srv, t0, actions))
  {
    hide Next, Coherent;
    if actions != [] {
      hide AllCarry;
      RunCarries(srv, t0, actions[..|actions| - 1]);
      RunCoherent(srv, t0, actions[..|actions| - 1]);
      NextCarries(srv, Run(srv, t0, actions[..|actions| - 1]), actions[|actions| - 1]);
    }
  }

  // In every interleaving, a login that has succeeded for the configured email is an
  // admin's, and so is the row of that user from then on.
  lemma {:induction false} DesignatedIsAdminThroughout(srv: TokenRuns.Server, t0: Time, actions: seq<Action>, tid: nat)
    requires srv.cfg.bootstrap.adminEmail != ""
    ensures var s := Run(srv, t0, actions);
      tid in s.requests && s.requests[tid].LoggedIn? && s.requests[tid].user.email == srv.cfg.bootstrap.adminEmail ==>
        var u := s.requests[tid].user;
        u.role == PlatformAdmin && u.id in s.db.users && s.db.users[u.id].role == PlatformAdmin
  {
    hide Run, Constraints;
    RunCarries(srv, t0, actions);
    RunCoherent(srv, t0, actions);
    var s := Run(srv, t0, actions);
    if tid in s.requests && s.requests[tid].LoggedIn? {
      assert RequestOk(srv, s.db, s.log.draws, tid, s.requests[tid]);
    }
  }
}

// New users under the isolation the code asks for, where the row count a
// transaction reads is not locked until it commits: when two logins both become
// administrators by the fallback.
module Isolation {
  import opened Domain
  import opened Tables
  import opened Transactions
  import opened Resolver
  import opened Logins
  import opened Statements
  import Cases
  import Misses
  import SequentialLogins

  // --- The transaction in two steps ---

  // Begin, and settle the role; also the index of the next call.
  function Decide(b: BootstrapConfig, db: Db, pu: ProviderUser, envs: nat -> Env, i: nat): (Result<UserRole>, nat) {
    if envs(i).down then (Err(Unavailable), i + 1)
    else if IsBootstrapAdmin(b, pu.email) then (Ok(PlatformAdmin), i + 1)
    else if !b.devFallback then (Ok(PlatformMember), i + 1)
    else if envs(i + 1).down then (Err(Unavailable), i + 2)
    else (Ok(if |db.users| == 0 then PlatformAdmin else PlatformMember), i + 2)
  }

  // Insert the user and the link with that role, and commit.
  function Commit(db: Db, pu: ProviderUser, role: UserRole, envs: nat -> Env, j: nat): (Db, Result<User>) {
    var (db', r, k) := RunDirect(InsertBody(pu, role), 2, db, envs, j);
    if r.Err? then (db, r) else if envs(k).down then (db, Err(Unavailable)) else (db', r)
  }

  // With nothing in between, the two steps are the transaction of case 3.
  lemma TwoStepsAreTheTransaction(b: BootstrapConfig, db: Db, pu: ProviderUser, envs: nat -> Env, i: nat)
    ensures var (role, j) := Decide(b, db, pu, envs, i);
      Transact(CreateBody(b, pu), CREATE_LIMIT, db, envs, i) ==
      if role.Err? then (db, Err(role.error)) else Commit(db, pu, role.value, envs, j)
  {
    hide Constraints, InsertUserCall, UpsertLinkCall;
    var body := CreateBody(b, pu);
    if !IsBootstrapAdmin(b, pu.email) && b.devFallback {
      CountedBody(b, db, pu, envs, i + 1);
    } else {
      LimitIsAmple(pu, if IsBootstrapAdmin(b, pu.email) then PlatformAdmin else PlatformMember, db, envs, i + 1);
    }
  }

  lemma CountedBody(b: BootstrapConfig, db: Db, pu: ProviderUser, envs: nat -> Env, i: nat)
    requires !IsBootstrapAdmin(b, pu.email) && b.devFallback
    ensures RunDirect(CreateBody(b, pu), CREATE_LIMIT, db, envs, i) ==
      if envs(i).down then (db, Err(Unavailable), i + 1)
      else RunDirect(InsertBody(pu, if |db.users| == 0 then PlatformAdmin else PlatformMember), 2, db, envs, i + 1)
  {
    hide Constraints, InsertUserCall, UpsertLinkCall;
    var body := CreateBody(b, pu);
    var counted := Exec(db, CountUsers, envs(i)).1;
    assert RunDirect(body, CREATE_LIMIT, db, envs, i) == RunDirect(body.next(counted), 2, db, envs, i + 1);
  }

  // The insertion makes two statements, so a third is never reached.
  lemma LimitIsAmple(pu: ProviderUser, role: UserRole, db: Db, envs: nat -> Env, i: nat)
    ensures RunDirect(InsertBody(pu, role), CREATE_LIMIT, db, envs, i)
         == RunDirect(InsertBody(pu, role), 2, db, envs, i)
  {
    hide Constraints, InsertUserCall, UpsertLinkCall;
    var body := InsertBody(pu, role);
    var (db1, created) := Exec(db, body.statement, envs(i));
    if AsUser(created).Ok? {
      var rest := body.next(created);
      var (db2, linked) := Exec(db1, rest.statement, envs(i + 1));
      assert rest.next(linked).Return?;
    }
  }

  // --- Any number of such transactions ---

  // A login that has settled its role, at that step.
  datatype Settled = Settled(pu: ProviderUser, role: UserRole, at: nat)

  datatype State = State(
    db: Db,
    pending: map<nat, Settled>,
    made: map<Uuid, Settled>,     // who made each row
    first: Option<nat>,           // the step that committed the first row
    steps: nat)

  datatype Action =
    | Settle(tid: nat, pu: ProviderUser, envs: nat -> Env)
    | Finish(tid: nat, envs: nat -> Env)
    | Upgrade(id: Uuid, env: Env)             // a login of the designated admin
    | SoftDelete(id: Uuid, at: Time, env: Env)

  const START := State(EMPTY, map[], map[], None, 0)

  function DoSettle(b: BootstrapConfig, s: State, tid: nat, pu: ProviderUser, envs: nat -> Env): State {
    var role := Decide(b, s.db, pu, envs, 0).0;
    if tid in s.pending || role.Err? then s.(steps := s.steps + 1)
    else s.(steps := s.steps + 1, pending := s.pending[tid := Settled(pu, role.value, s.steps)])
  }

  function DoFinish(s: State, tid: nat, envs: nat -> Env): State {
    if tid !in s.pending then s.(steps := s.steps + 1)
    else
      var p := s.pending[tid];
      var (db', r) := Commit(s.db, p.pu, p.role, envs, 0);
      s.(db := db', pending := s.pending - {tid}, steps := s.steps + 1,
         made := if r.Ok? then s.made[r.value.id := p] else s.made,
         first := if r.Ok? && s.first.None? then Some(s.steps) else s.first)
  }

  function DoUpgrade(b: BootstrapConfig, s: State, id: Uuid, env: Env): State {
    if id !in s.db.users || !NeedsUpgrade(b, s.db.users[id]) then s.(steps := s.steps + 1)
    else s.(steps := s.steps + 1, db := UpdateUserCall(s.db, s.db.users[id].(role := PlatformAdmin), env).0)
  }

  function Next(b: BootstrapConfig, s: State, a: Action): State {
    match a
    case Settle(tid, pu, envs) => DoSettle(b, s, tid, pu, envs)
    case Finish(tid, envs) => DoFinish(s, tid, envs)
    case Upgrade(id, env) => DoUpgrade(b, s, id, env)
    case SoftDelete(id, at, env) => s.(steps := s.steps + 1, db := SoftDeleteUserCall(s.db, id, at, env).0)
  }

  function Run(b: BootstrapConfig, actions: seq<Action>): State {
    if actions == [] then START else Next(b, Run(b, actions[..|actions| - 1]), actions[|actions| - 1])
  }

  // A login of the designated admin makes an admin of a row that is none yet.
  lemma UpgradeTells(b: BootstrapConfig, s: State, id: Uuid, env: Env)
    requires id in s.db.users && !env.down && b.adminEmail != "" && s.db.users[id].email == b.adminEmail
    ensures var users := Next(b, s, Action.Upgrade(id, env)).db.users;
      && id in users && users[id].role == PlatformAdmin
      && forall u :: u in s.db.users && u != id ==> u in users && users[u] == s.db.users[u]
  {
    var row := s.db.users[id];
    assert row.id == id;
    if row.role != PlatformAdmin {
      hide Constraints, UpdateUserCall;
      UpdateUserTells(s.db, row.(role := PlatformAdmin), env);
      Cases.OnlyItsOwn(s.db, row);
    }
  }

  // --- What every interleaving keeps ---

  // The login settled its role while there was no row.
  predicate Early(s: State, p: Settled) {
    s.first.None? || p.at < s.first.value
  }

  // The role is that of the designated admin, or the fallback's for an early login.
  predicate Fair(b: BootstrapConfig, s: State, p: Settled) {
    p.at < s.steps &&
    (p.role == PlatformAdmin <==> IsBootstrapAdmin(b, p.pu.email) || (b.devFallback && Early(s, p)))
  }

  ghost predicate Explained(b: BootstrapConfig, s: State) {
    && s.made.Keys == s.db.users.Keys
    && (s.first.None? <==> s.db.users == map[])
    && (s.first.Some? ==> s.first.value < s.steps)
    && (forall tid {:trigger s.pending[tid]} :: tid in s.pending ==> Fair(b, s, s.pending[tid]))
    && (forall id {:trigger s.made[id]} {:trigger s.db.users[id]} :: id in s.made ==>
          && Fair(b, s, s.made[id]) && id in s.db.users && s.db.users[id].email == s.made[id].pu.email
          && (s.db.users[id].role == s.made[id].role || IsBootstrapAdmin(b, s.made[id].pu.email)))
  }

  lemma CommitEffect(b: BootstrapConfig, db: Db, p: Settled, envs: nat -> Env)
    ensures var (db', r) := Commit(db, p.pu, p.role, envs, 0);
      && (r.Err? ==> db' == db)
      && (r.Ok? ==> r.value.id == V4(envs(0).uuid) && r.value.id !in db.users
                    && r.value.email == p.pu.email && r.value.role == p.role
                    && db'.users == db.users[r.value.id := r.value])
  {
    hide Constraints, InsertUserCall, UpsertLinkCall, Linked, EmailTaken;
    InsertedAs(db, p.pu, p.role, envs, 0);
  }

  lemma InsertedAs(db: Db, pu: ProviderUser, role: UserRole, envs: nat -> Env, i: nat)
    ensures var (db', r, _) := RunDirect(InsertBody(pu, role), 2, db, envs, i);
      r.Ok? ==> r.value.id == V4(envs(i).uuid) && r.value.id !in db.users
                && r.value.email == pu.email && r.value.role == role
                && db'.users == db.users[r.value.id := r.value]
  {
    hide Constraints, InsertUserCall, UpsertLinkCall, Linked, EmailTaken;
    var body, u := InsertBody(pu, role), User(NilUuid, pu.email, pu.name, role, Active, None);
    var (db1, created) := InsertUserCall(db, u, envs(i));
    InsertUserEffect(db, u, envs(i));
    assert RunDirect(body, 2, db, envs, i) == RunDirect(body.next(created), 1, db1, envs, i + 1);
    if created.UserRow? {
      LinkOutcome(BootstrapConfig("", false), pu, role, created.user, 1, db1, envs, i + 1);
    }
  }

  lemma SettledIsFair(b: BootstrapConfig, s: State, pu: ProviderUser, envs: nat -> Env)
    requires Explained(b, s)
    ensures var role := Decide(b, s.db, pu, envs, 0).0;
      role.Ok? ==> Fair(b, s.(steps := s.steps + 1), Settled(pu, role.value, s.steps))
  {
    hide Constraints;
    assert |s.db.users| == 0 <==> s.db.users == map[];
  }

  lemma SettleExplained(b: BootstrapConfig, s: State, tid: nat, pu: ProviderUser, envs: nat -> Env)
    requires Explained(b, s)
    ensures Explained(b, DoSettle(b, s, tid, pu, envs))
  {
    hide Constraints, Decide;
    SettledIsFair(b, s, pu, envs);
  }

  // The row a login leaves when it commits.
  lemma MadeExplained(b: BootstrapConfig, s: State, db': Db, tid: nat, u: User)
    requires Explained(b, s) && tid in s.pending && u.id !in s.db.users
    requires u.email == s.pending[tid].pu.email && u.role == s.pending[tid].role
    requires db'.users == s.db.users[u.id := u]
    ensures Explained(b, s.(db := db', pending := s.pending - {tid}, steps := s.steps + 1,
                            made := s.made[u.id := s.pending[tid]],
                            first := if s.first.None? then Some(s.steps) else s.first))
  {
    hide Constraints;
    assert s.first.None? ==> s.made.Keys == {};
    assert u.id in db'.users;
  }

  lemma FinishExplained(b: BootstrapConfig, s: State, tid: nat, envs: nat -> Env)
    requires Explained(b, s)
    ensures Explained(b, DoFinish(s, tid, envs))
  {
    hide Constraints, Commit, Explained;
    if tid !in s.pending {
      StepExplained(b, s, s.pending);
    } else {
      var p := s.pending[tid];
      CommitEffect(b, s.db, p, envs);
      var (db', r) := Commit(s.db, p.pu, p.role, envs, 0);
      if r.Ok? {
        MadeExplained(b, s, db', tid, r.value);
      } else {
        StepExplained(b, s, s.pending - {tid});
      }
    }
  }

  lemma StepExplained(b: BootstrapConfig, s: State, pending: map<nat, Settled>)
    requires Explained(b, s) && forall tid :: tid in pending ==> tid in s.pending && pending[tid] == s.pending[tid]
    ensures Explained(b, s.(pending := pending, steps := s.steps + 1))
  {
    hide Constraints;
  }

  // Rows stay, with their emails, and roles change for the designated admin only.
  lemma RowsExplained(b: BootstrapConfig, s: State, db': Db)
    requires Explained(b, s) && Grows(s.db, db') && RowsKept(b, s.db, db')
    ensures Explained(b, s.(db := db', steps := s.steps + 1))
  {
    hide Constraints;
    if db'.users == map[] {
      assert s.db.users.Keys == {};
    }
  }

  lemma NextExplained(b: BootstrapConfig, s: State, a: Action)
    requires Explained(b, s)
    ensures Explained(b, Next(b, s, a))
  {
    hide Explained, Grows, RowsKept;
    match a
    case Settle(tid, pu, envs) => SettleExplained(b, s, tid, pu, envs);
    case Finish(tid, envs) => FinishExplained(b, s, tid, envs);
    case Upgrade(id, env) => UpgradeExplained(b, s, id, env);
    case SoftDelete(id, at, env) =>
      SoftDeleteKeepsRows(b, s.db, id, at, env);
      RowsExplained(b, s, Next(b, s, a).db);
  }

  lemma SoftDeleteKeepsRows(b: BootstrapConfig, db: Db, id: Uuid, at: Time, env: Env)
    ensures var db' := SoftDeleteUserCall(db, id, at, env).0; Grows(db, db') && RowsKept(b, db, db')
  {
    hide SoftDeleteUserCall, Constraints;
    SequentialLogins.SoftDeleteKeeps(db, id, at, env);
  }

  lemma UpgradeExplained(b: BootstrapConfig, s: State, id: Uuid, env: Env)
    requires Explained(b, s)
    ensures Explained(b, DoUpgrade(b, s, id, env))
  {
    hide UpdateUserCall, Grows, RowsKept, Explained;
    var s' := DoUpgrade(b, s, id, env);
    if id in s.db.users && NeedsUpgrade(b, s.db.users[id]) {
      UpdateEffect(b, s.db, s.db.users[id].(role := PlatformAdmin), env);
      RowsExplained(b, s, s'.db);
    } else {
      SameRows(b, s.db);
      RowsExplained(b, s, s.db);
    }
  }

  lemma SameRows(b: BootstrapConfig, db: Tables)
    ensures Grows(db, db) && RowsKept(b, db, db)
  {
  }

  lemma {:induction false} RunExplained(b: BootstrapConfig, actions: seq<Action>)
    ensures Explained(b, Run(b, actions))
  {
    hide Next;
    if actions != [] {
      hide Explained;
      RunExplained(b, actions[..|actions| - 1]);
      NextExplained(b, Run(b, actions[..|actions| - 1]), actions[|actions| - 1]);
    }
  }

  // --- Two administrators by the fallback ---

  // The admins who are not the designated one.
  function FallbackAdmins(b: BootstrapConfig, users: map<Uuid, User>): set<Uuid> {
    set id | id in users && users[id].role == PlatformAdmin && !IsBootstrapAdmin(b, users[id].email)
  }

  // The rows of logins that read their count before any row was committed.
  function EarlyRows(b: BootstrapConfig, s: State): set<Uuid> {
    set id | id in s.made && !IsBootstrapAdmin(b, s.made[id].pu.email) && Early(s, s.made[id])
  }

  // However the two steps of such transactions interleave, the fallback makes
  // admins of exactly the users whose logins read the count before the first commit.
  // So there are two or more if and only if two such logins overlap there.
  lemma {:induction false} FallbackAdminsExactly(b: BootstrapConfig, actions: seq<Action>)
    ensures var s := Run(b, actions);
      && FallbackAdmins(b, s.db.users) == (if b.devFallback then EarlyRows(b, s) else {})
      && (|FallbackAdmins(b, s.db.users)| >= 2 <==>
            b.devFallback && exists x, y :: x in EarlyRows(b, s) && y in EarlyRows(b, s) && x != y)
  {
    hide Run, Constraints;
    RunExplained(b, actions);
    var s := Run(b, actions);
    forall id | id in s.db.users
      ensures id in FallbackAdmins(b, s.db.users) <==> b.devFallback && id in EarlyRows(b, s)
    {
      assert id in s.made && Fair(b, s, s.made[id]);
    }
    assert FallbackAdmins(b, s.db.users) == if b.devFallback then EarlyRows(b, s) else {};
    TwoOrMore(FallbackAdmins(b, s.db.users));
  }

  lemma TwoOrMore<T>(s: set<T>)
    ensures |s| >= 2 <==> exists x, y :: x in s && y in s && x != y
  {
    if |s| >= 2 {
      var x :| x in s;
      assert |s - {x}| == |s| - 1;
      var y :| y in s - {x};
    }
    forall x, y | x in s && y in s && x != y ensures |s| >= 2 {
      SmallerSet({x, y}, s);
      assert |{x, y}| == 2;
    }
  }

  function Up(uuid: nat): nat -> Env {
    (k: nat) => Env(false, uuid)
  }

  // Two first logins, the second reading its count before the first commits.
  function Overlap(first: ProviderUser, second: ProviderUser): seq<Action> {
    [Settle(1, first, Up(1)), Settle(2, second, Up(2)), Finish(1, Up(1)), Finish(2, Up(2))]
  }

  lemma RunThen(b: BootstrapConfig, actions: seq<Action>, n: nat)
    requires n < |actions|
    ensures Run(b, actions[..n + 1]) == Next(b, Run(b, actions[..n]), actions[n])
    ensures Run(b, actions[..0]) == START
  {
    hide Next;
    assert actions[..n + 1][..n] == actions[..n];
  }

  lemma CommitWins(db: Db, p: Settled, uuid: nat)
    requires V4(uuid) !in db.users && forall id :: id in db.users ==> db.users[id].email != p.pu.email
    ensures Commit(db, p.pu, p.role, Up(uuid), 0).1.Ok?
  {
    hide Constraints, RunDirect;
    Misses.InsertWins(p.pu, p.role, 2, db, Up(uuid), 0);
  }

  lemma BothSettled(b: BootstrapConfig, first: ProviderUser, second: ProviderUser)
    requires b.devFallback
    requires !IsBootstrapAdmin(b, first.email) && !IsBootstrapAdmin(b, second.email)
    ensures Run(b, Overlap(first, second)[..2]) ==
      State(EMPTY, map[1 := Settled(first, PlatformAdmin, 0), 2 := Settled(second, PlatformAdmin, 1)], map[], None, 2)
  {
    hide Run, Constraints;
    RunThen(b, Overlap(first, second), 0);
    RunThen(b, Overlap(first, second), 1);
  }

  // One of the two commits.
  lemma FinishWins(b: BootstrapConfig, s: State, tid: nat, p: Settled, uuid: nat)
    requires tid in s.pending && s.pending[tid] == p && V4(uuid) !in s.db.users
    requires forall id :: id in s.db.users ==> s.db.users[id].email != p.pu.email
    ensures var s' := DoFinish(s, tid, Up(uuid));
      && s'.pending == s.pending - {tid}
      && s'.db.users.Keys == s.db.users.Keys + {V4(uuid)}
      && s'.db.users[V4(uuid)].email == p.pu.email && s'.db.users[V4(uuid)].role == p.role
      && forall id :: id in s.db.users ==> s'.db.users[id] == s.db.users[id]
  {
    hide Constraints, Commit;
    CommitWins(s.db, p, uuid);
    CommitEffect(b, s.db, p, Up(uuid));
  }

  // The exact condition can be met: the isolation level does not prevent it.
  lemma {:induction false} TwoFallbackAdmins(b: BootstrapConfig, first: ProviderUser, second: ProviderUser)
    requires b.devFallback && first.email != second.email
    requires !IsBootstrapAdmin(b, first.email) && !IsBootstrapAdmin(b, second.email)
    ensures FallbackAdmins(b, Run(b, Overlap(first, second)).db.users) == {V4(1), V4(2)}
  {
    hide Run, Constraints, DoFinish;
    var actions := Overlap(first, second);
    BothSettled(b, first, second);
    RunThen(b, actions, 2);
    RunThen(b, actions, 3);
    assert actions[..4] == actions;
    FinishWins(b, Run(b, actions[..2]), 1, Settled(first, PlatformAdmin, 0), 1);
    FinishWins(b, Run(b, actions[..3]), 2, Settled(second, PlatformAdmin, 1), 2);
  }
}

// Logins that overlap can leave a user without a link: when exactly, and which
// identities make it happen.
module Linkage {
  import opened Domain
  import opened Tables
  import opened Transactions
  import opened Resolver
  import opened Logins
  import opened Sessions
  import opened SequentialLogins
  import opened Service
  import opened Authority
  import opened Racing
  import Misses
  import StateStores
  import TokenRuns

  // This action creates a user.
  ghost predicate Creates(srv: TokenRuns.Server, s: State, a: Action) {
    && a.Advance? && a.tid in s.requests && !Repeats(s, a.entropy)
    && s.requests[a.tid].LoggingIn? && s.requests[a.tid].login.CreateUser?
    && var pc := LoginStep(srv.cfg, s.db, s.requests[a.tid].login, a.envs, 0).1; pc.Done? && pc.result.Ok?
  }

  // This action commits a new user for an identity that is linked by now, though
  // it was not when the login looked it up.
  ghost predicate Overtaken(srv: TokenRuns.Server, s: State, a: Action) {
    Creates(srv, s, a) && s.requests[a.tid].login.pu.key in s.db.links
  }

  lemma KeptLinked(b: BootstrapConfig, db: Tables, db': Tables)
    requires EveryUserLinked(db) && Grows(db, db') && RowsKept(b, db, db')
    ensures EveryUserLinked(db')
  {
    forall id | id in db'.users ensures exists k :: k in db'.links && db'.links[k].userId == id {
      var k :| k in db.links && db.links[k].userId == id;
      assert k in db'.links && db'.links[k].userId == id;
    }
  }

  lemma OnlyAdvanceAddsRows(srv: TokenRuns.Server, s: State, a: Action)
    requires !a.Advance?
    ensures Next(srv, s, a).log.order == s.log.order
  {
    hide Constraints, DeleteTokensOfCall, MarkTokenUsedCall, DeleteTokensBeforeCall, SoftDeleteUserCall, Kill,
      DoAdvance, Admitted, StateStores.Put, StateStores.Take;
    match a
    case Tick(_) =>
    case Begin(_) =>
    case Callback(_, _, _) =>
    case AskRefresh(_, _) =>
    case Revoke(_, _) =>
    case MarkUsed(_, _) =>
    case Purge(_, _) =>
    case SoftDelete(_, _) =>
  }

  lemma OnlyCreationAddsRows(srv: TokenRuns.Server, s: State, a: Action)
    ensures Next(srv, s, a).log.order != s.log.order ==>
      && Creates(srv, s, a)
      && Next(srv, s, a).db == LoginStep(srv.cfg, s.db, s.requests[a.tid].login, a.envs, 0).0
  {
    hide Constraints, LoginStep, IssueStep, RefreshStep, Sight, DrawsAfter, StoredAfter, Kill, DoCallback, DoBegin,
      DoAskRefresh, DoRevoke, DeleteTokensOfCall, MarkTokenUsedCall, DeleteTokensBeforeCall, SoftDeleteUserCall;
    if !a.Advance? {
      OnlyAdvanceAddsRows(srv, s, a);
    }
  }

  lemma CreationKeepsLinked(srv: TokenRuns.Server, s: State, a: Action)
    requires EveryUserLinked(s.db) && !Overtaken(srv, s, a)
    ensures Next(srv, s, a).log.order != s.log.order ==> EveryUserLinked(Next(srv, s, a).db)
  {
    hide Next, Constraints, EveryUserLinked, LoginStep;
    OnlyCreationAddsRows(srv, s, a);
    if Creates(srv, s, a) {
      CreateKeepsLinked(srv.cfg, s.db, s.requests[a.tid].login.pu, a.envs);
    }
  }

  lemma CreateKeepsLinked(cfg: Config, db: Db, pu: ProviderUser, envs: nat -> Env)
    requires EveryUserLinked(db) && pu.key !in db.links
    ensures var (db', pc) := LoginStep(cfg, db, CreateUser(pu), envs, 0);
      pc.Done? && pc.result.Ok? ==> EveryUserLinked(db')
  {
    hide Constraints, EveryUserLinked, Transact, RowAdded, Linked;
    CreateOutcome(cfg.bootstrap, pu, db, envs, 0);
    var (db', pc) := LoginStep(cfg, db, CreateUser(pu), envs, 0);
    if pc.result.Ok? {
      AddingKeeps(cfg.bootstrap, db, db', pc.result.value, BuildOAuthAccount(pc.result.value.id, pu));
    }
  }

  lemma NextLinked(srv: TokenRuns.Server, s: State, a: Action)
    requires Coherent(srv, s) && EveryUserLinked(s.db) && !Overtaken(srv, s, a)
    ensures EveryUserLinked(Next(srv, s, a).db)
  {
    hide Next, Coherent, Grows, EveryUserLinked, Overtaken, RowsKept, RowAdded, Extends;
    var s' := Next(srv, s, a);
    if s'.log.order == s.log.order {
      NextFair(srv, s, a);
      KeptLinked(srv.cfg.bootstrap, s.db, s'.db);
    } else {
      CreationKeepsLinked(srv, s, a);
    }
  }

  lemma OvertakenUnlinks(srv: TokenRuns.Server, s: State, a: Action)
    requires Overtaken(srv, s, a)
    ensures !EveryUserLinked(Next(srv, s, a).db)
  {
    hide Constraints, LoginStep, Note, Sight;
    var pu := s.requests[a.tid].login.pu;
    var (db', pc) := LoginStep(srv.cfg, s.db, CreateUser(pu), a.envs, 0);
    NewUserLinkedExactly(srv.cfg, s.db, pu, a.envs, 0);
    assert Next(srv, s, a).db == db';
    assert pc.result.value.id in db'.users by { OnlySnapshot(srv.cfg, s.db, pu, a.envs); }
  }

  lemma OnlySnapshot(cfg: Config, db: Db, pu: ProviderUser, envs: nat -> Env)
    ensures var (db', pc) := LoginStep(cfg, db, CreateUser(pu), envs, 0);
      pc.Done? && pc.result.Ok? ==> pc.result.value.id in db'.users
  {
    hide Constraints, Transact, Linked;
    CreateOutcome(cfg.bootstrap, pu, db, envs, 0);
  }

  lemma {:induction false} NeverOvertaken(srv: TokenRuns.Server, t0: Time, actions: seq<Action>)
    requires forall i :: 0 <= i < |actions| ==> !Overtaken(srv, Run(srv, t0, actions[..i]), actions[i])
    ensures EveryUserLinked(Run(srv, t0, actions).db)
  {
    hide Next, Coherent, Overtaken;
    if actions != [] {
      hide EveryUserLinked;
      var n := |actions| - 1;
      forall i | 0 <= i < n ensures !Overtaken(srv, Run(srv, t0, actions[..n][..i]), actions[..n][i]) {
        assert actions[..n][..i] == actions[..i];
      }
      NeverOvertaken(srv, t0, actions[..n]);
      RunCoherent(srv, t0, actions[..n]);
      NextLinked(srv, Run(srv, t0, actions[..n]), actions[n]);
    }
  }

  // In every interleaving, every user owns a link at every moment if and only if no
  // login commits a new user for an identity that has been linked since it looked.
  lemma {:induction false} LinkedThroughoutExactly(srv: TokenRuns.Server, t0: Time, actions: seq<Action>)
    ensures (forall n :: 0 <= n <= |actions| ==> EveryUserLinked(Run(srv, t0, actions[..n]).db)) <==>
      (forall i :: 0 <= i < |actions| ==> !Overtaken(srv, Run(srv, t0, actions[..i]), actions[i]))
  {
    hide EveryUserLinked, Overtaken, Next;
    if forall n :: 0 <= n <= |actions| ==> EveryUserLinked(Run(srv, t0, actions[..n]).db) {
      forall i | 0 <= i < |actions| ensures !Overtaken(srv, Run(srv, t0, actions[..i]), actions[i]) {
        assert actions[..i + 1][..i] == actions[..i];
        assert EveryUserLinked(Run(srv, t0, actions[..i + 1]).db);
        if Overtaken(srv, Run(srv, t0, actions[..i]), actions[i]) {
          OvertakenUnlinks(srv, Run(srv, t0, actions[..i]), actions[i]);
        }
      }
    }
    if forall i :: 0 <= i < |actions| ==> !Overtaken(srv, Run(srv, t0, actions[..i]), actions[i]) {
      forall n | 0 <= n <= |actions| ensures EveryUserLinked(Run(srv, t0, actions[..n]).db) {
        forall i | 0 <= i < n ensures !Overtaken(srv, Run(srv, t0, actions[..n][..i]), actions[..n][i]) {
          assert actions[..n][..i] == actions[..i];
        }
        NeverOvertaken(srv, t0, actions[..n]);
      }
    }
  }

  // --- Identities that report one email each ---

  ghost predicate Steady(actions: seq<Action>) {
    forall a, b ::
      a in actions && b in actions && Identifies(a) && Identifies(b) && b.provider.pu.key == a.provider.pu.key ==>
        b.provider.pu.email == a.provider.pu.email
  }

  lemma SteadyIsNotOvertaken(srv: TokenRuns.Server, t0: Time, actions: seq<Action>, i: nat)
    requires Steady(actions) && i < |actions|
    ensures !Overtaken(srv, Run(srv, t0, actions[..i]), actions[i])
  {
    hide Run, Constraints, Coherent;
    var s, a := Run(srv, t0, actions[..i]), actions[i];
    if Overtaken(srv, s, a) {
      var pu := s.requests[a.tid].login.pu;
      assert Steady(actions[..i]);
      var keys := ReportersOf(actions[..i], pu.email);
      LoyalReporters(actions[..i], pu.email);
      RunRaces(srv, t0, actions[..i], pu.email, keys);
      assert RequestRaces(srv.cfg, s.db, pu.email, s.seen.came, a.tid, s.requests[a.tid]);
      assert s.db.links[pu.key].userId in s.db.users && s.db.users[s.db.links[pu.key].userId].email == pu.email;
      CreationNeedsNewEmail(srv.cfg, s.db, pu, a.envs);
    }
  }

  lemma CreationNeedsNewEmail(cfg: Config, db: Db, pu: ProviderUser, envs: nat -> Env)
    ensures var pc := LoginStep(cfg, db, CreateUser(pu), envs, 0).1;
      pc.Done? && pc.result.Ok? ==> !EmailTaken(db.users, pu.email)
  {
    hide Constraints, Transact, Linked;
    CreateOutcome(cfg.bootstrap, pu, db, envs, 0);
  }

  // However requests interleave and calls fail, if every identity always reports
  // the same email then every user row owns a link, at every moment.
  lemma {:induction false} SteadyIdentitiesStayLinked(srv: TokenRuns.Server, t0: Time, actions: seq<Action>)
    requires Steady(actions)
    ensures EveryUserLinked(Run(srv, t0, actions).db)
  {
    hide Run, EveryUserLinked, Overtaken;
    forall i | 0 <= i < |actions| ensures !Overtaken(srv, Run(srv, t0, actions[..i]), actions[i]) {
      SteadyIsNotOvertaken(srv, t0, actions, i);
    }
    NeverOvertaken(srv, t0, actions);
  }

  // --- An identity that reports two emails ---

  // Calls that all reach the database, which draws this UUID.
  function Up(uuid: nat): nat -> Env {
    (k: nat) => Env(false, uuid)
  }

  // Two logins of one person, started in two windows, who reports another email in
  // the second: both look up, then both commit.
  function TwoWindows(first: ProviderUser, second: ProviderUser): seq<Action> {
    [Begin("1"), Begin("2"), Callback(1, "1", Identified(first)), Callback(2, "2", Identified(second)),
     Advance(1, Up(1), None), Advance(1, Up(1), None), Advance(2, Up(2), None), Advance(2, Up(2), None),
     Advance(1, Up(1), None), Advance(2, Up(2), None)]
  }

  lemma RunThen(srv: TokenRuns.Server, t0: Time, actions: seq<Action>, n: nat)
    requires n < |actions|
    ensures Run(srv, t0, actions[..n + 1]) == Next(srv, Run(srv, t0, actions[..n]), actions[n])
  {
    hide Next;
    assert actions[..n + 1][..n] == actions[..n];
  }

  // Where the two logins stand before either commits.
  lemma BothLookedUp(srv: TokenRuns.Server, t0: Time, first: ProviderUser, second: ProviderUser)
    requires srv.cfg.miss.NilOnMiss? && first.email != "" && second.email != ""
    ensures var s := Run(srv, t0, TwoWindows(first, second)[..8]);
      && s.db == EMPTY && s.log.draws == map[]
      && s.requests == map[1 := LoggingIn("1", CreateUser(first)), 2 := LoggingIn("2", CreateUser(second))]
  {
    hide Run, Next, Constraints;
    var actions := TwoWindows(first, second);
    BothAdmitted(srv, t0, first, second);
    LooksUp(srv, t0, actions, 4, 1, "1", first, Up(1));
    LooksUp(srv, t0, actions, 6, 2, "2", second, Up(2));
  }

  lemma BothAdmitted(srv: TokenRuns.Server, t0: Time, first: ProviderUser, second: ProviderUser)
    requires first.email != "" && second.email != ""
    ensures var s := Run(srv, t0, TwoWindows(first, second)[..4]);
      && s.db == EMPTY && s.log.draws == map[]
      && s.requests == map[1 := LoggingIn("1", FindLink(first)), 2 := LoggingIn("2", FindLink(second))]
  {
    hide Run, Constraints, DoBegin, DoCallback;
    var actions := TwoWindows(first, second);
    RunThen(srv, t0, actions, 0);
    RunThen(srv, t0, actions, 1);
    RunThen(srv, t0, actions, 2);
    RunThen(srv, t0, actions, 3);
    var s := Initial(t0);
    assert Run(srv, t0, actions[..0]) == s by { StartsEmpty(srv, t0, actions); }
    BeginsTwice(s);
    var s2 := DoBegin(DoBegin(s, "1"), "2");
    Admits(s2, 1, "1", first);
    Admits(DoCallback(s2, 1, "1", Identified(first)), 2, "2", second);
  }

  lemma StartsEmpty(srv: TokenRuns.Server, t0: Time, actions: seq<Action>)
    ensures Run(srv, t0, actions[..0]) == Initial(t0)
  {
    hide Next;
  }

  lemma BeginsTwice(s: State)
    requires s == Initial(s.now)
    ensures var s' := DoBegin(DoBegin(s, "1"), "2");
      && s'.now == s.now && s'.db == EMPTY && s'.requests == map[] && s'.log.draws == map[]
      && "1" in s'.entries && "2" in s'.entries && s.now < s'.entries["1"] && s.now < s'.entries["2"]
  {
    hide Constraints;
  }

  lemma Admits(s: State, tid: nat, state: string, pu: ProviderUser)
    requires tid !in s.requests && state in s.entries && s.now < s.entries[state] && pu.email != ""
    ensures var s' := DoCallback(s, tid, state, Identified(pu));
      && s'.now == s.now && s'.db == s.db && s'.log.draws == s.log.draws
      && s'.requests == s.requests[tid := LoggingIn(state, FindLink(pu))]
      && forall st :: st in s.entries && st != state ==> st in s'.entries && s'.entries[st] == s.entries[st]
  {
    hide Constraints;
  }

  // Two steps take a login from its start to its transaction, on empty tables.
  lemma LooksUp(srv: TokenRuns.Server, t0: Time, actions: seq<Action>, n: nat, tid: nat, grant: string,
                pu: ProviderUser, envs: nat -> Env)
    requires srv.cfg.miss.NilOnMiss? && n + 1 < |actions| && !envs(0).down
    requires actions[n] == Advance(tid, envs, None) && actions[n + 1] == Advance(tid, envs, None)
    requires var s := Run(srv, t0, actions[..n]);
      s.db == EMPTY && tid in s.requests && s.requests[tid] == LoggingIn(grant, FindLink(pu))
    ensures var s, s' := Run(srv, t0, actions[..n]), Run(srv, t0, actions[..n + 2]);
      && s'.db == EMPTY && s'.log.draws == s.log.draws
      && s'.requests == s.requests[tid := LoggingIn(grant, CreateUser(pu))]
  {
    hide Run, Constraints;
    RunThen(srv, t0, actions, n);
    RunThen(srv, t0, actions, n + 1);
  }

  // With two emails the second login leaves a user that owns no link, whatever the
  // bootstrap settings: steadiness cannot be dropped.
  lemma {:induction false} TwoEmailsLeaveAnUnlinkedUser(srv: TokenRuns.Server, t0: Time, first: ProviderUser,
                                                        second: ProviderUser)
    requires srv.cfg.miss.NilOnMiss? && first.key == second.key
    requires first.email != "" && second.email != "" && first.email != second.email
    ensures var s := Run(srv, t0, TwoWindows(first, second));
      && |s.db.users| == 2
      && exists id :: id in s.db.users && forall k :: k in s.db.links ==> s.db.links[k].userId != id
  {
    hide Run, Next, Constraints, EveryUserLinked, LoginStep, Overtaken, Commits;
    var actions := TwoWindows(first, second);
    BothLookedUp(srv, t0, first, second);
    var s := Run(srv, t0, actions[..8]);
    RunThen(srv, t0, actions, 8);
    RunThen(srv, t0, actions, 9);
    assert actions[..10] == actions;
    CommitsOn(srv, s, 1, "1", first, 1);
    SecondCommit(srv, s.db, Run(srv, t0, actions[..9]), first, second);
    Unlinked(Run(srv, t0, actions).db);
  }

  lemma SecondCommit(srv: TokenRuns.Server, db: Db, s: State, first: ProviderUser, second: ProviderUser)
    requires db == EMPTY && Commits(db, first, 1, s.db) && first.key == second.key && first.email != second.email
    requires 2 in s.requests && s.requests[2] == LoggingIn("2", CreateUser(second))
    ensures var s' := Next(srv, s, Advance(2, Up(2), None)); |s'.db.users| == 2 && !EveryUserLinked(s'.db)
  {
    hide Next, Constraints, EveryUserLinked, LoginStep;
    CommitsOn(srv, s, 2, "2", second, 2);
    OvertakenUnlinks(srv, s, Advance(2, Up(2), None));
  }

  lemma Unlinked(db: Tables)
    requires !EveryUserLinked(db)
    ensures exists id :: id in db.users && forall k :: k in db.links ==> db.links[k].userId != id
  {
  }

  // The transaction of a login whose email nobody has, with the database up.
  ghost predicate Commits(db: Db, pu: ProviderUser, uuid: nat, db': Db) {
    && db'.users.Keys == db.users.Keys + {V4(uuid)} && |db'.users| == |db.users| + 1
    && db'.users[V4(uuid)].email == pu.email
    && (forall id :: id in db.users ==> db'.users[id] == db.users[id])
    && pu.key in db'.links
  }

  lemma StepCommits(cfg: Config, db: Db, pu: ProviderUser, uuid: nat)
    requires V4(uuid) !in db.users && forall id :: id in db.users ==> db.users[id].email != pu.email
    ensures var (db', pc') := LoginStep(cfg, db, CreateUser(pu), Up(uuid), 0);
      pc'.Done? && pc'.result.Ok? && Commits(db, pu, uuid, db')
  {
    hide Constraints, Transact, CreateBody, RoleForNewUser, Linked;
    CreateOutcome(cfg.bootstrap, pu, db, Up(uuid), 0);
    Misses.CreateWins(cfg.bootstrap, pu, db, Up(uuid), 0);
    var (db', pc') := LoginStep(cfg, db, CreateUser(pu), Up(uuid), 0);
    assert pu.key in db'.links by { KeyIsLinked(db.links, BuildOAuthAccount(pc'.result.value.id, pu)); }
    assert |db'.users.Keys| == |db'.users| && |db.users.Keys| == |db.users|;
  }

  lemma KeyIsLinked(links: map<LinkKey, OAuthAccount>, account: OAuthAccount)
    ensures account.key in Linked(links, account)
  {
  }

  lemma CommitsOn(srv: TokenRuns.Server, s: State, tid: nat, grant: string, pu: ProviderUser, uuid: nat)
    requires tid in s.requests && s.requests[tid] == LoggingIn(grant, CreateUser(pu))
    requires V4(uuid) !in s.db.users && forall id :: id in s.db.users ==> s.db.users[id].email != pu.email
    ensures var pc := LoginStep(srv.cfg, s.db, CreateUser(pu), Up(uuid), 0).1; pc.Done? && pc.result.Ok?
    ensures var s' := Next(srv, s, Advance(tid, Up(uuid), None));
      && Commits(s.db, pu, uuid, s'.db)
      && s'.log.draws == s.log.draws
      && forall t :: t in s.requests && t != tid ==> t in s'.requests && s'.requests[t] == s.requests[t]
  {
    hide Constraints, LoginStep, Commits, Sight, Kill, StoredAfter;
    StepCommits(srv.cfg, s.db, pu, uuid);
  }
}

// Purging expired refresh tokens is unobservable when requests interleave, too: a
// purge between the steps of a refresh can at most bring its refusal forward.
module InterleavedPurging {
  import opened Domain
  import opened Tables
  import opened Resolver
  import opened Logins
  import opened Sessions
  import opened Service
  import opened Authority
  import opened Rotation
  import opened Statements
  import Purging
  import SequentialLogins
  import StateStores
  import TokenRuns

  // The rows of a are rows of b; what b has beyond them has expired.
  ghost predicate Thinner(a: map<TokenHash, RefreshToken>, b: map<TokenHash, RefreshToken>, now: Time) {
    && (forall h {:trigger a[h]} :: h in a ==> h in b && b[h] == a[h])
    && (forall h {:trigger b[h]} :: h in b && h !in a ==> b[h].expiresAt < now)
  }

  // A refresh that was refused for its token, or is going to be at its next step.
  ghost predicate Doomed(rq: Request, now: Time) {
    || rq == Refreshing(Refused(InvalidRefreshToken))
    || (rq.Refreshing? && rq.refresh.Check? && rq.refresh.rt.expiresAt < now)
  }

  // The same request, but that x may have been refused where y still holds a row
  // that has expired.
  ghost predicate Twin(x: Request, y: Request, now: Time) {
    x == y || (x == Refreshing(Refused(InvalidRefreshToken)) && y.Refreshing? && y.refresh.Check? && Doomed(y, now))
  }

  ghost predicate Sim(a: State, b: State) {
    && a.now == b.now && a.entries == b.entries
    && a.log.draws == b.log.draws && a.log.generated == b.log.generated
    && Purging.SameUsers(a.db, b.db) && Thinner(a.db.tokens, b.db.tokens, a.now)
    && a.requests.Keys == b.requests.Keys
    && forall tid {:trigger a.requests[tid]} {:trigger b.requests[tid]} :: tid in a.requests ==>
         Twin(a.requests[tid], b.requests[tid], a.now)
  }

  // --- Steps ---

  // The two outcomes of a step can be told apart by nobody.
  ghost predicate SameStep(x: (Db, Request), y: (Db, Request), now: Time) {
    Purging.SameUsers(x.0, y.0) && Thinner(x.0.tokens, y.0.tokens, now) && Twin(x.1, y.1, now)
  }

  lemma LoginSim(srv: TokenRuns.Server, a: Db, b: Db, rq: Request, envs: nat -> Env, now: Time, entropy: Option<string>)
    requires Purging.SameUsers(a, b) && Thinner(a.tokens, b.tokens, now)
    requires rq.LoggingIn? && LocalOk(srv.cfg, a, rq.login) && LocalOk(srv.cfg, b, rq.login)
    ensures SameStep(Step(srv, a, rq, envs, now, entropy), Step(srv, b, rq, envs, now, entropy), now)
  {
    hide LoginStep, LocalOk, Thinner, Constraints, Grows, RowsKept, RowAdded;
    Purging.StepSame(srv.cfg, a, b, rq.login, envs, 0);
    StepKeeps(srv.cfg, a, rq.login, envs, 0);
    StepKeeps(srv.cfg, b, rq.login, envs, 0);
  }

  lemma ThinnerStore(a: map<TokenHash, RefreshToken>, b: map<TokenHash, RefreshToken>, now: Time, row: RefreshToken)
    requires Thinner(a, b, now)
    ensures Thinner(a[row.tokenHash := row], b[row.tokenHash := row], now)
  {
  }

  lemma ThinnerDelete(a: map<TokenHash, RefreshToken>, b: map<TokenHash, RefreshToken>, now: Time, u: Uuid)
    requires Thinner(a, b, now)
    ensures Thinner(a - TokensOf(a, u), b - TokensOf(b, u), now)
  {
  }

  lemma ThinnerMark(a: map<TokenHash, RefreshToken>, b: map<TokenHash, RefreshToken>, now: Time, hash: TokenHash,
                    at: Time)
    requires Thinner(a, b, now)
    ensures Thinner(if hash in a then a[hash := a[hash].(usedAt := Some(at))] else a,
                    if hash in b then b[hash := b[hash].(usedAt := Some(at))] else b, now)
  {
  }

  lemma ThinnerPurge(a: map<TokenHash, RefreshToken>, b: map<TokenHash, RefreshToken>, now: Time, before: Time)
    requires Thinner(a, b, now) && before <= now
    ensures Thinner(a - TokensBefore(a, before), b, now)
  {
  }

  lemma ThinnerLater(a: map<TokenHash, RefreshToken>, b: map<TokenHash, RefreshToken>, now: Time, later: Time)
    requires Thinner(a, b, now) && now <= later
    ensures Thinner(a, b, later)
  {
  }

  // The issuing part of a login or a refresh; a fresh token is in neither table.
  lemma IssueSim(secret: string, a: Db, b: Db, pc: IssuePc, input: Input)
    requires Purging.SameUsers(a, b) && Thinner(a.tokens, b.tokens, input.now)
    requires pc.Store? ==> Sha256(pc.raw) !in a.tokens && Sha256(pc.raw) !in b.tokens
    ensures var x, y := IssueStep(secret, a, pc, input), IssueStep(secret, b, pc, input);
      Purging.SameUsers(x.0, y.0) && Thinner(x.0.tokens, y.0.tokens, input.now) && x.1 == y.1
  {
    hide Constraints, Thinner, Response;
    if pc.Store? {
      ThinnerStore(a.tokens, b.tokens, input.now, FreshRow(pc.userId, pc.now, pc.raw));
    }
  }

  lemma FindSim(secret: string, a: Db, b: Db, raw: string, input: Input)
    requires Purging.SameUsers(a, b) && Thinner(a.tokens, b.tokens, input.now)
    ensures var x, y := RefreshStep(secret, a, Find(raw), input), RefreshStep(secret, b, Find(raw), input);
      x.0 == a && y.0 == b && Twin(Refreshing(x.1), Refreshing(y.1), input.now)
  {
    hide Constraints;
  }

  lemma RotateSim(secret: string, a: Db, b: Db, pc: RefreshPc, input: Input)
    requires Purging.SameUsers(a, b) && Thinner(a.tokens, b.tokens, input.now) && pc.Rotate?
    ensures var x, y := RefreshStep(secret, a, pc, input), RefreshStep(secret, b, pc, input);
      Purging.SameUsers(x.0, y.0) && Thinner(x.0.tokens, y.0.tokens, input.now) && x.1 == y.1
  {
    hide Constraints, DeleteTokensOfCall, Thinner;
    var u := pc.rt.userId;
    DeleteEffect(a, u, input.env);
    DeleteEffect(b, u, input.env);
    TokenRuns.RevokeEffect(a, u, input.env);
    TokenRuns.RevokeEffect(b, u, input.env);
    DeleteFails(a, b, u, input.env);
    ThinnerDelete(a.tokens, b.tokens, input.now, u);
  }

  lemma DeleteFails(a: Db, b: Db, u: Uuid, env: Env)
    ensures env.down ==> DeleteTokensOfCall(a, u, env).1 == DeleteTokensOfCall(b, u, env).1
  {
    hide Constraints, TokensOf;
  }

  lemma RefreshSim(secret: string, a: Db, b: Db, pc: RefreshPc, input: Input)
    requires Purging.SameUsers(a, b) && Thinner(a.tokens, b.tokens, input.now)
    requires pc.Reissue? && pc.pc.Store? ==> Sha256(pc.pc.raw) !in a.tokens && Sha256(pc.pc.raw) !in b.tokens
    ensures var x, y := RefreshStep(secret, a, pc, input), RefreshStep(secret, b, pc, input);
      SameStep((x.0, Refreshing(x.1)), (y.0, Refreshing(y.1)), input.now)
  {
    hide Constraints, Thinner, IssueStep, DeleteTokensOfCall;
    match pc
    case Find(raw) => FindSim(secret, a, b, raw, input);
    case Rotate(_, _, _) => RotateSim(secret, a, b, pc, input);
    case Reissue(_, _, issue) => IssueSim(secret, a, b, issue, input);
    case _ =>
  }

  lemma StepSim(srv: TokenRuns.Server, a: State, b: State, tid: nat, envs: nat -> Env, entropy: Option<string>)
    requires Sim(a, b) && tid in a.requests && a.requests[tid] == b.requests[tid]
    requires Coherent(srv, a) && Coherent(srv, b) && Ledger(a) && Ledger(b)
    ensures SameStep(Step(srv, a.db, a.requests[tid], envs, a.now, entropy),
                     Step(srv, b.db, b.requests[tid], envs, b.now, entropy), a.now)
  {
    hide Constraints, Thinner, LoginStep, IssueStep, RefreshStep, LocalOk, DrawsOk, Booked, InOrder, Past, Snapshot;
    var rq := a.requests[tid];
    assert RequestOk(srv, a.db, a.log.draws, tid, rq) && RequestOk(srv, b.db, b.log.draws, tid, rq);
    if Issue(rq).Some? && Issue(rq).value.Store? {
      DrawnIsNotStored(a, tid);
      DrawnIsNotStored(b, tid);
    }
    match rq
    case LoggingIn(_, _) => LoginSim(srv, a.db, b.db, rq, envs, a.now, entropy);
    case LoggedIn(_, _, pc) => IssueSim(srv.secret, a.db, b.db, pc, Input(a.now, envs(0), entropy));
    case Refreshing(pc) => RefreshSim(srv.secret, a.db, b.db, pc, Input(a.now, envs(0), entropy));
    case TurnedAway(_) =>
  }

  lemma DrawnIsNotStored(s: State, tid: nat)
    requires Ledger(s) && tid in s.requests && Issue(s.requests[tid]).Some? && Issue(s.requests[tid]).value.Store?
    ensures Sha256(Issue(s.requests[tid]).value.raw) !in s.db.tokens
  {
    hide Constraints, InOrder;
    assert RequestBooked(s.log, tid, s.requests[tid]);
    assert forall h :: h in s.db.tokens ==> h in s.log.stored;
  }

  // A step the two runs take with the doomed refresh of one already refused.
  lemma DoomedSim(srv: TokenRuns.Server, a: State, b: State, tid: nat, envs: nat -> Env, entropy: Option<string>)
    requires Sim(a, b) && tid in a.requests && a.requests[tid] != b.requests[tid]
    ensures SameStep(Step(srv, a.db, a.requests[tid], envs, a.now, entropy),
                     Step(srv, b.db, b.requests[tid], envs, b.now, entropy), a.now)
  {
    hide Constraints, Thinner;
  }

  // --- Whole actions ---

  lemma SameDraws(draws: map<string, Draw>, a: Db, b: Db, tid: nat, rq: Request, x: Request, y: Request, now: Time)
    requires Purging.SameUsers(a, b) && Twin(x, y, now)
    ensures DrawsAfter(draws, a, tid, rq, x) == DrawsAfter(draws, b, tid, rq, y)
  {
    hide Constraints;
  }

  lemma DoomedDrawsNothing(draws: map<string, Draw>, db: Db, tid: nat, rq: Request, rq': Request)
    requires rq.Refreshing? && (rq.refresh.Check? || rq.refresh.Refused?)
    ensures DrawsAfter(draws, db, tid, rq, rq') == draws
  {
    hide Constraints;
  }

  lemma AdvanceSim(srv: TokenRuns.Server, a: State, b: State, tid: nat, envs: nat -> Env, entropy: Option<string>)
    requires Sim(a, b) && Coherent(srv, a) && Coherent(srv, b) && Ledger(a) && Ledger(b)
    ensures Sim(DoAdvance(srv, a, tid, envs, entropy), DoAdvance(srv, b, tid, envs, entropy))
  {
    hide Constraints, Thinner, Coherent, Ledger, Step, DrawsAfter, StoredAfter, Kill, Sight, Doomed;
    if tid in a.requests && !Repeats(a, entropy) {
      var rq, rq2 := a.requests[tid], b.requests[tid];
      var x, y := Step(srv, a.db, rq, envs, a.now, entropy), Step(srv, b.db, rq2, envs, b.now, entropy);
      if rq == rq2 {
        StepSim(srv, a, b, tid, envs, entropy);
        SameDraws(a.log.draws, a.db, b.db, tid, rq, x.1, y.1, a.now);
      } else {
        DoomedSim(srv, a, b, tid, envs, entropy);
        DoomedDrawsNothing(a.log.draws, a.db, tid, rq, x.1);
        DoomedDrawsNothing(b.log.draws, b.db, tid, rq2, y.1);
      }
    }
  }

  // A request that arrives in both runs.
  lemma BothAdmit(a: State, b: State, a': State, b': State, tid: nat, rq: Request)
    requires Sim(a, b) && a'.db == a.db && b'.db == b.db && a'.now == a.now && b'.now == b.now
    requires a'.entries == b'.entries && a'.log.draws == a.log.draws && b'.log.draws == b.log.draws
    requires a'.log.generated == b'.log.generated
    requires a'.requests == a.requests[tid := rq] && b'.requests == b.requests[tid := rq]
    ensures Sim(a', b')
  {
    hide Constraints, Thinner, Doomed;
  }

  lemma CallbackSim(a: State, b: State, tid: nat, state: string, provider: Provider)
    requires Sim(a, b)
    ensures Sim(DoCallback(a, tid, state, provider), DoCallback(b, tid, state, provider))
  {
    hide Constraints, Thinner, Admitted, StateStores.Take, Twin;
    if tid !in a.requests {
      var a' := DoCallback(a, tid, state, provider);
      BothAdmit(a, b, a', DoCallback(b, tid, state, provider), tid, a'.requests[tid]);
    }
  }

  lemma AskRefreshSim(a: State, b: State, tid: nat, raw: string)
    requires Sim(a, b)
    ensures Sim(DoAskRefresh(a, tid, raw), DoAskRefresh(b, tid, raw))
  {
    hide Constraints, Thinner, Twin;
    if tid !in a.requests {
      BothAdmit(a, b, DoAskRefresh(a, tid, raw), DoAskRefresh(b, tid, raw), tid, Refreshing(Find(raw)));
    }
  }

  lemma BeginSim(a: State, b: State, state: string)
    requires Sim(a, b)
    ensures Sim(DoBegin(a, state), DoBegin(b, state))
  {
    hide Constraints, Thinner, StateStores.Put, Twin;
  }

  lemma TwinLater(x: Request, y: Request, now: Time, later: Time)
    requires Twin(x, y, now) && now <= later
    ensures Twin(x, y, later)
  {
  }

  lemma TickSim(srv: TokenRuns.Server, a: State, b: State, delay: nat)
    requires Sim(a, b)
    ensures Sim(Next(srv, a, Tick(delay)), Next(srv, b, Tick(delay)))
  {
    hide Constraints, Thinner, Twin;
    ThinnerLater(a.db.tokens, b.db.tokens, a.now, a.now + delay);
    forall tid | tid in a.requests ensures Twin(a.requests[tid], b.requests[tid], a.now + delay) {
      TwinLater(a.requests[tid], b.requests[tid], a.now, a.now + delay);
    }
  }

  lemma StoreCallSim(srv: TokenRuns.Server, a: State, b: State, c: Action)
    requires Sim(a, b) && (c.Revoke? || c.MarkUsed? || c.SoftDelete?)
    ensures Sim(Next(srv, a, c), Next(srv, b, c))
  {
    hide Constraints, Thinner, Twin, Kill;
    match c
    case Revoke(u, env) =>
      TokenRuns.RevokeEffect(a.db, u, env);
      TokenRuns.RevokeEffect(b.db, u, env);
      ThinnerDelete(a.db.tokens, b.db.tokens, a.now, u);
    case MarkUsed(hash, env) =>
      TokenRuns.MarkEffect(a.db, hash, a.now, env);
      TokenRuns.MarkEffect(b.db, hash, a.now, env);
      ThinnerMark(a.db.tokens, b.db.tokens, a.now, hash, a.now);
    case SoftDelete(id, env) =>
      Purging.StatementSame(a.db, b.db, SoftDeleteUser(id, a.now), env);
      SequentialLogins.SoftDeleteKeeps(a.db, id, a.now, env);
      SequentialLogins.SoftDeleteKeeps(b.db, id, a.now, env);
  }

  lemma NextSim(srv: TokenRuns.Server, a: State, b: State, c: Action)
    requires Sim(a, b) && Coherent(srv, a) && Coherent(srv, b) && Ledger(a) && Ledger(b) && !c.Purge?
    ensures Sim(Next(srv, a, c), Next(srv, b, c))
  {
    hide Constraints, Sim, Coherent, Ledger, DoAdvance, DoRevoke, DoBegin, DoCallback, DoAskRefresh;
    match c
    case Advance(tid, envs, entropy) => AdvanceSim(srv, a, b, tid, envs, entropy);
    case Tick(delay) => TickSim(srv, a, b, delay);
    case Begin(state) => BeginSim(a, b, state);
    case Callback(tid, state, provider) => CallbackSim(a, b, tid, state, provider);
    case AskRefresh(tid, raw) => AskRefreshSim(a, b, tid, raw);
    case Revoke(_, _) => StoreCallSim(srv, a, b, c);
    case MarkUsed(_, _) => StoreCallSim(srv, a, b, c);
    case SoftDelete(_, _) => StoreCallSim(srv, a, b, c);
  }

  // A purge that only one of the runs makes.
  lemma PurgeSim(srv: TokenRuns.Server, a: State, b: State, c: Action)
    requires Sim(a, b) && c.Purge?
    ensures Sim(Next(srv, a, c), b)
  {
    hide Constraints, Thinner, Twin, DeleteTokensBeforeCall;
    TokenRuns.PurgeEffect(a.db, a.now - c.age, c.env);
    ThinnerPurge(a.db.tokens, b.db.tokens, a.now, a.now - c.age);
  }

  // --- Runs ---

  function WithoutPurges(actions: seq<Action>): seq<Action> {
    if actions == [] then []
    else
      var n := |actions| - 1;
      WithoutPurges(actions[..n]) + if actions[n].Purge? then [] else [actions[n]]
  }

  lemma {:induction false} RunSim(srv: TokenRuns.Server, t0: Time, actions: seq<Action>)
    ensures Sim(Run(srv, t0, actions), Run(srv, t0, WithoutPurges(actions)))
  {
    hide Next, Coherent, Ledger;
    if actions != [] {
      hide Sim;
      var n := |actions| - 1;
      var before, last, rest := actions[..n], actions[n], WithoutPurges(actions[..n]);
      RunSim(srv, t0, before);
      var a, b := Run(srv, t0, before), Run(srv, t0, rest);
      if last.Purge? {
        PurgeSim(srv, a, b, last);
        assert rest + [] == rest;
      } else {
        RunCoherent(srv, t0, before);
        RunCoherent(srv, t0, rest);
        RunLedger(srv, t0, before);
        RunLedger(srv, t0, rest);
        NextSim(srv, a, b, last);
        assert (rest + [last])[..|rest|] == rest;
      }
    }
  }

  // Two interleavings that differ in their purges only, wherever these fall between
  // the steps of the requests, agree on the clock, the users, the links and every
  // request, but that a refresh with an expired token may be refused in one and one
  // step short of the same refusal in the other. So the same refreshes are honoured.
  lemma {:induction false} InterleavedPurgesAreUnobservable(srv: TokenRuns.Server, t0: Time, x: seq<Action>,
                                                            y: seq<Action>)
    requires WithoutPurges(x) == WithoutPurges(y)
    ensures var a, b := Run(srv, t0, x), Run(srv, t0, y);
      && a.now == b.now && a.db.users == b.db.users && a.db.links == b.db.links && a.entries == b.entries
      && a.requests.Keys == b.requests.Keys
      && (forall tid :: tid in a.requests ==>
            a.requests[tid] == b.requests[tid] || (Doomed(a.requests[tid], a.now) && Doomed(b.requests[tid], b.now)))
      && (forall tid, raw :: Succeeded(a, tid, raw) <==> Succeeded(b, tid, raw))
  {
    hide Run, Constraints, Thinner;
    RunSim(srv, t0, x);
    RunSim(srv, t0, y);
    var a, b, c := Run(srv, t0, x), Run(srv, t0, y), Run(srv, t0, WithoutPurges(x));
    forall tid, raw ensures Succeeded(a, tid, raw) <==> Succeeded(b, tid, raw) {
      SameSuccess(a, c, tid, raw);
      SameSuccess(b, c, tid, raw);
    }
  }

  lemma SameSuccess(a: State, c: State, tid: nat, raw: string)
    requires Sim(a, c)
    ensures Succeeded(a, tid, raw) <==> Succeeded(c, tid, raw)
  {
    hide Constraints, Thinner;
  }

  // What is one step short of the refusal is refused at its next step, whatever
  // that step meets.
  lemma DoomedIsRefused(srv: TokenRuns.Server, s: State, tid: nat, envs: nat -> Env, entropy: Option<string>)
    requires tid in s.requests && Doomed(s.requests[tid], s.now) && !Repeats(s, entropy)
    ensures var s' := Next(srv, s, Advance(tid, envs, entropy));
      s'.requests[tid] == Refreshing(Refused(InvalidRefreshToken)) && s'.db == s.db
  {
    hide Constraints, Kill;
  }

  // A purge that reaches the database in the middle of any interleaving deletes the
  // rows that expired more than age ago, so that none is left, and nothing else.
  lemma {:induction false} PurgeLeavesNothingExpired(srv: TokenRuns.Server, t0: Time, actions: seq<Action>, age: nat,
                                                     env: Env)
    requires !env.down
    ensures var s, s' := Run(srv, t0, actions), Run(srv, t0, actions + [Purge(age, env)]);
      && (forall h :: h in s'.db.tokens <==> h in s.db.tokens && s.now <= s.db.tokens[h].expiresAt + age)
      && (forall h :: h in s'.db.tokens ==> s'.db.tokens[h] == s.db.tokens[h])
      && s'.db.users == s.db.users && s'.db.links == s.db.links
      && s'.requests == s.requests && s'.entries == s.entries && s'.now == s.now
  {
    hide Constraints, DeleteTokensBeforeCall;
    assert (actions + [Purge(age, env)])[..|actions|] == actions;
    var s := Run(srv, t0, actions);
    DeleteBeforeTells(s.db, s.now - age, env);
  }
}

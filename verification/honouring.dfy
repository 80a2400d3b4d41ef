// Which refreshes are honoured, exactly, however they interleave; and how many of
// them one token can serve.
module Honouring {
  import opened Domain
  import opened Tables
  import opened Resolver
  import opened Logins
  import opened Sessions
  import opened Service
  import opened Authority
  import opened Rotation
  import StateStores
  import TokenRuns

  // The refresh found a row, unused, that had not expired when it was checked.
  ghost predicate Accepted(seen: Sightings, tid: nat) {
    && tid in seen.found && tid in seen.checked
    && seen.checked[tid] <= seen.found[tid].expiresAt && seen.found[tid].usedAt.None?
  }

  // Where a refresh stands, told by what it has seen and whether a call failed.
  ghost predicate Fated(db: Tables, seen: Sightings, tid: nat, pc: RefreshPc) {
    tid in seen.asked &&
    match pc
    case Find(raw) =>
      raw == seen.asked[tid] && tid !in seen.found && tid !in seen.checked && tid !in seen.troubled
    case Check(raw, rt) =>
      && raw == seen.asked[tid] && tid in seen.found && seen.found[tid] == rt && tid !in seen.checked
      && rt.userId in db.users && tid !in seen.troubled
    case LoadUser(raw, rt) =>
      raw == seen.asked[tid] && Accepted(seen, tid) && rt.userId in db.users && tid !in seen.troubled
    case Rotate(raw, rt, user) => raw == seen.asked[tid] && Accepted(seen, tid) && tid !in seen.troubled
    case Reissue(raw, rt, issue) =>
      && raw == seen.asked[tid] && Accepted(seen, tid)
      && (tid in seen.troubled <==> issue.Issued? && issue.result.Err?)
    case Refused(_) => tid in seen.troubled || !Accepted(seen, tid)
  }

  ghost predicate Fates(s: State) {
    && (forall tid {:trigger s.requests[tid]} :: tid in s.requests && s.requests[tid].Refreshing? ==>
          Fated(s.db, s.seen, tid, s.requests[tid].refresh))
    && (forall tid {:trigger tid in s.seen.asked} :: tid in s.seen.asked ==>
          tid in s.requests && s.requests[tid].Refreshing?)
    && (forall tid {:trigger tid in s.seen.found} :: tid in s.seen.found ==> tid in s.seen.asked)
    && (forall tid {:trigger tid in s.seen.checked} :: tid in s.seen.checked ==> tid in s.seen.asked)
    && (forall tid {:trigger tid in s.seen.troubled} :: tid in s.seen.troubled ==> tid in s.requests)
  }

  lemma FatedStays(a: Tables, b: Tables, seen: Sightings, seen': Sightings, tid: nat, pc: RefreshPc)
    requires Fated(a, seen, tid, pc) && Grows(a, b)
    requires tid in seen'.asked && seen'.asked[tid] == seen.asked[tid]
    requires (tid in seen.found <==> tid in seen'.found) && (tid in seen.found ==> seen'.found[tid] == seen.found[tid])
    requires tid in seen.checked <==> tid in seen'.checked
    requires tid in seen.checked ==> seen'.checked[tid] == seen.checked[tid]
    requires tid in seen.troubled <==> tid in seen'.troubled
    ensures Fated(b, seen', tid, pc)
  {
  }

  // --- The steps of a refresh ---

  // What a step of a refresh leaves, with what it has seen.
  ghost predicate StepFated(srv: TokenRuns.Server, s: State, tid: nat, envs: nat -> Env, entropy: Option<string>)
    requires tid in s.requests
  {
    var rq := s.requests[tid];
    var (db', rq') := Step(srv, s.db, rq, envs, s.now, entropy);
    var seen' := Sight(s.seen, s.now, tid, rq, rq', Failing(rq, envs(0), entropy));
    rq'.Refreshing? && Fated(db', seen', tid, rq'.refresh)
  }

  lemma FindFated(srv: TokenRuns.Server, s: State, tid: nat, envs: nat -> Env, entropy: Option<string>)
    requires tid in s.requests && s.requests[tid].Refreshing? && Fated(s.db, s.seen, tid, s.requests[tid].refresh)
    requires s.requests[tid].refresh.Find?
    ensures StepFated(srv, s, tid, envs, entropy)
  {
    hide UniqueEmails;
  }

  lemma CheckFated(srv: TokenRuns.Server, s: State, tid: nat, envs: nat -> Env, entropy: Option<string>)
    requires tid in s.requests && s.requests[tid].Refreshing? && Fated(s.db, s.seen, tid, s.requests[tid].refresh)
    requires s.requests[tid].refresh.Check? || s.requests[tid].refresh.LoadUser? || s.requests[tid].refresh.Refused?
    ensures StepFated(srv, s, tid, envs, entropy)
  {
    hide Constraints;
  }

  lemma RotateFated(srv: TokenRuns.Server, s: State, tid: nat, envs: nat -> Env, entropy: Option<string>)
    requires tid in s.requests && s.requests[tid].Refreshing? && Fated(s.db, s.seen, tid, s.requests[tid].refresh)
    requires s.requests[tid].refresh.Rotate?
    ensures StepFated(srv, s, tid, envs, entropy)
  {
    hide Constraints, DeleteTokensOfCall;
    DeleteEffect(s.db, s.requests[tid].refresh.rt.userId, envs(0));
  }

  lemma SignFated(srv: TokenRuns.Server, s: State, tid: nat, envs: nat -> Env, entropy: Option<string>)
    requires tid in s.requests && s.requests[tid].Refreshing? && Fated(s.db, s.seen, tid, s.requests[tid].refresh)
    requires s.requests[tid].refresh.Reissue? && !s.requests[tid].refresh.pc.Store?
    ensures StepFated(srv, s, tid, envs, entropy)
  {
    hide Constraints, InsertTokenCall;
  }

  // A fresh token of an existing user is stored unless the database is down.
  lemma StoreFated(srv: TokenRuns.Server, s: State, tid: nat, envs: nat -> Env, entropy: Option<string>)
    requires tid in s.requests && s.requests[tid].Refreshing? && Fated(s.db, s.seen, tid, s.requests[tid].refresh)
    requires s.requests[tid].refresh.Reissue? && s.requests[tid].refresh.pc.Store?
    requires Sha256(s.requests[tid].refresh.pc.raw) !in s.db.tokens && s.requests[tid].refresh.pc.userId in s.db.users
    ensures StepFated(srv, s, tid, envs, entropy)
  {
    hide Constraints;
  }

  lemma StoreIsFree(srv: TokenRuns.Server, s: State, tid: nat)
    requires Coherent(srv, s) && Ledger(s) && tid in s.requests
    requires Issue(s.requests[tid]).Some? && Issue(s.requests[tid]).value.Store?
    ensures var pc := Issue(s.requests[tid]).value; Sha256(pc.raw) !in s.db.tokens && pc.userId in s.db.users
  {
    hide Constraints, InOrder;
    assert RequestOk(srv, s.db, s.log.draws, tid, s.requests[tid]);
    assert RequestBooked(s.log, tid, s.requests[tid]);
    var pc := Issue(s.requests[tid]).value;
    assert Holds(s.db, s.log.draws[pc.raw].userId, s.log.draws[pc.raw].role);
  }

  lemma RefreshFated(srv: TokenRuns.Server, s: State, tid: nat, envs: nat -> Env, entropy: Option<string>)
    requires Coherent(srv, s) && Ledger(s)
    requires tid in s.requests && s.requests[tid].Refreshing? && Fated(s.db, s.seen, tid, s.requests[tid].refresh)
    ensures StepFated(srv, s, tid, envs, entropy)
  {
    hide Constraints, Coherent, Ledger, Fated, StepFated;
    if s.requests[tid].refresh.Find? {
      FindFated(srv, s, tid, envs, entropy);
    } else if s.requests[tid].refresh.Rotate? {
      RotateFated(srv, s, tid, envs, entropy);
    } else if !s.requests[tid].refresh.Reissue? {
      CheckFated(srv, s, tid, envs, entropy);
    } else if s.requests[tid].refresh.pc.Store? {
      StoreIsFree(srv, s, tid);
      StoreFated(srv, s, tid, envs, entropy);
    } else {
      SignFated(srv, s, tid, envs, entropy);
    }
  }

  // --- Whole actions, and runs of them ---

  // The request of tid apart, an action leaves what the others have seen.
  ghost predicate SeenBut(seen: Sightings, seen': Sightings, tid: nat) {
    && SameBut(seen.asked, seen'.asked, tid)
    && SameBut(seen.found, seen'.found, tid)
    && SameBut(seen.checked, seen'.checked, tid)
    && forall t :: t != tid ==> (t in seen.troubled <==> t in seen'.troubled)
  }

  lemma OthersFated(s: State, s': State, tid: nat)
    requires Fates(s) && Grows(s.db, s'.db) && SeenBut(s.seen, s'.seen, tid)
    requires forall t :: t != tid ==> (t in s.requests <==> t in s'.requests)
    requires forall t :: t in s.requests && t != tid ==> s'.requests[t] == s.requests[t]
    requires tid in s'.requests && s'.requests[tid].Refreshing? ==> Fated(s'.db, s'.seen, tid, s'.requests[tid].refresh)
    requires tid in s'.seen.asked ==> tid in s'.requests && s'.requests[tid].Refreshing?
    requires tid in s'.seen.found || tid in s'.seen.checked ==> tid in s'.seen.asked
    requires tid in s'.seen.troubled ==> tid in s'.requests
    ensures Fates(s')
  {
    hide Grows, Fated, Constraints;
    forall t | t in s'.requests && s'.requests[t].Refreshing? ensures Fated(s'.db, s'.seen, t, s'.requests[t].refresh) {
      if t != tid {
        FatedNeedsAsked(s, t);
        FatedStays(s.db, s'.db, s.seen, s'.seen, t, s.requests[t].refresh);
      }
    }
  }

  lemma FatedNeedsAsked(s: State, tid: nat)
    requires Fates(s) && tid in s.requests && s.requests[tid].Refreshing?
    ensures Fated(s.db, s.seen, tid, s.requests[tid].refresh) && tid in s.seen.asked
  {
  }

  lemma QuietFates(s: State, s': State)
    requires Fates(s) && Grows(s.db, s'.db) && s'.requests == s.requests && s'.seen == s.seen
    ensures Fates(s')
  {
    hide Grows, Fated, Constraints;
    forall t | t in s'.requests && s'.requests[t].Refreshing? ensures Fated(s'.db, s'.seen, t, s'.requests[t].refresh) {
      FatedNeedsAsked(s, t);
      FatedStays(s.db, s'.db, s.seen, s'.seen, t, s.requests[t].refresh);
    }
  }

  // A step of a request that is no refresh sees nothing a refresh goes by.
  lemma OtherStepSees(srv: TokenRuns.Server, s: State, tid: nat, envs: nat -> Env, entropy: Option<string>)
    requires tid in s.requests && !s.requests[tid].Refreshing?
    ensures var s' := DoAdvance(srv, s, tid, envs, entropy);
      && s'.seen.asked == s.seen.asked && s'.seen.found == s.seen.found && s'.seen.checked == s.seen.checked
      && s'.seen.troubled <= s.seen.troubled + {tid}
      && (forall t :: t != tid ==> (t in s.seen.troubled <==> t in s'.seen.troubled))
      && tid in s'.requests && !s'.requests[tid].Refreshing?
  {
    hide Constraints, LoginStep, IssueStep, Note;
  }

  lemma AdvanceFates(srv: TokenRuns.Server, s: State, tid: nat, envs: nat -> Env, entropy: Option<string>)
    requires Coherent(srv, s) && Ledger(s) && Fates(s)
    ensures Fates(DoAdvance(srv, s, tid, envs, entropy))
  {
    hide Constraints, Coherent, Ledger, Step, Note, Fated, Grows, UsersStep, Extends;
    AdvanceFair(srv, s, tid, envs, entropy);
    var s' := DoAdvance(srv, s, tid, envs, entropy);
    if tid !in s.requests || Repeats(s, entropy) {
      QuietFates(s, s');
    } else if s.requests[tid].Refreshing? {
      FatedNeedsAsked(s, tid);
      RefreshFated(srv, s, tid, envs, entropy);
      OthersFated(s, s', tid);
    } else {
      OtherStepSees(srv, s, tid, envs, entropy);
      OthersFated(s, s', tid);
    }
  }

  lemma AdmittedIsNoRefresh(valid: bool, state: string, provider: Provider)
    ensures !Admitted(valid, state, provider).Refreshing?
  {
  }

  lemma NobodyYet(s: State, tid: nat)
    requires Fates(s) && tid !in s.requests
    ensures tid !in s.seen.asked && tid !in s.seen.found && tid !in s.seen.checked && tid !in s.seen.troubled
  {
    hide Constraints, Fated;
  }

  lemma CallbackFates(s: State, tid: nat, state: string, provider: Provider)
    requires Fates(s) && Grows(s.db, DoCallback(s, tid, state, provider).db)
    ensures Fates(DoCallback(s, tid, state, provider))
  {
    hide Constraints, Grows, StateStores.Take, Admitted, Fated, Fates;
    if tid in s.requests {
      QuietFates(s, DoCallback(s, tid, state, provider));
    } else {
      NobodyYet(s, tid);
      AdmittedIsNoRefresh(StateStores.Take(s.entries, state, s.now).1, state, provider);
      OthersFated(s, DoCallback(s, tid, state, provider), tid);
    }
  }

  lemma AskRefreshFates(s: State, tid: nat, raw: string)
    requires Fates(s) && Grows(s.db, DoAskRefresh(s, tid, raw).db)
    ensures Fates(DoAskRefresh(s, tid, raw))
  {
    hide Constraints, Grows, Fates, Accepted;
    if tid in s.requests {
      QuietFates(s, DoAskRefresh(s, tid, raw));
    } else {
      NobodyYet(s, tid);
      OthersFated(s, DoAskRefresh(s, tid, raw), tid);
    }
  }

  lemma QuietCall(srv: TokenRuns.Server, s: State, a: Action)
    requires !a.Advance? && !a.Callback? && !a.AskRefresh?
    ensures Next(srv, s, a).requests == s.requests && Next(srv, s, a).seen == s.seen
  {
    hide Constraints, DoAdvance, DoCallback, DeleteTokensOfCall, MarkTokenUsedCall, DeleteTokensBeforeCall,
      SoftDeleteUserCall, Kill, StateStores.Put;
    match a
    case Tick(_) =>
    case Begin(_) =>
    case Revoke(_, _) =>
    case MarkUsed(_, _) =>
    case Purge(_, _) =>
    case SoftDelete(_, _) =>
  }

  lemma NextFates(srv: TokenRuns.Server, s: State, a: Action)
    requires Coherent(srv, s) && Ledger(s) && Fates(s)
    ensures Fates(Next(srv, s, a))
  {
    hide Constraints, Coherent, Ledger, Fates, Grows, UsersStep, Extends, DoAdvance, DoCallback, DoAskRefresh,
      DoRevoke, DoBegin;
    NextFair(srv, s, a);
    if a.Advance? {
      AdvanceFates(srv, s, a.tid, a.envs, a.entropy);
    } else if a.Callback? {
      CallbackFates(s, a.tid, a.state, a.provider);
    } else if a.AskRefresh? {
      AskRefreshFates(s, a.tid, a.raw);
    } else {
      QuietCall(srv, s, a);
      QuietFates(s, Next(srv, s, a));
    }
  }

  lemma {:induction false} RunFates(srv: TokenRuns.Server, t0: Time, actions: seq<Action>)
    ensures Fates(Run(srv, t0, actions))
  {
    hide Next, Coherent, Ledger;
    if actions != [] {
      hide Fates;
      var before := actions[..|actions| - 1];
      RunFates(srv, t0, before);
      RunCoherent(srv, t0, before);
      RunLedger(srv, t0, before);
      NextFates(srv, Run(srv, t0, before), actions[|actions| - 1]);
    }
  }

  // In every interleaving, a refresh that is over was honoured if and only if its
  // lookup found a row, unused, that had not expired at its check, and none of its
  // calls failed. What others did after its lookup makes no difference.
  lemma {:induction false} HonouredExactly(srv: TokenRuns.Server, t0: Time, actions: seq<Action>, tid: nat)
    requires tid in Run(srv, t0, actions).seen.asked
    ensures var s := Run(srv, t0, actions);
      && tid in s.requests
      && (Over(s.requests[tid]) ==>
            (Succeeded(s, tid, s.seen.asked[tid]) <==> Accepted(s.seen, tid) && tid !in s.seen.troubled))
  {
    hide Run, Constraints;
    RunFates(srv, t0, actions);
    var s := Run(srv, t0, actions);
    assert Fated(s.db, s.seen, tid, s.requests[tid].refresh);
  }

  // --- How often one token is honoured ---

  ghost function Successes(s: State, raw: string): set<nat> {
    set tid | tid in s.requests && Succeeded(s, tid, raw)
  }

  // The refreshes with this token that were past their lookup, and not over, when
  // step n was taken.
  ghost function PastLookup(s: State, raw: string, n: nat): set<nat> {
    set tid | tid in s.log.looked && tid in s.seen.asked && s.seen.asked[tid] == raw
      && s.log.looked[tid] < n && (tid in s.log.ended ==> n < s.log.ended[tid])
  }

  ghost predicate Honoured(s: State, tid: nat) {
    tid in s.requests && Over(s.requests[tid]) && Accepted(s.seen, tid) && tid !in s.seen.troubled
  }

  lemma SuccessAsked(srv: TokenRuns.Server, t0: Time, actions: seq<Action>, tid: nat, raw: string)
    requires Succeeded(Run(srv, t0, actions), tid, raw)
    ensures var s := Run(srv, t0, actions); tid in s.seen.asked && s.seen.asked[tid] == raw && Over(s.requests[tid])
  {
    hide Run, Constraints;
    RunFates(srv, t0, actions);
    var s := Run(srv, t0, actions);
    FatedNeedsAsked(s, tid);
  }

  // A token is honoured for exactly those of the calls past their lookup at the
  // first delete for its user that are over, found it good and met no failure. So
  // never more often than there were such calls.
  lemma {:induction false} SuccessesAreBounded(srv: TokenRuns.Server, t0: Time, actions: seq<Action>, raw: string)
    ensures var s := Run(srv, t0, actions);
      var h := Sha256(raw);
      if h in s.log.killed then
        var past := PastLookup(s, raw, s.log.killed[h]);
        && Successes(s, raw) == (set tid | tid in past && Honoured(s, tid))
        && |Successes(s, raw)| <= |past|
      else Successes(s, raw) == {}
  {
    hide Run, Succeeded, Accepted, Over;
    var s := Run(srv, t0, actions);
    var h := Sha256(raw);
    forall tid | tid in Successes(s, raw)
      ensures h in s.log.killed && tid in PastLookup(s, raw, s.log.killed[h]) && Honoured(s, tid)
    {
      SuccessLookedUpBeforeFirstDelete(srv, t0, actions, tid, raw);
      SuccessAsked(srv, t0, actions, tid, raw);
      HonouredExactly(srv, t0, actions, tid);
    }
    if h in s.log.killed {
      var past := PastLookup(s, raw, s.log.killed[h]);
      forall tid | tid in past && Honoured(s, tid) ensures tid in Successes(s, raw) {
        HonouredExactly(srv, t0, actions, tid);
      }
      SmallerSet(Successes(s, raw), past);
    }
  }

  // --- Any number of callers can share one token ---

  const UP: nat -> Env := (k: nat) => Env(false, 0)

  // One caller presents the token and stops before its delete.
  function Ask(tid: nat, raw: string): seq<Action> {
    [AskRefresh(tid, raw), Advance(tid, UP, None), Advance(tid, UP, None), Advance(tid, UP, None)]
  }

  // That caller goes on to the end, with a fresh draw.
  function Finish(tid: nat, draw: string): seq<Action> {
    [Advance(tid, UP, None), Advance(tid, UP, Some(draw)), Advance(tid, UP, None)]
  }

  function AskAll(tids: seq<nat>, raw: string): seq<Action> {
    if tids == [] then [] else AskAll(tids[..|tids| - 1], raw) + Ask(tids[|tids| - 1], raw)
  }

  function FinishAll(tids: seq<nat>, draws: seq<string>): seq<Action>
    requires |tids| == |draws|
  {
    if tids == [] then []
    else
      var n := |tids| - 1;
      FinishAll(tids[..n], draws[..n]) + Finish(tids[n], draws[n])
  }

  lemma {:induction false} AfterBoth(srv: TokenRuns.Server, s: State, a: seq<Action>, b: seq<Action>)
    ensures After(srv, s, a + b) == After(srv, After(srv, s, a), b)
    decreases |b|
  {
    hide Next;
    if b == [] {
      assert a + b == a;
    } else {
      var n := |b| - 1;
      assert (a + b)[..|a + b| - 1] == a + b[..n];
      AfterBoth(srv, s, a, b[..n]);
    }
  }

  lemma AfterOne(srv: TokenRuns.Server, s: State, a: Action)
    ensures After(srv, s, [a]) == Next(srv, s, a)
  {
    hide Next;
    assert [a][..0] == [];
  }

  // The token's row can still be used.
  ghost predicate Good(s: State, raw: string) {
    var h := Sha256(raw);
    h in s.db.tokens && s.db.tokens[h].usedAt.None? && s.now <= s.db.tokens[h].expiresAt
  }

  // The caller tid stands before its delete, whatever has become of the row.
  ghost predicate Poised(s: State, tid: nat, raw: string, userId: Uuid) {
    && tid in s.requests && s.requests[tid].Refreshing? && s.requests[tid].refresh.Rotate?
    && s.requests[tid].refresh.raw == raw
    && s.requests[tid].refresh.user.id == userId && s.requests[tid].refresh.rt.userId == userId
  }

  lemma AskStarts(srv: TokenRuns.Server, s: State, tid: nat, raw: string)
    requires tid !in s.requests
    ensures var s' := Next(srv, s, AskRefresh(tid, raw));
      && s'.db == s.db && s'.now == s.now && s'.log.draws == s.log.draws
      && s'.requests == s.requests[tid := Refreshing(Find(raw))] && s'.seen.asked == s.seen.asked[tid := raw]
  {
    hide Constraints;
  }

  lemma AskFinds(srv: TokenRuns.Server, s: State, tid: nat, raw: string)
    requires tid in s.requests && s.requests[tid] == Refreshing(Find(raw)) && Good(s, raw)
    ensures var s' := Next(srv, s, Advance(tid, UP, None));
      && s'.db == s.db && s'.now == s.now && s'.log.draws == s.log.draws && s'.seen.asked == s.seen.asked
      && s'.requests == s.requests[tid := Refreshing(Check(raw, s.db.tokens[Sha256(raw)]))]
  {
    hide Constraints, Kill;
  }

  lemma AskChecks(srv: TokenRuns.Server, s: State, tid: nat, raw: string, rt: RefreshToken)
    requires tid in s.requests && s.requests[tid] == Refreshing(Check(raw, rt))
    requires s.now <= rt.expiresAt && rt.usedAt.None?
    ensures var s' := Next(srv, s, Advance(tid, UP, None));
      && s'.db == s.db && s'.now == s.now && s'.log.draws == s.log.draws && s'.seen.asked == s.seen.asked
      && s'.requests == s.requests[tid := Refreshing(LoadUser(raw, rt))]
  {
    hide Constraints, Kill;
  }

  lemma AskLoads(srv: TokenRuns.Server, s: State, tid: nat, raw: string, rt: RefreshToken)
    requires tid in s.requests && s.requests[tid] == Refreshing(LoadUser(raw, rt)) && rt.userId in s.db.users
    ensures var s' := Next(srv, s, Advance(tid, UP, None));
      && s'.db == s.db && s'.now == s.now && s'.log.draws == s.log.draws && s'.seen.asked == s.seen.asked
      && s'.requests == s.requests[tid := Refreshing(Rotate(raw, rt, s.db.users[rt.userId]))]
  {
    hide Constraints, Kill;
  }

  lemma RowHasUser(db: Db, h: TokenHash)
    requires h in db.tokens
    ensures db.tokens[h].userId in db.users && db.users[db.tokens[h].userId].id == db.tokens[h].userId
  {
  }

  lemma Asked(srv: TokenRuns.Server, s: State, tid: nat, raw: string)
    requires tid !in s.requests && Good(s, raw)
    ensures var s' := After(srv, s, Ask(tid, raw));
      && s'.db == s.db && s'.now == s.now && s'.log.draws == s.log.draws && s'.seen.asked == s.seen.asked[tid := raw]
      && Poised(s', tid, raw, s.db.tokens[Sha256(raw)].userId)
      && (forall t :: t in s'.requests <==> t in s.requests || t == tid)
      && forall t :: t in s.requests ==> s'.requests[t] == s.requests[t]
  {
    hide Next, Constraints, After;
    var rt := s.db.tokens[Sha256(raw)];
    var step := Advance(tid, UP, None);
    var s1 := Next(srv, s, AskRefresh(tid, raw));
    var s2 := Next(srv, s1, step);
    var s3 := Next(srv, s2, step);
    AskStarts(srv, s, tid, raw);
    AskFinds(srv, s1, tid, raw);
    AskChecks(srv, s2, tid, raw, rt);
    RowHasUser(s.db, Sha256(raw));
    AskLoads(srv, s3, tid, raw, rt);
    AfterThese(srv, s, AskRefresh(tid, raw), step, step, step);
  }

  lemma AfterThese(srv: TokenRuns.Server, s: State, a: Action, b: Action, c: Action, d: Action)
    ensures After(srv, s, [a, b, c]) == Next(srv, Next(srv, Next(srv, s, a), b), c)
    ensures After(srv, s, [a, b, c, d]) == Next(srv, Next(srv, Next(srv, Next(srv, s, a), b), c), d)
  {
    hide Next, After;
    AfterOne(srv, s, a);
    AfterBoth(srv, s, [a], [b]);
    AfterOne(srv, After(srv, s, [a]), b);
    assert [a] + [b] == [a, b];
    AfterBoth(srv, s, [a, b], [c]);
    AfterOne(srv, After(srv, s, [a, b]), c);
    assert [a, b] + [c] == [a, b, c];
    AfterBoth(srv, s, [a, b, c], [d]);
    AfterOne(srv, After(srv, s, [a, b, c]), d);
    assert [a, b, c] + [d] == [a, b, c, d];
  }

  lemma FinishDeletes(srv: TokenRuns.Server, s: State, tid: nat, raw: string, userId: Uuid)
    requires Poised(s, tid, raw, userId)
    ensures var s' := Next(srv, s, Advance(tid, UP, None));
      var pc := s.requests[tid].refresh;
      && s'.db.users == s.db.users && s'.db.tokens == s.db.tokens - TokensOf(s.db.tokens, userId)
      && s'.log.draws == s.log.draws && s'.seen.asked == s.seen.asked
      && s'.requests == s.requests[tid := Refreshing(Reissue(raw, pc.rt, Sign(userId, pc.user.role)))]
  {
    hide Constraints, Kill, DeleteTokensOfCall;
    DeleteEffect(s.db, userId, UP(0));
    TokenRuns.RevokeEffect(s.db, userId, UP(0));
  }

  lemma FinishSigns(srv: TokenRuns.Server, s: State, tid: nat, raw: string, rt: RefreshToken, u: Uuid, role: UserRole,
                    draw: string)
    requires tid in s.requests && s.requests[tid] == Refreshing(Reissue(raw, rt, Sign(u, role)))
    requires draw !in s.log.draws
    ensures var s' := Next(srv, s, Advance(tid, UP, Some(draw)));
      && s'.db == s.db && s'.seen.asked == s.seen.asked
      && s'.log.draws.Keys == s.log.draws.Keys + {draw}
      && s'.requests == s.requests[tid := Refreshing(Reissue(raw, rt, Store(u, role, s.now, draw)))]
  {
    hide Constraints, Kill;
  }

  lemma FinishStores(srv: TokenRuns.Server, s: State, tid: nat, raw: string, rt: RefreshToken, u: Uuid, role: UserRole,
                     at: Time, draw: string)
    requires tid in s.requests && s.requests[tid] == Refreshing(Reissue(raw, rt, Store(u, role, at, draw)))
    requires u in s.db.users && Sha256(draw) !in s.db.tokens
    ensures var s' := Next(srv, s, Advance(tid, UP, None));
      && s'.db.users == s.db.users && s'.db.tokens.Keys == s.db.tokens.Keys + {Sha256(draw)}
      && s'.log.draws == s.log.draws && s'.seen.asked == s.seen.asked
      && var issued := Issued(Ok(Response(srv.secret, u, role, at, draw)));
         s'.requests == s.requests[tid := Refreshing(Reissue(raw, rt, issued))]
  {
    hide Constraints, Kill, Response;
  }

  // What the whole way of one caller from its delete leaves.
  ghost predicate FinishedOne(s: State, s': State, tid: nat, raw: string, draw: string) {
    && Succeeded(s', tid, raw)
    && s'.requests.Keys == s.requests.Keys
    && (forall t :: t in s.requests && t != tid ==> s'.requests[t] == s.requests[t])
    && s'.db.users == s.db.users && s'.seen.asked == s.seen.asked
    && s'.log.draws.Keys == s.log.draws.Keys + {draw}
    && s'.db.tokens.Keys <= s.db.tokens.Keys + {Sha256(draw)}
  }

  lemma IssuedSucceeds(s: State, tid: nat, raw: string)
    requires tid in s.requests && s.requests[tid].Refreshing? && s.requests[tid].refresh.Reissue?
    requires s.requests[tid].refresh.raw == raw
    requires s.requests[tid].refresh.pc.Issued? && s.requests[tid].refresh.pc.result.Ok?
    ensures Succeeded(s, tid, raw)
  {
  }

  lemma Finished(srv: TokenRuns.Server, s: State, tid: nat, raw: string, userId: Uuid, draw: string)
    requires Poised(s, tid, raw, userId) && userId in s.db.users
    requires draw !in s.log.draws && Sha256(draw) !in s.db.tokens
    ensures FinishedOne(s, After(srv, s, Finish(tid, draw)), tid, raw, draw)
  {
    hide Next, Constraints, After, Response, TokensOf, Succeeded;
    var pc, step := s.requests[tid].refresh, Advance(tid, UP, None);
    var s1 := Next(srv, s, step);
    FinishDeletes(srv, s, tid, raw, userId);
    FinishSigns(srv, s1, tid, raw, pc.rt, userId, pc.user.role, draw);
    var s2 := Next(srv, s1, Advance(tid, UP, Some(draw)));
    FinishStores(srv, s2, tid, raw, pc.rt, userId, pc.user.role, s1.now, draw);
    AfterThese(srv, s, step, Advance(tid, UP, Some(draw)), step, step);
    IssuedSucceeds(Next(srv, s2, step), tid, raw);
  }

  ghost predicate Distinct<T>(xs: seq<T>) {
    forall i, j :: 0 <= i < j < |xs| ==> xs[i] != xs[j]
  }

  // The user the token was stored for.
  ghost function OwnerOf(s: State, raw: string): (u: Uuid)
    requires Good(s, raw)
    ensures u == s.db.tokens[Sha256(raw)].userId && u in s.db.users
  {
    s.db.tokens[Sha256(raw)].userId
  }

  // What it leaves that these callers have asked, one after the other.
  ghost predicate HaveAsked(s: State, s': State, tids: seq<nat>, raw: string, userId: Uuid) {
    && s'.db == s.db && s'.now == s.now && s'.log.draws == s.log.draws
    && (forall tid :: tid in tids ==> Poised(s', tid, raw, userId))
    && (forall t :: t in s'.requests <==> t in s.requests || t in tids)
    && (forall t :: t in s'.seen.asked <==> t in s.seen.asked || t in tids)
    && (forall t :: t in s.seen.asked && t !in tids ==> s'.seen.asked[t] == s.seen.asked[t])
  }

  lemma StillPoised(mid: State, s': State, tids: seq<nat>, raw: string, userId: Uuid)
    requires tids != [] && Poised(s', tids[|tids| - 1], raw, userId)
    requires forall tid :: tid in tids[..|tids| - 1] ==> Poised(mid, tid, raw, userId)
    requires forall t :: t in mid.requests ==> t in s'.requests && s'.requests[t] == mid.requests[t]
    ensures forall tid :: tid in tids ==> Poised(s', tid, raw, userId)
  {
    hide Constraints, Poised;
    var n := |tids| - 1;
    forall tid | tid in tids ensures Poised(s', tid, raw, userId) {
      if tid != tids[n] {
        assert tid in tids[..n];
        PoisedIsThere(mid, tid, raw, userId);
        PoisedStays(mid, s', tid, raw, userId);
      }
    }
  }

  lemma OneMore(s: State, mid: State, s': State, tids: seq<nat>, raw: string, userId: Uuid)
    requires tids != [] && Distinct(tids) && HaveAsked(s, mid, tids[..|tids| - 1], raw, userId)
    requires s'.db == mid.db && s'.now == mid.now && s'.log.draws == mid.log.draws
    requires forall tid :: tid in tids ==> Poised(s', tid, raw, userId)
    requires forall t :: t in s'.requests <==> t in mid.requests || t == tids[|tids| - 1]
    requires s'.seen.asked == mid.seen.asked[tids[|tids| - 1] := raw]
    ensures HaveAsked(s, s', tids, raw, userId)
  {
    hide Constraints, Poised;
    var n := |tids| - 1;
    assert forall t :: t in tids <==> t in tids[..n] || t == tids[n];
  }

  lemma OneMoreAsked(srv: TokenRuns.Server, s: State, mid: State, tids: seq<nat>, raw: string, userId: Uuid)
    requires tids != [] && Distinct(tids) && Good(mid, raw) && userId == mid.db.tokens[Sha256(raw)].userId
    requires forall tid :: tid in tids ==> tid !in s.requests
    requires HaveAsked(s, mid, tids[..|tids| - 1], raw, userId)
    ensures HaveAsked(s, After(srv, mid, Ask(tids[|tids| - 1], raw)), tids, raw, userId)
  {
    hide Next, Constraints, After, Ask, Poised, Good;
    var n := |tids| - 1;
    var s' := After(srv, mid, Ask(tids[n], raw));
    assert tids[n] in tids && tids[n] !in tids[..n];
    assert tids[n] !in mid.requests;
    Asked(srv, mid, tids[n], raw);
    StillPoised(mid, s', tids, raw, userId);
    hide HaveAsked;
    OneMore(s, mid, s', tids, raw, userId);
  }

  // Callers that have all asked stand at their delete, and nothing else has changed.
  lemma {:induction false} AllAsked(srv: TokenRuns.Server, s: State, tids: seq<nat>, raw: string)
    requires Distinct(tids) && Good(s, raw) && forall tid :: tid in tids ==> tid !in s.requests
    ensures HaveAsked(s, After(srv, s, AskAll(tids, raw)), tids, raw, OwnerOf(s, raw))
  {
    hide Next, Constraints, Ask, Poised;
    if tids != [] {
      hide After;
      var n := |tids| - 1;
      AllAsked(srv, s, tids[..n], raw);
      AfterBoth(srv, s, AskAll(tids[..n], raw), Ask(tids[n], raw));
      OneMoreAsked(srv, s, After(srv, s, AskAll(tids[..n], raw)), tids, raw, OwnerOf(s, raw));
    }
  }

  lemma PoisedStays(s: State, s': State, tid: nat, raw: string, userId: Uuid)
    requires Poised(s, tid, raw, userId) && tid in s'.requests && s'.requests[tid] == s.requests[tid]
    ensures Poised(s', tid, raw, userId)
  {
    hide Constraints;
  }

  // What it leaves that these callers have finished, one after the other.
  ghost predicate HaveFinished(s: State, s': State, tids: seq<nat>, draws: seq<string>, raw: string) {
    && (forall tid :: tid in tids ==> Succeeded(s', tid, raw))
    && s'.requests.Keys == s.requests.Keys && s'.db.users == s.db.users && s'.seen.asked == s.seen.asked
    && (forall t :: t in s.requests && t !in tids ==> s'.requests[t] == s.requests[t])
    && (forall d :: d in s'.log.draws ==> d in s.log.draws || d in draws)
    && (forall h :: h in s'.db.tokens ==> h in s.db.tokens || h.raw in draws)
  }

  lemma OneMoreFinished(srv: TokenRuns.Server, s: State, mid: State, tids: seq<nat>, draws: seq<string>, raw: string,
                        userId: Uuid)
    requires |tids| == |draws| > 0 && Distinct(tids) && Distinct(draws) && userId in s.db.users
    requires Poised(s, tids[|tids| - 1], raw, userId)
    requires forall d :: d in draws ==> d !in s.log.draws && Sha256(d) !in s.db.tokens
    requires HaveFinished(s, mid, tids[..|tids| - 1], draws[..|tids| - 1], raw)
    ensures HaveFinished(s, After(srv, mid, Finish(tids[|tids| - 1], draws[|tids| - 1])), tids, draws, raw)
  {
    hide Next, Constraints, After, Finish, Poised, Succeeded;
    var n := |tids| - 1;
    assert tids[n] !in tids[..n] && draws[n] !in draws[..n] && draws[n] in draws;
    PoisedStays(s, mid, tids[n], raw, userId) by { PoisedIsThere(s, tids[n], raw, userId); }
    Finished(srv, mid, tids[n], raw, userId, draws[n]);
    var s' := After(srv, mid, Finish(tids[n], draws[n]));
    forall tid | tid in tids ensures Succeeded(s', tid, raw) {
      if tid != tids[n] {
        assert tid in tids[..n];
        SuccessStays(mid, s', tid, raw);
      }
    }
    assert forall t :: t in tids <==> t in tids[..n] || t == tids[n];
    assert forall d :: d in draws <==> d in draws[..n] || d == draws[n];
  }

  // Callers that stand at their delete all succeed, one after the other.
  lemma {:induction false} AllFinished(srv: TokenRuns.Server, s: State, tids: seq<nat>, draws: seq<string>,
                                       raw: string, userId: Uuid)
    requires |tids| == |draws| && Distinct(tids) && Distinct(draws) && userId in s.db.users
    requires forall tid :: tid in tids ==> Poised(s, tid, raw, userId)
    requires forall d :: d in draws ==> d !in s.log.draws && Sha256(d) !in s.db.tokens
    ensures HaveFinished(s, After(srv, s, FinishAll(tids, draws)), tids, draws, raw)
  {
    hide Next, Constraints, Finish, Poised, Succeeded;
    if tids != [] {
      hide After, HaveFinished;
      var n := |tids| - 1;
      AllFinished(srv, s, tids[..n], draws[..n], raw, userId);
      AfterBoth(srv, s, FinishAll(tids[..n], draws[..n]), Finish(tids[n], draws[n]));
      OneMoreFinished(srv, s, After(srv, s, FinishAll(tids[..n], draws[..n])), tids, draws, raw, userId);
    }
  }

  lemma PoisedIsThere(s: State, tid: nat, raw: string, userId: Uuid)
    requires Poised(s, tid, raw, userId)
    ensures tid in s.requests
  {
    hide Constraints;
  }

  lemma SuccessStays(s: State, s': State, tid: nat, raw: string)
    requires Succeeded(s, tid, raw) && s'.requests.Keys == s.requests.Keys
    requires tid in s.requests ==> s'.requests[tid] == s.requests[tid]
    ensures Succeeded(s', tid, raw)
  {
    hide Constraints;
  }

  // In any state of any interleaving in which a token is good, any number of new
  // callers that look it up before the first of them deletes it are all honoured,
  // as long as nothing fails. If nobody presented it before, the bound above is
  // then met exactly.
  lemma {:induction false} AnyNumberIsHonoured(srv: TokenRuns.Server, t0: Time, actions: seq<Action>, raw: string,
                                               tids: seq<nat>, draws: seq<string>)
    requires |tids| == |draws| > 0 && Distinct(tids) && Distinct(draws)
    requires var s := Run(srv, t0, actions);
      && Good(s, raw) && (forall tid :: tid in tids ==> tid !in s.requests)
      && forall d :: d in draws ==> d !in s.log.draws
    ensures var s := Run(srv, t0, actions);
      var s' := Run(srv, t0, actions + (AskAll(tids, raw) + FinishAll(tids, draws)));
      && (forall tid :: tid in tids ==> Succeeded(s', tid, raw))
      && ((forall t :: t in s.seen.asked ==> s.seen.asked[t] != raw) ==>
            Sha256(raw) in s'.log.killed
            && Successes(s', raw) == PastLookup(s', raw, s'.log.killed[Sha256(raw)]) == set tid | tid in tids)
  {
    hide Constraints, After, AskAll, FinishAll, Good, Poised, Succeeded, Ledger, Coherent;
    var s := Run(srv, t0, actions);
    var userId := OwnerOf(s, raw);
    AfterBoth(srv, Initial(t0), actions, AskAll(tids, raw) + FinishAll(tids, draws));
    AfterBoth(srv, s, AskAll(tids, raw), FinishAll(tids, draws));
    AllAsked(srv, s, tids, raw);
    RunLedger(srv, t0, actions);
    forall d | d in draws ensures Sha256(d) !in s.db.tokens {
      FreshIsNotStored(s, d);
    }
    AllFinished(srv, After(srv, s, AskAll(tids, raw)), tids, draws, raw, userId);
    var all := actions + (AskAll(tids, raw) + FinishAll(tids, draws));
    SuccessesAreBounded(srv, t0, all, raw);
    if forall t :: t in s.seen.asked ==> s.seen.asked[t] != raw {
      ExactlyThese(srv, t0, all, raw, tids);
    }
  }

  lemma FreshIsNotStored(s: State, draw: string)
    requires Ledger(s) && draw !in s.log.draws
    ensures Sha256(draw) !in s.db.tokens
  {
    hide Constraints;
    assert forall h :: h in s.db.tokens ==> h in s.log.stored && h.raw in s.log.draws;
  }

  lemma ExactlyThese(srv: TokenRuns.Server, t0: Time, actions: seq<Action>, raw: string, tids: seq<nat>)
    requires tids != []
    requires var s := Run(srv, t0, actions);
      && (forall tid :: tid in tids ==> Succeeded(s, tid, raw))
      && (forall t :: t in s.seen.asked && s.seen.asked[t] == raw ==> t in tids)
    ensures var s := Run(srv, t0, actions);
      && Sha256(raw) in s.log.killed
      && Successes(s, raw) == PastLookup(s, raw, s.log.killed[Sha256(raw)]) == set tid | tid in tids
  {
    hide Run, Constraints, Honoured;
    SuccessesAreBounded(srv, t0, actions, raw);
    var s := Run(srv, t0, actions);
    forall tid | tid in tids ensures tid in Successes(s, raw) {
      assert Succeeded(s, tid, raw);
      SuccessLookedUpBeforeFirstDelete(srv, t0, actions, tid, raw);
    }
    assert tids[0] in tids;
  }
}

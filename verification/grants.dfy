// Every session issued through a callback goes back to a state of its own.
module Grants {
  import opened Domain
  import opened Tables
  import opened Resolver
  import opened Sessions
  import opened Service
  import StateStores
  import TokenRuns

  // The state a login was admitted with.
  function GrantOf(rq: Request): Option<string> {
    match rq
    case LoggingIn(grant, _) => Some(grant)
    case LoggedIn(grant, _, _) => Some(grant)
    case _ => None
  }

  ghost predicate Granted(s: State) {
    && (forall st {:trigger s.entries[st]} :: st in s.entries ==>
          st in s.log.generated && s.entries[st] == s.log.generated[st] + StateStores.STATE_TTL && st !in s.log.spent)
    && (forall st {:trigger s.log.generated[st]} :: st in s.log.generated ==> s.log.generated[st] <= s.now)
    && (forall st {:trigger s.log.spent[st]} :: st in s.log.spent ==>
          st in s.log.generated
          && s.log.generated[st] <= s.log.spent[st].at < s.log.generated[st] + StateStores.STATE_TTL)
    && (forall tid {:trigger s.requests[tid]} :: tid in s.requests && GrantOf(s.requests[tid]).Some? ==>
          var g := GrantOf(s.requests[tid]).value; g in s.log.spent && s.log.spent[g].tid == tid)
  }

  // A step never changes what a request was admitted with.
  lemma StepKeepsGrant(srv: TokenRuns.Server, db: Db, rq: Request, envs: nat -> Env, now: Time, entropy: Option<string>)
    ensures GrantOf(Step(srv, db, rq, envs, now, entropy).1) == GrantOf(rq)
  {
    hide LoginStep, IssueStep, RefreshStep, Constraints;
  }

  // Same store and log of states, a clock not earlier, and no new grant.
  lemma QuietGrants(s: State, s': State)
    requires Granted(s) && s.now <= s'.now && s'.entries == s.entries
    requires s'.log.generated == s.log.generated && s'.log.spent == s.log.spent
    requires forall tid :: tid in s'.requests && GrantOf(s'.requests[tid]).Some? ==>
      tid in s.requests && GrantOf(s.requests[tid]) == GrantOf(s'.requests[tid])
    ensures Granted(s')
  {
    hide Constraints;
  }

  lemma BeginGrants(s: State, state: string)
    requires Granted(s)
    ensures Granted(DoBegin(s, state))
  {
    hide Constraints;
  }

  lemma CallbackGrants(s: State, tid: nat, state: string, provider: Provider)
    requires Granted(s)
    ensures Granted(DoCallback(s, tid, state, provider))
  {
    hide Constraints;
  }

  lemma AdvanceGrants(srv: TokenRuns.Server, s: State, tid: nat, envs: nat -> Env, entropy: Option<string>)
    requires Granted(s)
    ensures Granted(DoAdvance(srv, s, tid, envs, entropy))
  {
    hide Constraints, Step, Granted, GrantOf;
    if tid in s.requests {
      StepKeepsGrant(srv, s.db, s.requests[tid], envs, s.now, entropy);
    }
    QuietGrants(s, DoAdvance(srv, s, tid, envs, entropy));
  }

  lemma NextGrants(srv: TokenRuns.Server, s: State, a: Action)
    requires Granted(s)
    ensures Granted(Next(srv, s, a))
  {
    hide Constraints, Granted, DoAdvance, DoBegin, DoCallback, Kill,
      DeleteTokensOfCall, DeleteTokensBeforeCall, MarkTokenUsedCall, SoftDeleteUserCall;
    match a
    case Begin(state) => BeginGrants(s, state);
    case Callback(tid, state, provider) => CallbackGrants(s, tid, state, provider);
    case Advance(tid, envs, entropy) => AdvanceGrants(srv, s, tid, envs, entropy);
    case AskRefresh(_, _) => QuietGrants(s, Next(srv, s, a));
    case Tick(_) => QuietGrants(s, Next(srv, s, a));
    case Revoke(_, _) => QuietGrants(s, Next(srv, s, a));
    case MarkUsed(_, _) => QuietGrants(s, Next(srv, s, a));
    case Purge(_, _) => QuietGrants(s, Next(srv, s, a));
    case SoftDelete(_, _) => QuietGrants(s, Next(srv, s, a));
  }

  lemma {:induction false} RunGrants(srv: TokenRuns.Server, t0: Time, actions: seq<Action>)
    ensures Granted(Run(srv, t0, actions))
  {
    hide Next;
    if actions != [] {
      RunGrants(srv, t0, actions[..|actions| - 1]);
      NextGrants(srv, Run(srv, t0, actions[..|actions| - 1]), actions[|actions| - 1]);
    }
  }

  // The logins that ended with a session token.
  function SessionsIssued(s: State): set<nat> {
    set tid | tid in s.requests && s.requests[tid].LoggedIn?
      && s.requests[tid].issue.Issued? && s.requests[tid].issue.result.Ok?
  }

  function States(s: State, tids: set<nat>): set<string>
    requires forall tid :: tid in tids ==> tid in s.requests && GrantOf(s.requests[tid]).Some?
  {
    set tid | tid in tids :: GrantOf(s.requests[tid]).value
  }

  lemma {:induction false} OneStateEach(s: State, tids: set<nat>)
    requires Granted(s)
    requires forall tid :: tid in tids ==> tid in s.requests && GrantOf(s.requests[tid]).Some?
    ensures |States(s, tids)| == |tids|
  {
    if tids != {} {
      var tid :| tid in tids;
      var g := GrantOf(s.requests[tid]).value;
      OneStateEach(s, tids - {tid});
      assert g !in States(s, tids - {tid});
      assert States(s, tids) == States(s, tids - {tid}) + {g};
    }
  }

  // Whichever providers share the store and however callbacks interleave: two
  // sessions never go back to the same state, each goes back to a state generated
  // less than five minutes before it was validated, for that very login, and so
  // there are never more sessions than states were generated.
  lemma SessionsAreConserved(srv: TokenRuns.Server, t0: Time, actions: seq<Action>)
    ensures var s := Run(srv, t0, actions);
      && (forall a, b :: a in SessionsIssued(s) && b in SessionsIssued(s) && a != b ==>
            s.requests[a].grant != s.requests[b].grant)
      && (forall tid :: tid in SessionsIssued(s) ==>
            var g := s.requests[tid].grant;
            && g in s.log.generated && g in s.log.spent && s.log.spent[g].tid == tid
            && 0 <= s.log.spent[g].at - s.log.generated[g] < 300 * 1_000_000_000)
      && |SessionsIssued(s)| <= |s.log.generated|
  {
    hide Run, Constraints;
    RunGrants(srv, t0, actions);
    var s := Run(srv, t0, actions);
    var tids := SessionsIssued(s);
    OneStateEach(s, tids);
    SmallerSet(States(s, tids), s.log.generated.Keys);
    assert |s.log.generated.Keys| == |s.log.generated|;
  }
}

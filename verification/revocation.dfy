// Revoking all sessions of a user takes effect within a fixed time.
module Revocation {
  import opened Domain
  import opened Tables
  import opened Sessions
  import opened Middleware
  import opened TokenRuns
  import SequentialLogins

  // No claim outlives the last clock reading by more than the JWT lifetime.
  ghost predicate Bounded(minted: set<Claims>, now: Time) {
    forall c :: c in minted ==> c.exp.Some? && c.exp.value * SECOND <= now + JWT_TTL
  }

  // Every claim and every token of user u goes back to before T.
  ghost predicate CutOff(s: State, u: Uuid, T: Time) {
    && T <= s.now
    && (forall h :: h in s.db.tokens ==> s.db.tokens[h].userId != u)
    && (forall c :: c in s.minted && c.sub == Some(u) ==> c.exp.Some? && c.exp.value * SECOND <= T + JWT_TTL)
  }

  lemma MintIsBounded(userId: Uuid, role: UserRole, m: Time)
    ensures Bounded({MintClaims(userId, role, m)}, m)
  {
    WholeSeconds(m + JWT_TTL);
  }

  lemma DoBounded(srv: Server, s: State, c: Call)
    requires Bounded(s.minted, s.now)
    ensures Bounded(Do(srv, s, c).minted, Do(srv, s, c).now)
  {
    hide Constraints, SignInOutcome, RefreshCall, SignInShape, RefreshShape;
    if c.SignIn? {
      var outcome := SignInCallShape(srv, s, c);
      SignedInBounded(s, s.now + c.lag, outcome, c.entropy);
    } else if c.Refresh? {
      var outcome := RefreshCallShape(srv, s, c);
      RefreshedBounded(s, c.raw, s.now + c.lag, outcome, c.entropy);
    }
  }

  lemma SignedInBounded(s: State, later: Time, outcome: (Db, Result<TokenResponse>), entropy: Option<string>)
    requires Bounded(s.minted, s.now) && s.now <= later && SignInShape(s.db, outcome, later, entropy)
    ensures Bounded(SignedIn(s, later, outcome).minted, later)
  {
    var r := outcome.1;
    if r.Ok? {
      MintIsBounded(r.value.token.claims.sub.value, r.value.token.claims.role.value, later);
    }
  }

  lemma RefreshedBounded(s: State, raw: string, later: Time, outcome: (Db, Result<TokenResponse>),
                         entropy: Option<string>)
    requires Bounded(s.minted, s.now) && s.now <= later && RefreshShape(s.db, raw, outcome, later, entropy)
    ensures Bounded(Refreshed(s, raw, later, outcome).minted, later)
  {
    var r := outcome.1;
    if r.Ok? {
      var u := s.db.tokens[Sha256(raw)].userId;
      MintIsBounded(u, s.db.users[u].role, later);
    }
  }

  lemma {:induction false} RunBounded(srv: Server, t0: Time, calls: seq<Call>)
    ensures Bounded(After(srv, Initial(t0), calls).minted, After(srv, Initial(t0), calls).now)
  {
    if calls != [] {
      RunBounded(srv, t0, calls[..|calls| - 1]);
      DoBounded(srv, After(srv, Initial(t0), calls[..|calls| - 1]), calls[|calls| - 1]);
    }
  }

  // This call does not start a session of u by signing in.
  ghost predicate NoSignInOf(srv: Server, s: State, c: Call, u: Uuid) {
    c.SignIn? ==>
      var r := SignInOutcome(srv, s, c).1;
      r.Ok? && r.value.token.Jwt? ==> r.value.token.claims.sub != Some(u)
  }

  ghost predicate NoLaterSignIn(srv: Server, s: State, calls: seq<Call>, u: Uuid) {
    forall k :: 0 <= k < |calls| ==> NoSignInOf(srv, After(srv, s, calls[..k]), calls[k], u)
  }

  lemma SignedInCutOff(s: State, later: Time, outcome: (Db, Result<TokenResponse>),
                         entropy: Option<string>, u: Uuid, T: Time)
    requires CutOff(s, u, T) && s.now <= later && SignInShape(s.db, outcome, later, entropy)
    requires outcome.1.Ok? ==> outcome.1.value.token.claims.sub != Some(u)
    ensures CutOff(SignedIn(s, later, outcome), u, T)
  {
  }

  lemma RefreshedCutOff(s: State, raw: string, later: Time, outcome: (Db, Result<TokenResponse>),
                         entropy: Option<string>, u: Uuid, T: Time)
    requires CutOff(s, u, T) && s.now <= later && RefreshShape(s.db, raw, outcome, later, entropy)
    ensures CutOff(Refreshed(s, raw, later, outcome), u, T)
    ensures outcome.1.Ok? ==> outcome.1.value.token.claims.sub != Some(u)
  {
  }

  lemma TokenCallCutOff(srv: Server, s: State, c: Call, u: Uuid, T: Time)
    requires CutOff(s, u, T) && (c.Revoke? || c.MarkUsed? || c.Purge?)
    ensures CutOff(Do(srv, s, c), u, T)
  {
    if c.Revoke? {
      RevokeEffect(s.db, c.userId, c.env);
    } else if c.MarkUsed? {
      MarkEffect(s.db, c.hash, s.now, c.env);
    } else {
      PurgeEffect(s.db, s.now - c.age, c.env);
    }
  }

  lemma DoCutOff(srv: Server, s: State, c: Call, u: Uuid, T: Time)
    requires CutOff(s, u, T) && NoSignInOf(srv, s, c, u)
    ensures CutOff(Do(srv, s, c), u, T)
  {
    hide Constraints, SignInOutcome, RefreshCall;
    if c.SignIn? {
      var outcome := SignInCallShape(srv, s, c);
      SignedInCutOff(s, s.now + c.lag, outcome, c.entropy, u, T);
    } else if c.Refresh? {
      var outcome := RefreshCallShape(srv, s, c);
      RefreshedCutOff(s, c.raw, s.now + c.lag, outcome, c.entropy, u, T);
    } else if c.SoftDelete? {
      SequentialLogins.SoftDeleteKeeps(s.db, c.id, s.now, c.env);
    } else if !c.Wait? {
      TokenCallCutOff(srv, s, c, u, T);
    }
  }

  lemma {:induction false} RunCutOff(srv: Server, s: State, calls: seq<Call>, u: Uuid, T: Time)
    requires CutOff(s, u, T) && NoLaterSignIn(srv, s, calls, u)
    ensures CutOff(After(srv, s, calls), u, T)
  {
    if calls != [] {
      var n := |calls| - 1;
      forall k | 0 <= k < n ensures NoSignInOf(srv, After(srv, s, calls[..n][..k]), calls[..n][k], u) {
        assert calls[..n][..k] == calls[..k];
      }
      RunCutOff(srv, s, calls[..n], u, T);
      DoCutOff(srv, After(srv, s, calls[..n]), calls[n], u, T);
    }
  }

  // The call that stored raw last stored it for u.
  ghost predicate LastStoredFor(events: seq<Event>, raw: string, u: Uuid) {
    exists i :: 0 <= i < |events| && events[i].Stored? && events[i].raw == raw && events[i].userId == u
      && forall j :: i < j < |events| ==> !(events[j].Stored? && events[j].raw == raw)
  }

  // If all sessions of u are revoked at T and u does not sign in later, then after
  // any further calls: u has no refresh token, every refresh token last issued to
  // u is refused, no refresh starts a session of u, and from T + 8h + 60s on no JWT
  // ever minted for u is accepted.
  lemma {:induction false} RevocationHasABound(srv: Server, t0: Time, before: seq<Call>, u: Uuid, env: Env,
                                               later: seq<Call>)
    requires !env.down
    requires NoLaterSignIn(srv, Do(srv, After(srv, Initial(t0), before), Revoke(u, env)), later, u)
    ensures
      var revoked := Do(srv, After(srv, Initial(t0), before), Revoke(u, env));
      var T, s := revoked.now, After(srv, revoked, later);
      && TokensOf(s.db.tokens, u) == {}
      && (forall raw, t :: LastStoredFor(s.events, raw, u) ==> !ChecksPass(s.db.tokens, raw, t))
      && (forall c: Call :: c.Refresh? && RefreshCall(srv, s, c).1.Ok? ==>
            RefreshCall(srv, s, c).1.value.token.Jwt? && RefreshCall(srv, s, c).1.value.token.claims.sub != Some(u))
      && (forall c, t :: c in s.minted && c.sub == Some(u) && T + 28_860_000_000_000 <= t ==>
            AuthRequired(srv.secret, Bearer(Jwt(true, srv.secret, c)), t).Err?)
  {
    var pre := After(srv, Initial(t0), before);
    var revoked := Do(srv, pre, Revoke(u, env));
    RunBounded(srv, t0, before);
    RevokeEffect(pre.db, u, env);
    assert CutOff(revoked, u, revoked.now);
    RunCutOff(srv, revoked, later, u, revoked.now);
    var s := After(srv, revoked, later);
    RunTracksFrom(srv, t0, before, Revoke(u, env), later);
    forall raw, t | LastStoredFor(s.events, raw, u) ensures !ChecksPass(s.db.tokens, raw, t) {
      LastStoredRefused(s, raw, u);
    }
    forall c: Call | c.Refresh? && RefreshCall(srv, s, c).1.Ok?
      ensures RefreshCall(srv, s, c).1.value.token.Jwt? && RefreshCall(srv, s, c).1.value.token.claims.sub != Some(u)
    {
      var outcome := RefreshCallShape(srv, s, c);
    }
  }

  lemma {:induction false} RunTracksFrom(srv: Server, t0: Time, before: seq<Call>, c: Call, later: seq<Call>)
    ensures var s := After(srv, Do(srv, After(srv, Initial(t0), before), c), later);
      Tracks(s.db.tokens, s.events, s.now)
    decreases |later|
  {
    if later == [] {
      RunTracks(srv, t0, before);
      DoTracks(srv, After(srv, Initial(t0), before), c);
    } else {
      RunTracksFrom(srv, t0, before, c, later[..|later| - 1]);
      DoTracks(srv, After(srv, Do(srv, After(srv, Initial(t0), before), c), later[..|later| - 1]), later[|later| - 1]);
    }
  }

  lemma LastStoredRefused(s: State, raw: string, u: Uuid)
    requires Tracks(s.db.tokens, s.events, s.now) && LastStoredFor(s.events, raw, u)
    requires forall h :: h in s.db.tokens ==> s.db.tokens[h].userId != u
    ensures Sha256(raw) !in s.db.tokens
  {
  }
}

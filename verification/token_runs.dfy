// Runs of calls that do not overlap, over the whole database: sign-ins,
// refreshes, revocations, markings, purges and soft deletes, in any order.
module TokenRuns {
  import opened Domain
  import opened Tables
  import opened Resolver
  import opened Logins
  import opened Sessions
  import SequentialLogins

  datatype Server = Server(cfg: Config, secret: string)

  datatype Call =
    | SignIn(pu: ProviderUser, envs: nat -> Env, lag: nat, stored: Env, entropy: Option<string>)
    | Refresh(raw: string, envs: nat -> Env, lag: nat, entropy: Option<string>)
    | Revoke(userId: Uuid, env: Env)
    | MarkUsed(hash: TokenHash, env: Env)
    | Purge(age: nat, env: Env)         // DeleteExpired(now - age)
    | SoftDelete(id: Uuid, env: Env)
    | Wait(delay: nat)

  // What happened to refresh tokens, in order.
  datatype Event =
    | Stored(raw: string, userId: Uuid, at: Time)
    | Deleted(userId: Uuid)
    | Marked(hash: TokenHash)

  // The tables and the clock, with what has been minted, what has been answered
  // and what has happened so far.
  datatype State = State(
    now: Time,
    db: Db,
    minted: set<Claims>,
    replies: seq<Result<TokenResponse>>,
    events: seq<Event>)

  // A refresh looks at the clock twice: for its checks, and lag later to sign.
  function RefreshInputs(c: Call, now: Time): nat -> Input
    requires c.Refresh?
  {
    (k: nat) => Input(if k < 4 then now else now + c.lag, c.envs(k), c.entropy)
  }

  function SignInInputs(c: Call, now: Time): nat -> Input
    requires c.SignIn?
  {
    (k: nat) => Input(now + c.lag, c.stored, c.entropy)
  }

  // Resolve the identity, then issue a session token to the user it resolves to.
  function ResolveAndIssue(srv: Server, db: Db, pu: ProviderUser, envs: nat -> Env, inputs: nat -> Input)
    : (Db, Result<TokenResponse>)
  {
    var (db1, user) := RunLogin(srv.cfg, db, Start(pu), envs, 0);
    match user
    case Err(e) => (db1, Err(e))
    case Ok(u) => RunIssue(srv.secret, db1, Sign(u.id, u.role), inputs, 0)
  }

  // The outcome of a sign-in whose state parameter was valid.
  function SignInOutcome(srv: Server, s: State, c: Call): (Db, Result<TokenResponse>)
    requires c.SignIn?
  {
    ResolveAndIssue(srv, s.db, c.pu, c.envs, SignInInputs(c, s.now))
  }

  function RefreshCall(srv: Server, s: State, c: Call): (Db, Result<TokenResponse>)
    requires c.Refresh?
  {
    RunRefresh(srv.secret, s.db, Find(c.raw), RefreshInputs(c, s.now), 0)
  }

  function Released(r: Result<TokenResponse>): set<Claims> {
    if r.Ok? && r.value.token.Jwt? then {r.value.token.claims} else {}
  }

  function StoredEvent(r: Result<TokenResponse>, at: Time): seq<Event> {
    if r.Ok? && r.value.token.Jwt? && r.value.token.claims.sub.Some?
    then [Stored(r.value.refreshToken, r.value.token.claims.sub.value, at)] else []
  }

  // A refresh that succeeded, or failed with rows gone, deleted the rows of its token's user.
  function DeletedEvent(before: Db, raw: string, after: (Db, Result<TokenResponse>)): seq<Event> {
    if (after.1.Ok? || after.0 != before) && Sha256(raw) in before.tokens
    then [Deleted(before.tokens[Sha256(raw)].userId)] else []
  }

  // The state after a sign-in, or a refresh with raw, that came out so at later.
  function SignedIn(s: State, later: Time, outcome: (Db, Result<TokenResponse>)): State {
    var (db', r) := outcome;
    State(later, db', s.minted + Released(r), s.replies + [r], s.events + StoredEvent(r, later))
  }

  function Refreshed(s: State, raw: string, later: Time, outcome: (Db, Result<TokenResponse>)): State {
    var (db', r) := outcome;
    State(later, db', s.minted + Released(r), s.replies + [r],
          s.events + DeletedEvent(s.db, raw, outcome) + StoredEvent(r, later))
  }

  function Do(srv: Server, s: State, c: Call): State {
    match c
    case SignIn(_, _, lag, _, _) => SignedIn(s, s.now + lag, SignInOutcome(srv, s, c))
    case Refresh(raw, _, lag, _) => Refreshed(s, raw, s.now + lag, RefreshCall(srv, s, c))
    case Revoke(userId, env) =>
      s.(db := DeleteTokensOfCall(s.db, userId, env).0,
         events := if env.down then s.events else s.events + [Deleted(userId)])
    case MarkUsed(hash, env) =>
      s.(db := MarkTokenUsedCall(s.db, hash, s.now, env).0,
         events := if env.down then s.events else s.events + [Marked(hash)])
    case Purge(age, env) =>
      s.(db := DeleteTokensBeforeCall(s.db, s.now - age, env).0)
    case SoftDelete(id, env) =>
      s.(db := SoftDeleteUserCall(s.db, id, s.now, env).0)
    case Wait(delay) =>
      s.(now := s.now + delay)
  }

  function Initial(t: Time): State {
    State(t, EMPTY, {}, [], [])
  }

  function After(srv: Server, s: State, calls: seq<Call>): State {
    if calls == [] then s
    else Do(srv, After(srv, s, calls[..|calls| - 1]), calls[|calls| - 1])
  }

  // What a call answers its caller, if it starts a session or refuses to.
  function AnswerTo(srv: Server, s: State, c: Call): Option<Result<TokenResponse>> {
    match c
    case SignIn(_, _, _, _, _) => Some(SignInOutcome(srv, s, c).1)
    case Refresh(_, _, _, _) => Some(RefreshCall(srv, s, c).1)
    case _ => None
  }

  // The answer tells its receiver these claims.
  ghost predicate Tells(answer: Option<Result<TokenResponse>>, claims: Claims) {
    answer.Some? && answer.value.Ok? && answer.value.value.token.Jwt? && answer.value.value.token.claims == claims
  }

  // Every answer is kept, in order, and the claims minted are those answered.
  lemma {:induction false} AnswersAreKept(srv: Server, s: State, c: Call)
    ensures var s', answer := Do(srv, s, c), AnswerTo(srv, s, c);
      && s'.replies == s.replies + (if answer.Some? then [answer.value] else [])
      && forall claims :: claims in s'.minted <==> claims in s.minted || Tells(answer, claims)
  {
    hide Constraints, SignInOutcome, RefreshCall, DeleteTokensOfCall, MarkTokenUsedCall, DeleteTokensBeforeCall,
      SoftDeleteUserCall;
  }

  // --- Logins touch no token, and no token touches a login ---

  lemma {:induction false} LoginKeepsTokens(cfg: Config, db: Db, pc: LoginPc, envs: nat -> Env, i: nat)
    requires LocalOk(cfg, db, pc)
    ensures var (db', r) := RunLogin(cfg, db, pc, envs, i);
      db'.tokens == db.tokens && Grows(db, db') && (r.Ok? ==> Snapshot(db', r.value))
    decreases Rank(pc)
  {
    if !pc.Done? {
      StepKeeps(cfg, db, pc, envs, i);
      var after := LoginStep(cfg, db, pc, envs, i);
      SequentialLogins.Unrolled(cfg, db, pc, envs, i);
      LoginKeepsTokens(cfg, after.0, after.1, envs, i + 1);
      GrowsTransitive(db, after.0, RunLogin(cfg, after.0, after.1, envs, i + 1).0);
    }
  }

  lemma StartOk(cfg: Config, db: Db, pu: ProviderUser)
    ensures LocalOk(cfg, db, Start(pu))
  {
  }

  // --- The history that decides a refresh ---

  // Event i stored raw; since then raw has not been stored again, and no delete
  // for its user has happened.
  ghost predicate Standing(events: seq<Event>, raw: string, i: int) {
    && 0 <= i < |events| && events[i].Stored? && events[i].raw == raw
    && forall j :: i < j < |events| ==>
         events[j] != Deleted(events[i].userId) && !(events[j].Stored? && events[j].raw == raw)
  }

  ghost predicate Unmarked(events: seq<Event>, raw: string, i: int) {
    forall j :: 0 <= i < j < |events| ==> events[j] != Marked(Sha256(raw))
  }

  // The row is what event i left in the table.
  ghost predicate Matches(row: RefreshToken, events: seq<Event>, raw: string, i: int) {
    && 0 <= i < |events| && events[i].Stored?
    && row.userId == events[i].userId
    && row.expiresAt == events[i].at + REFRESH_TOKEN_TTL
    && (row.usedAt.None? <==> Unmarked(events, raw, i))
  }

  // The token table tells the history: every row stands for an event, and every
  // standing event that has not expired has its row.
  ghost predicate Tracks(tokens: map<TokenHash, RefreshToken>, events: seq<Event>, now: Time) {
    && (forall h :: h in tokens ==> exists i :: Standing(events, h.raw, i) && Matches(tokens[h], events, h.raw, i))
    && (forall raw, i :: Standing(events, raw, i) && now <= events[i].at + REFRESH_TOKEN_TTL ==>
          Sha256(raw) in tokens && Matches(tokens[Sha256(raw)], events, raw, i))
  }

  lemma StandingBefore(events: seq<Event>, e: Event, raw: string, i: int)
    requires Standing(events + [e], raw, i) && i < |events|
    ensures Standing(events, raw, i)
    ensures Unmarked(events + [e], raw, i) <==> Unmarked(events, raw, i) && e != Marked(Sha256(raw))
  {
    var all := events + [e];
    assert forall j :: 0 <= j < |events| ==> all[j] == events[j];
    assert all[|events|] == e;
  }

  lemma StandingAfter(events: seq<Event>, e: Event, raw: string, i: int)
    requires Standing(events, raw, i)
    requires e != Deleted(events[i].userId) && !(e.Stored? && e.raw == raw)
    ensures Standing(events + [e], raw, i)
    ensures Unmarked(events + [e], raw, i) <==> Unmarked(events, raw, i) && e != Marked(Sha256(raw))
  {
    var all := events + [e];
    assert forall j :: 0 <= j < |events| ==> all[j] == events[j];
    assert all[|events|] == e;
  }

  lemma TracksStore(tokens: map<TokenHash, RefreshToken>, events: seq<Event>, now: Time, raw: string, u: Uuid, at: Time)
    requires Tracks(tokens, events, now) && Sha256(raw) !in tokens
    ensures Tracks(tokens[Sha256(raw) := FreshRow(u, at, raw)], events + [Stored(raw, u, at)], now)
  {
    var e := Stored(raw, u, at);
    var tokens', events' := tokens[Sha256(raw) := FreshRow(u, at, raw)], events + [e];
    assert Standing(events', raw, |events|) && Matches(tokens'[Sha256(raw)], events', raw, |events|);
    forall h | h in tokens' ensures exists i :: Standing(events', h.raw, i) && Matches(tokens'[h], events', h.raw, i) {
      if h != Sha256(raw) {
        var i :| Standing(events, h.raw, i) && Matches(tokens[h], events, h.raw, i);
        StandingAfter(events, e, h.raw, i);
        assert Matches(tokens'[h], events', h.raw, i);
      }
    }
    forall r, i | Standing(events', r, i) && now <= events'[i].at + REFRESH_TOKEN_TTL
      ensures Sha256(r) in tokens' && Matches(tokens'[Sha256(r)], events', r, i)
    {
      if i < |events| {
        StandingBefore(events, e, r, i);
      }
    }
  }

  lemma TracksDelete(tokens: map<TokenHash, RefreshToken>, events: seq<Event>, now: Time, u: Uuid)
    requires Tracks(tokens, events, now)
    ensures Tracks(tokens - TokensOf(tokens, u), events + [Deleted(u)], now)
  {
    var e := Deleted(u);
    var tokens', events' := tokens - TokensOf(tokens, u), events + [e];
    forall h | h in tokens' ensures exists i :: Standing(events', h.raw, i) && Matches(tokens'[h], events', h.raw, i) {
      var i :| Standing(events, h.raw, i) && Matches(tokens[h], events, h.raw, i);
      StandingAfter(events, e, h.raw, i);
      assert Matches(tokens'[h], events', h.raw, i);
    }
    forall r, i | Standing(events', r, i) && now <= events'[i].at + REFRESH_TOKEN_TTL
      ensures Sha256(r) in tokens' && Matches(tokens'[Sha256(r)], events', r, i)
    {
      StandingBefore(events, e, r, i);
      assert events'[|events|] == e;
    }
  }

  lemma TracksMark(tokens: map<TokenHash, RefreshToken>, events: seq<Event>, now: Time, hash: TokenHash, at: Time)
    requires Tracks(tokens, events, now)
    ensures Tracks(if hash in tokens then tokens[hash := tokens[hash].(usedAt := Some(at))] else tokens,
                   events + [Marked(hash)], now)
  {
    var e := Marked(hash);
    var tokens' := if hash in tokens then tokens[hash := tokens[hash].(usedAt := Some(at))] else tokens;
    var events' := events + [e];
    forall h | h in tokens' ensures exists i :: Standing(events', h.raw, i) && Matches(tokens'[h], events', h.raw, i) {
      var i :| Standing(events, h.raw, i) && Matches(tokens[h], events, h.raw, i);
      StandingAfter(events, e, h.raw, i);
      assert Matches(tokens'[h], events', h.raw, i);
    }
    forall r, i | Standing(events', r, i) && now <= events'[i].at + REFRESH_TOKEN_TTL
      ensures Sha256(r) in tokens' && Matches(tokens'[Sha256(r)], events', r, i)
    {
      StandingBefore(events, e, r, i);
    }
  }

  lemma TracksPurge(tokens: map<TokenHash, RefreshToken>, events: seq<Event>, now: Time, before: Time)
    requires Tracks(tokens, events, now) && before <= now
    ensures Tracks(tokens - TokensBefore(tokens, before), events, now)
  {
  }

  lemma TracksWait(tokens: map<TokenHash, RefreshToken>, events: seq<Event>, now: Time, later: Time)
    requires Tracks(tokens, events, now) && now <= later
    ensures Tracks(tokens, events, later)
  {
  }

  // --- What each call does to the token table ---

  // A refresh, as the token table sees it: nothing, a delete, or a delete and a store.
  ghost predicate RefreshShape(before: Db, raw: string, outcome: (Db, Result<TokenResponse>), signedAt: Time,
                               entropy: Option<string>) {
    var (after, r) := outcome;
    && after.users == before.users && after.links == before.links
    && if r.Err? && after == before then true
       else
         && Sha256(raw) in before.tokens
         && var u := before.tokens[Sha256(raw)].userId;
            var rest := before.tokens - TokensOf(before.tokens, u);
            if r.Err? then after.tokens == rest
            else
              && entropy == Some(r.value.refreshToken)
              && r.value.token.Jwt? && r.value.token.claims == MintClaims(u, before.users[u].role, signedAt)
              && Sha256(r.value.refreshToken) !in rest
              && after.tokens == rest[Sha256(r.value.refreshToken) := FreshRow(u, signedAt, r.value.refreshToken)]
  }

  lemma ShapeOfRefresh(secret: string, db: Db, raw: string, inputs: nat -> Input)
    ensures RefreshShape(db, raw, RunRefresh(secret, db, Find(raw), inputs, 0), inputs(4).now, inputs(4).entropy)
  {
    RefreshOutcome(secret, db, raw, inputs);
    var (db', r) := RunRefresh(secret, db, Find(raw), inputs, 0);
    if db' != db || r.Ok? {
      var u := db.tokens[Sha256(raw)].userId;
      var rest := db.tokens - TokensOf(db.tokens, u);
      if r.Err? {
        assert db'.tokens - {} == db'.tokens;
      } else {
        var hash' := Sha256(r.value.refreshToken);
        assert db'.tokens == (db'.tokens - {hash'})[hash' := db'.tokens[hash']];
      }
    }
  }

  // A sign-in, as the token table sees it: nothing, or a store.
  ghost predicate SignInShape(before: Db, outcome: (Db, Result<TokenResponse>), signedAt: Time,
                              entropy: Option<string>) {
    var (after, r) := outcome;
    if r.Err? then after.tokens == before.tokens
    else
      && entropy == Some(r.value.refreshToken)
      && r.value.token.Jwt? && r.value.token.claims.sub.Some? && r.value.token.claims.role.Some?
      && var u := r.value.token.claims.sub.value;
         var hash := Sha256(r.value.refreshToken);
      && r.value.token.claims == MintClaims(u, r.value.token.claims.role.value, signedAt)
      && hash !in before.tokens
      && after.tokens == before.tokens[hash := FreshRow(u, signedAt, r.value.refreshToken)]
  }

  lemma ShapeOfIssue(secret: string, db: Db, u: User, inputs: nat -> Input)
    requires u.id in db.users
    ensures var outcome := RunIssue(secret, db, Sign(u.id, u.role), inputs, 0);
      && SignInShape(db, outcome, inputs(0).now, inputs(0).entropy)
      && outcome.0.users == db.users && outcome.0.links == db.links
  {
    IssueOutcome(secret, db, u.id, u.role, inputs, 0);
    var (db', r) := RunIssue(secret, db, Sign(u.id, u.role), inputs, 0);
    assert r.Err? ==> db' == db;
    assert r.Ok? ==> r.value.token.Jwt?;
  }

  lemma ShapeOfSignIn(srv: Server, s: State, c: Call)
    requires c.SignIn?
    ensures SignInShape(s.db, SignInOutcome(srv, s, c), s.now + c.lag, c.entropy)
    ensures Grows(s.db, SignInOutcome(srv, s, c).0)
  {
    hide Constraints, LoginStep, IssueStep;
    var (db1, user) := RunLogin(srv.cfg, s.db, Start(c.pu), c.envs, 0);
    StartOk(srv.cfg, s.db, c.pu);
    LoginKeepsTokens(srv.cfg, s.db, Start(c.pu), c.envs, 0);
    if user.Ok? {
      ShapeOfIssue(srv.secret, db1, user.value, SignInInputs(c, s.now));
    }
  }

  lemma SignInCallShape(srv: Server, s: State, c: Call) returns (outcome: (Db, Result<TokenResponse>))
    requires c.SignIn?
    ensures SignInShape(s.db, outcome, s.now + c.lag, c.entropy) && Grows(s.db, outcome.0)
    ensures Do(srv, s, c) == SignedIn(s, s.now + c.lag, outcome)
    ensures outcome == SignInOutcome(srv, s, c)
  {
    outcome := SignInOutcome(srv, s, c);
    ShapeOfSignIn(srv, s, c);
  }

  lemma SignedInTracks(s: State, later: Time, outcome: (Db, Result<TokenResponse>), entropy: Option<string>)
    requires Tracks(s.db.tokens, s.events, s.now) && s.now <= later
    requires SignInShape(s.db, outcome, later, entropy)
    ensures KeepsTracks(s, SignedIn(s, later, outcome))
  {
    var r := outcome.1;
    TracksWait(s.db.tokens, s.events, s.now, later);
    if r.Ok? {
      TracksStore(s.db.tokens, s.events, later, r.value.refreshToken, r.value.token.claims.sub.value, later);
    } else {
      assert s.events + [] == s.events;
    }
  }

  lemma RefreshedTracks(s: State, raw: string, later: Time, outcome: (Db, Result<TokenResponse>),
                        entropy: Option<string>)
    requires Tracks(s.db.tokens, s.events, s.now) && s.now <= later
    requires RefreshShape(s.db, raw, outcome, later, entropy)
    ensures KeepsTracks(s, Refreshed(s, raw, later, outcome))
  {
    var (after, r) := outcome;
    TracksWait(s.db.tokens, s.events, s.now, later);
    if r.Err? && after == s.db {
      assert s.events + [] + [] == s.events;
    } else {
      var u := s.db.tokens[Sha256(raw)].userId;
      TracksDelete(s.db.tokens, s.events, later, u);
      if r.Ok? {
        TracksStore(s.db.tokens - TokensOf(s.db.tokens, u), s.events + [Deleted(u)], later, r.value.refreshToken, u,
                    later);
      } else {
        assert s.events + [Deleted(u)] + [] == s.events + [Deleted(u)];
      }
    }
  }

  lemma RefreshCallShape(srv: Server, s: State, c: Call) returns (outcome: (Db, Result<TokenResponse>))
    requires c.Refresh?
    ensures RefreshShape(s.db, c.raw, outcome, s.now + c.lag, c.entropy)
    ensures Do(srv, s, c) == Refreshed(s, c.raw, s.now + c.lag, outcome)
    ensures outcome == RefreshCall(srv, s, c)
  {
    outcome := RefreshCall(srv, s, c);
    ShapeOfRefresh(srv.secret, s.db, c.raw, RefreshInputs(c, s.now));
  }

  // A call takes the state on, and keeps the table and the history together.
  ghost predicate KeepsTracks(s: State, s': State) {
    s.now <= s'.now && Tracks(s'.db.tokens, s'.events, s'.now)
  }

  lemma SignInTracks(srv: Server, s: State, c: Call)
    requires Tracks(s.db.tokens, s.events, s.now) && c.SignIn?
    ensures KeepsTracks(s, Do(srv, s, c))
  {
    hide Do, SignedIn, KeepsTracks, SignInShape, Tracks;
    var outcome := SignInCallShape(srv, s, c);
    SignedInTracks(s, s.now + c.lag, outcome, c.entropy);
  }

  lemma RefreshTracks(srv: Server, s: State, c: Call)
    requires Tracks(s.db.tokens, s.events, s.now) && c.Refresh?
    ensures KeepsTracks(s, Do(srv, s, c))
  {
    hide Do, Refreshed, KeepsTracks, RefreshShape, Tracks;
    var outcome := RefreshCallShape(srv, s, c);
    RefreshedTracks(s, c.raw, s.now + c.lag, outcome, c.entropy);
  }

  lemma RevokeEffect(db: Db, u: Uuid, env: Env)
    ensures var db' := DeleteTokensOfCall(db, u, env).0;
      && db'.tokens == (if env.down then db.tokens else db.tokens - TokensOf(db.tokens, u))
      && db'.users == db.users && db'.links == db.links
  {
  }

  lemma MarkEffect(db: Db, hash: TokenHash, at: Time, env: Env)
    ensures var db' := MarkTokenUsedCall(db, hash, at, env).0;
      && db'.tokens == (if env.down || hash !in db.tokens then db.tokens
                        else db.tokens[hash := db.tokens[hash].(usedAt := Some(at))])
      && db'.users == db.users && db'.links == db.links
  {
  }

  lemma PurgeEffect(db: Db, before: Time, env: Env)
    ensures var db' := DeleteTokensBeforeCall(db, before, env).0;
      && db'.tokens == (if env.down then db.tokens else db.tokens - TokensBefore(db.tokens, before))
      && db'.users == db.users && db'.links == db.links
  {
  }

  lemma RevokeTracks(srv: Server, s: State, c: Call)
    requires Tracks(s.db.tokens, s.events, s.now) && c.Revoke?
    ensures KeepsTracks(s, Do(srv, s, c))
  {
    RevokeEffect(s.db, c.userId, c.env);
    if !c.env.down {
      TracksDelete(s.db.tokens, s.events, s.now, c.userId);
      assert Do(srv, s, c).events == s.events + [Deleted(c.userId)];
    }
  }

  lemma MarkTracks(srv: Server, s: State, c: Call)
    requires Tracks(s.db.tokens, s.events, s.now) && c.MarkUsed?
    ensures KeepsTracks(s, Do(srv, s, c))
  {
    hide Constraints, MarkTokenUsedCall, Tracks;
    MarkEffect(s.db, c.hash, s.now, c.env);
    TracksMark(s.db.tokens, s.events, s.now, c.hash, s.now);
  }

  lemma PurgeTracks(srv: Server, s: State, c: Call)
    requires Tracks(s.db.tokens, s.events, s.now) && c.Purge?
    ensures KeepsTracks(s, Do(srv, s, c))
  {
    PurgeEffect(s.db, s.now - c.age, c.env);
    TracksPurge(s.db.tokens, s.events, s.now, s.now - c.age);
  }

  lemma SoftDeleteTracks(srv: Server, s: State, c: Call)
    requires Tracks(s.db.tokens, s.events, s.now) && c.SoftDelete?
    ensures KeepsTracks(s, Do(srv, s, c))
  {
    SequentialLogins.SoftDeleteKeeps(s.db, c.id, s.now, c.env);
  }

  lemma WaitTracks(srv: Server, s: State, c: Call)
    requires Tracks(s.db.tokens, s.events, s.now) && c.Wait?
    ensures KeepsTracks(s, Do(srv, s, c))
  {
    TracksWait(s.db.tokens, s.events, s.now, s.now + c.delay);
  }

  lemma DoTracks(srv: Server, s: State, c: Call)
    requires Tracks(s.db.tokens, s.events, s.now)
    ensures KeepsTracks(s, Do(srv, s, c))
  {
    match c
    case SignIn(_, _, _, _, _) => SignInTracks(srv, s, c);
    case Refresh(_, _, _, _) => RefreshTracks(srv, s, c);
    case Revoke(_, _) => RevokeTracks(srv, s, c);
    case MarkUsed(_, _) => MarkTracks(srv, s, c);
    case Purge(_, _) => PurgeTracks(srv, s, c);
    case SoftDelete(_, _) => SoftDeleteTracks(srv, s, c);
    case Wait(_) => WaitTracks(srv, s, c);
  }

  lemma {:induction false} RunTracks(srv: Server, t0: Time, calls: seq<Call>)
    ensures var s := After(srv, Initial(t0), calls); Tracks(s.db.tokens, s.events, s.now)
  {
    if calls != [] {
      RunTracks(srv, t0, calls[..|calls| - 1]);
      DoTracks(srv, After(srv, Initial(t0), calls[..|calls| - 1]), calls[|calls| - 1]);
    }
  }

  // In any run of calls from empty tables, a refresh with raw made at t passes its
  // token checks exactly when raw was stored for some user at most 30 days before
  // t, and since then was not marked used and no delete for that user happened.
  // Purges need no mention.
  lemma {:induction false} RefreshTellsHistory(srv: Server, t0: Time, calls: seq<Call>, raw: string, t: Time)
    requires After(srv, Initial(t0), calls).now <= t
    ensures var s := After(srv, Initial(t0), calls);
      ChecksPass(s.db.tokens, raw, t) <==>
      exists i :: Standing(s.events, raw, i) && Unmarked(s.events, raw, i)
        && t <= s.events[i].at + 2_592_000 * 1_000_000_000
  {
    RunTracks(srv, t0, calls);
    var s := After(srv, Initial(t0), calls);
    if ChecksPass(s.db.tokens, raw, t) {
      var row := s.db.tokens[Sha256(raw)];
      var i :| Standing(s.events, raw, i) && Matches(row, s.events, raw, i);
    }
  }
}

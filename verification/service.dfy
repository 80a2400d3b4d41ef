// The whole service as one machine: any number of logins and refreshes in
// flight, each taking one step (one repository call, or one look at the clock
// and the random source) whenever the world picks it, between ticks of a clock
// that never goes back.
module Service {
  import opened Domain
  import opened Tables
  import opened Resolver
  import opened Sessions
  import StateStores
  import TokenRuns

  // What the provider answers for the browser that comes back.
  datatype Provider = Declined | Identified(pu: ProviderUser)

  // One HTTP request being served, or served.
  datatype Request =
    | TurnedAway(error: Error)
    | LoggingIn(grant: string, login: LoginPc)
    | LoggedIn(grant: string, user: User, issue: IssuePc)
    | Refreshing(refresh: RefreshPc)

  // Who drew a refresh token, for which claims, and what the user's row said then.
  datatype Draw = Draw(tid: nat, userId: Uuid, role: UserRole, at: Time, was: Option<UserRole>)

  datatype Storing = Storing(userId: Uuid, step: nat)

  datatype Spending = Spending(tid: nat, at: Time)

  // What has happened so far. No step depends on it, except that random values
  // are never drawn twice.
  datatype Log = Log(
    steps: nat,
    order: seq<Uuid>,                       // user rows, as they were created
    generated: map<string, Time>,           // states given out
    spent: map<string, Spending>,           // states validated with success
    draws: map<string, Draw>,               // refresh tokens drawn
    stored: map<TokenHash, Storing>,        // refresh rows stored
    killed: map<TokenHash, nat>,            // first delete for its user after a row was stored
    begun: map<nat, nat>,
    looked: map<nat, nat>,                  // refreshes that found their row
    ended: map<nat, nat>)

  // What each request was told from outside. No step depends on it.
  datatype Sightings = Sightings(
    came: map<nat, ProviderUser>,           // whom the provider identified
    asked: map<nat, string>,                // the refresh token presented
    found: map<nat, RefreshToken>,          // the row a refresh looked up
    checked: map<nat, Time>,                // the clock when it checked that row
    troubled: set<nat>)                     // requests for a token that met a failing call

  datatype State = State(
    now: Time,
    db: Db,
    entries: StateStores.Entries,
    requests: map<nat, Request>,
    log: Log,
    seen: Sightings)

  datatype Action =
    | Tick(delay: nat)
    | Begin(state: string)                  // the client is sent to the provider
    | Callback(tid: nat, state: string, provider: Provider)
    | AskRefresh(tid: nat, raw: string)
    | Advance(tid: nat, envs: nat -> Env, entropy: Option<string>)
    | Revoke(userId: Uuid, env: Env)
    | MarkUsed(hash: TokenHash, env: Env)
    | Purge(age: nat, env: Env)
    | SoftDelete(id: Uuid, env: Env)

  const NOTHING := Log(0, [], map[], map[], map[], map[], map[], map[], map[], map[])

  const UNSEEN := Sightings(map[], map[], map[], map[], {})

  function Initial(t: Time): State {
    State(t, EMPTY, map[], map[], NOTHING, UNSEEN)
  }

  // The resolver's answer decides how the handler goes on.
  function Resolved(grant: string, pc: LoginPc): Request {
    if pc.Done? && pc.result.Ok? then
      LoggedIn(grant, pc.result.value, Sign(pc.result.value.id, pc.result.value.role))
    else
      LoggingIn(grant, pc)
  }

  function Admitted(valid: bool, state: string, provider: Provider): Request {
    if !valid then TurnedAway(BadState)
    else
      match provider
      case Declined => TurnedAway(ProviderRefused)
      case Identified(pu) => Resolved(state, Start(pu))
  }

  function Step(srv: TokenRuns.Server, db: Db, rq: Request, envs: nat -> Env, now: Time, entropy: Option<string>)
    : (Db, Request)
  {
    match rq
    case TurnedAway(_) => (db, rq)
    case LoggingIn(grant, pc) =>
      var (db', pc') := LoginStep(srv.cfg, db, pc, envs, 0);
      (db', Resolved(grant, pc'))
    case LoggedIn(grant, user, pc) =>
      var (db', pc') := IssueStep(srv.secret, db, pc, Input(now, envs(0), entropy));
      (db', LoggedIn(grant, user, pc'))
    case Refreshing(pc) =>
      var (db', pc') := RefreshStep(srv.secret, db, pc, Input(now, envs(0), entropy));
      (db', Refreshing(pc'))
  }

  // Where a request stands with issuing its session token, if it has come so far.
  function Issue(rq: Request): Option<IssuePc> {
    match rq
    case LoggedIn(_, _, pc) => Some(pc)
    case Refreshing(Reissue(_, _, pc)) => Some(pc)
    case _ => None
  }

  predicate Over(rq: Request) {
    match rq
    case TurnedAway(_) => true
    case LoggingIn(_, pc) => pc.Done?
    case LoggedIn(_, _, pc) => pc.Issued?
    case Refreshing(pc) => RefreshOver(pc)
  }

  // --- What the log keeps of a step that took a request from rq to rq' ---

  predicate Created(rq: Request, rq': Request) {
    rq.LoggingIn? && rq.login.CreateUser? && rq'.LoggedIn?
  }

  predicate Drew(rq: Request, rq': Request) {
    Issue(rq).Some? && Issue(rq).value.Sign? && Issue(rq').Some? && Issue(rq').value.Store?
  }

  predicate Saved(rq: Request, rq': Request) {
    && Issue(rq).Some? && Issue(rq).value.Store?
    && Issue(rq').Some? && Issue(rq').value.Issued? && Issue(rq').value.result.Ok?
  }

  predicate LookedUp(rq: Request, rq': Request) {
    rq.Refreshing? && rq.refresh.Find? && rq'.Refreshing? && rq'.refresh.Check?
  }

  predicate Revoked(rq: Request, rq': Request) {
    rq.Refreshing? && rq.refresh.Rotate? && rq'.Refreshing? && rq'.refresh.Reissue?
  }

  function RoleOf(db: Db, id: Uuid): Option<UserRole> {
    if id in db.users then Some(db.users[id].role) else None
  }

  function DrawsAfter(draws: map<string, Draw>, db: Db, tid: nat, rq: Request, rq': Request): map<string, Draw> {
    if Drew(rq, rq') then
      var pc := Issue(rq').value;
      draws[pc.raw := Draw(tid, pc.userId, pc.role, pc.now, RoleOf(db, pc.userId))]
    else draws
  }

  function StoredAfter(stored: map<TokenHash, Storing>, n: nat, rq: Request, rq': Request): map<TokenHash, Storing> {
    if Saved(rq, rq') then
      var pc := Issue(rq).value;
      stored[Sha256(pc.raw) := Storing(pc.userId, n)]
    else stored
  }

  // Step n deleted the rows of userId: every row stored for it and not yet
  // deleted is so from now on.
  function Kill(log: Log, userId: Uuid, n: nat): map<TokenHash, nat> {
    log.killed + map h | h in log.stored && log.stored[h].userId == userId && h !in log.killed :: n
  }

  function Note(log: Log, db: Db, tid: nat, rq: Request, rq': Request): Log {
    var n := log.steps;
    log.(steps := n + 1,
         order := if Created(rq, rq') then log.order + [rq'.user.id] else log.order,
         draws := DrawsAfter(log.draws, db, tid, rq, rq'),
         stored := StoredAfter(log.stored, n, rq, rq'),
         killed := if Revoked(rq, rq') then Kill(log, rq.refresh.rt.userId, n) else log.killed,
         looked := if LookedUp(rq, rq') then log.looked[tid := n] else log.looked,
         ended := if !Over(rq) && Over(rq') then log.ended[tid := n] else log.ended)
  }

  // The step of rq makes a call that fails: the database, or the random source.
  predicate Failing(rq: Request, env: Env, entropy: Option<string>) {
    if Issue(rq).Some? then
      match Issue(rq).value
      case Sign(_, _) => entropy.None?
      case Store(_, _, _, _) => env.down
      case Issued(_) => false
    else
      rq.Refreshing? && (rq.refresh.Find? || rq.refresh.LoadUser? || rq.refresh.Rotate?) && env.down
  }

  function Sight(seen: Sightings, now: Time, tid: nat, rq: Request, rq': Request, failing: bool): Sightings {
    seen.(found := if LookedUp(rq, rq') then seen.found[tid := rq'.refresh.rt] else seen.found,
          checked := if rq.Refreshing? && rq.refresh.Check? then seen.checked[tid := now] else seen.checked,
          troubled := if failing then seen.troubled + {tid} else seen.troubled)
  }

  // --- The machine ---

  function Idle(s: State): State {
    s.(log := s.log.(steps := s.log.steps + 1))
  }

  function DoBegin(s: State, state: string): State {
    if state in s.log.generated then Idle(s)
    else Idle(s).(entries := StateStores.Put(s.entries, state, s.now),
                  log := s.log.(steps := s.log.steps + 1, generated := s.log.generated[state := s.now]))
  }

  function DoCallback(s: State, tid: nat, state: string, provider: Provider): State {
    if tid in s.requests then Idle(s)
    else
      var (entries, valid) := StateStores.Take(s.entries, state, s.now);
      var rq := Admitted(valid, state, provider);
      var n := s.log.steps;
      s.(entries := entries,
         requests := s.requests[tid := rq],
         seen := if rq.LoggingIn? then s.seen.(came := s.seen.came[tid := provider.pu]) else s.seen,
         log := s.log.(steps := n + 1,
                       begun := s.log.begun[tid := n],
                       ended := if Over(rq) then s.log.ended[tid := n] else s.log.ended,
                       spent := if valid then s.log.spent[state := Spending(tid, s.now)] else s.log.spent))
  }

  function DoAskRefresh(s: State, tid: nat, raw: string): State {
    if tid in s.requests then Idle(s)
    else
      var n := s.log.steps;
      s.(requests := s.requests[tid := Refreshing(Find(raw))],
         seen := s.seen.(asked := s.seen.asked[tid := raw]),
         log := s.log.(steps := n + 1, begun := s.log.begun[tid := n]))
  }

  // A random value that was drawn before cannot be drawn again.
  predicate Repeats(s: State, entropy: Option<string>) {
    entropy.Some? && entropy.value in s.log.draws
  }

  function DoAdvance(srv: TokenRuns.Server, s: State, tid: nat, envs: nat -> Env, entropy: Option<string>): State {
    if tid !in s.requests || Repeats(s, entropy) then Idle(s)
    else
      var rq := s.requests[tid];
      var (db', rq') := Step(srv, s.db, rq, envs, s.now, entropy);
      State(s.now, db', s.entries, s.requests[tid := rq'], Note(s.log, s.db, tid, rq, rq'),
            Sight(s.seen, s.now, tid, rq, rq', Failing(rq, envs(0), entropy)))
  }

  function DoRevoke(s: State, userId: Uuid, env: Env): State {
    var n := s.log.steps;
    s.(db := DeleteTokensOfCall(s.db, userId, env).0,
       log := s.log.(steps := n + 1, killed := if env.down then s.log.killed else Kill(s.log, userId, n)))
  }

  function Next(srv: TokenRuns.Server, s: State, a: Action): State {
    match a
    case Tick(delay) => Idle(s).(now := s.now + delay)
    case Begin(state) => DoBegin(s, state)
    case Callback(tid, state, provider) => DoCallback(s, tid, state, provider)
    case AskRefresh(tid, raw) => DoAskRefresh(s, tid, raw)
    case Advance(tid, envs, entropy) => DoAdvance(srv, s, tid, envs, entropy)
    case Revoke(userId, env) => DoRevoke(s, userId, env)
    case MarkUsed(hash, env) => Idle(s).(db := MarkTokenUsedCall(s.db, hash, s.now, env).0)
    case Purge(age, env) => Idle(s).(db := DeleteTokensBeforeCall(s.db, s.now - age, env).0)
    case SoftDelete(id, env) => Idle(s).(db := SoftDeleteUserCall(s.db, id, s.now, env).0)
  }

  function After(srv: TokenRuns.Server, s: State, actions: seq<Action>): State {
    if actions == [] then s
    else Next(srv, After(srv, s, actions[..|actions| - 1]), actions[|actions| - 1])
  }

  // The state of the service after these actions, started at t0 on empty tables.
  function Run(srv: TokenRuns.Server, t0: Time, actions: seq<Action>): State {
    After(srv, Initial(t0), actions)
  }
}

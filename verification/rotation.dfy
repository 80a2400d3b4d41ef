// Refresh tokens under interleaved rotation. The five calls of a refresh are not
// one transaction, so a token can be honoured more than once; this bounds how often.
module Rotation {
  import opened Domain
  import opened Tables
  import opened Resolver
  import opened Logins
  import opened Sessions
  import opened Service
  import opened Authority
  import StateStores
  import SequentialLogins
  import TokenRuns

  // --- What the log says about the table and about each request ---

  // Every row is one that was stored for its user, with no delete since.
  ghost predicate Booked(db: Tables, log: Log) {
    forall h {:trigger db.tokens[h]} :: h in db.tokens ==>
      h in log.stored && log.stored[h].userId == db.tokens[h].userId && h !in log.killed
  }

  ghost predicate InOrder(log: Log) {
    && (forall h {:trigger log.stored[h]} :: h in log.stored ==> h.raw in log.draws && log.stored[h].step < log.steps)
    && (forall h {:trigger log.killed[h]} :: h in log.killed ==>
          h in log.stored && log.stored[h].step < log.killed[h] < log.steps)
    && (forall t {:trigger log.begun[t]} :: t in log.begun ==> log.begun[t] < log.steps)
    && (forall t {:trigger log.looked[t]} :: t in log.looked ==> log.looked[t] < log.steps)
  }

  // Request tid found the row rt of this raw token, after the row was stored and
  // before any delete for its user.
  ghost predicate Past(log: Log, tid: nat, raw: string, rt: RefreshToken) {
    var h := Sha256(raw);
    && rt.tokenHash == h && tid in log.looked && tid in log.begun
    && h in log.stored && log.stored[h].userId == rt.userId
    && log.stored[h].step < log.looked[tid] && log.begun[tid] < log.looked[tid]
    && (h in log.killed ==> log.looked[tid] < log.killed[h])
  }

  ghost predicate RefreshBooked(log: Log, tid: nat, pc: RefreshPc) {
    match pc
    case Find(_) => true
    case Check(raw, rt) => Past(log, tid, raw, rt)
    case LoadUser(raw, rt) => Past(log, tid, raw, rt)
    case Rotate(raw, rt, user) => Past(log, tid, raw, rt) && user.id == rt.userId
    case Reissue(raw, rt, issue) =>
      Past(log, tid, raw, rt) && Sha256(raw) in log.killed
      && (issue.Issued? ==> tid in log.ended && log.killed[Sha256(raw)] < log.ended[tid])
    case Refused(_) => true
  }

  // A raw token about to be stored is this request's own draw, and is not stored yet.
  ghost predicate IssueBooked(log: Log, tid: nat, pc: IssuePc) {
    pc.Store? ==> pc.raw in log.draws && log.draws[pc.raw].tid == tid && Sha256(pc.raw) !in log.stored
  }

  ghost predicate RequestBooked(log: Log, tid: nat, rq: Request) {
    && tid in log.begun
    && (Issue(rq).Some? ==> IssueBooked(log, tid, Issue(rq).value))
    && (rq.Refreshing? ==> RefreshBooked(log, tid, rq.refresh))
  }

  ghost predicate Ledger(s: State) {
    && Booked(s.db, s.log) && InOrder(s.log)
    && (forall tid {:trigger s.requests[tid]} :: tid in s.requests ==> RequestBooked(s.log, tid, s.requests[tid]))
    && (forall t {:trigger t in s.log.begun} :: t in s.log.begun ==> t in s.requests)
  }

  // --- What one action writes into the log ---

  ghost predicate SameBut<V>(a: map<nat, V>, b: map<nat, V>, tid: nat) {
    forall t {:trigger t in b} {:trigger t in a} :: t != tid ==> (t in a <==> t in b) && (t in a ==> b[t] == a[t])
  }

  // Request tid, or nobody's, took the step from log to log'.
  ghost predicate Written(log: Log, log': Log, tid: nat) {
    && log'.steps == log.steps + 1
    && Extends(log.draws, log'.draws)
    && (forall h {:trigger log'.stored[h]} {:trigger log.stored[h]} :: h in log.stored ==>
          h in log'.stored && log'.stored[h] == log.stored[h])
    && (forall h {:trigger log'.stored[h]} :: h in log'.stored && h !in log.stored ==>
          h.raw in log.draws && log.draws[h.raw].tid == tid)
    && (forall h {:trigger log'.killed[h]} {:trigger log.killed[h]} :: h in log.killed ==>
          h in log'.killed && log'.killed[h] == log.killed[h])
    && (forall h {:trigger log'.killed[h]} :: h in log'.killed && h !in log.killed ==> log'.killed[h] == log.steps)
    && SameBut(log.begun, log'.begun, tid)
    && SameBut(log.looked, log'.looked, tid)
    && SameBut(log.ended, log'.ended, tid)
  }

  // The others' entries stay valid.
  lemma BookedStays(log: Log, log': Log, tid: nat, other: nat, rq: Request)
    requires InOrder(log) && RequestBooked(log, other, rq) && Written(log, log', tid) && other != tid
    ensures RequestBooked(log', other, rq)
  {
    if Issue(rq).Some? && Issue(rq).value.Store? {
      assert Sha256(Issue(rq).value.raw) !in log'.stored;
    }
  }

  lemma KillWrites(log: Log, userId: Uuid)
    ensures var killed := Kill(log, userId, log.steps);
      && (forall h :: h in log.killed ==> h in killed && killed[h] == log.killed[h])
      && (forall h :: h in killed <==> h in log.killed || (h in log.stored && log.stored[h].userId == userId))
      && (forall h :: h in killed && h !in log.killed ==> killed[h] == log.steps)
  {
  }

  // --- The steps of a request ---

  // What a step of request tid leaves, with its note in the log.
  ghost predicate StepBooked(db: Db, log: Log, tid: nat, rq: Request, after: (Db, Request)) {
    var log' := Note(log, db, tid, rq, after.1);
    Booked(after.0, log') && InOrder(log') && Written(log, log', tid) && RequestBooked(log', tid, after.1)
  }

  // A step that neither stores nor deletes rows.
  lemma PlainBooked(db: Db, log: Log, tid: nat, rq: Request, db': Db, rq': Request)
    requires Booked(db, log) && InOrder(log) && RequestBooked(log, tid, rq)
    requires db'.tokens == db.tokens
    requires !Saved(rq, rq') && !Revoked(rq, rq') && !Drew(rq, rq')
    requires var log' := Note(log, db, tid, rq, rq'); RequestBooked(log', tid, rq')
    ensures StepBooked(db, log, tid, rq, (db', rq'))
  {
  }

  lemma LoginBooked(srv: TokenRuns.Server, db: Db, log: Log, tid: nat, rq: Request, envs: nat -> Env, now: Time,
                    entropy: Option<string>)
    requires Booked(db, log) && InOrder(log) && RequestBooked(log, tid, rq) && rq.LoggingIn?
    requires LocalOk(srv.cfg, db, rq.login)
    ensures StepBooked(db, log, tid, rq, Step(srv, db, rq, envs, now, entropy))
  {
    hide LoginStep, LocalOk, Constraints, Booked, InOrder, Written, Grows, RowsKept;
    StepKeeps(srv.cfg, db, rq.login, envs, 0);
    var after := Step(srv, db, rq, envs, now, entropy);
    PlainBooked(db, log, tid, rq, after.0, after.1);
  }

  // What a request has passed stays passed.
  lemma PastStays(log: Log, log': Log, tid: nat, raw: string, rt: RefreshToken)
    requires Past(log, tid, raw, rt) && InOrder(log) && Written(log, log', tid)
    requires log'.looked == log.looked && log'.begun == log.begun
    ensures Past(log', tid, raw, rt)
  {
  }

  lemma DrawWrites(db: Db, log: Log, tid: nat, raw: string, d: Draw)
    requires Booked(db, log) && InOrder(log) && raw !in log.draws
    ensures Sha256(raw) !in log.stored
    ensures var log' := log.(steps := log.steps + 1, draws := log.draws[raw := d]);
      Booked(db, log') && InOrder(log') && Written(log, log', tid)
  {
  }

  lemma EndWrites(db: Db, log: Log, tid: nat)
    requires Booked(db, log) && InOrder(log)
    ensures var log' := log.(steps := log.steps + 1, ended := log.ended[tid := log.steps]);
      Booked(db, log') && InOrder(log') && Written(log, log', tid)
  {
  }

  lemma StoreWrites(db: Db, db': Db, log: Log, tid: nat, row: RefreshToken)
    requires Booked(db, log) && InOrder(log)
    requires row.tokenHash !in log.stored && row.tokenHash.raw in log.draws && log.draws[row.tokenHash.raw].tid == tid
    requires db'.tokens == db.tokens[row.tokenHash := row]
    ensures var log' := log.(steps := log.steps + 1,
                             stored := log.stored[row.tokenHash := Storing(row.userId, log.steps)],
                             ended := log.ended[tid := log.steps]);
      Booked(db', log') && InOrder(log') && Written(log, log', tid)
  {
    hide Constraints;
  }

  lemma DeleteWrites(db: Db, db': Db, log: Log, tid: nat, userId: Uuid)
    requires Booked(db, log) && InOrder(log) && db'.tokens == db.tokens - TokensOf(db.tokens, userId)
    ensures var log' := log.(steps := log.steps + 1, killed := Kill(log, userId, log.steps));
      Booked(db', log') && InOrder(log') && Written(log, log', tid)
  {
    hide Constraints, Kill;
    KillWrites(log, userId);
  }

  // The request, its issuing moved on.
  function Onward(rq: Request, pc: IssuePc): Request
    requires Issue(rq).Some?
  {
    if rq.LoggedIn? then LoggedIn(rq.grant, rq.user, pc) else Refreshing(Reissue(rq.refresh.raw, rq.refresh.rt, pc))
  }

  lemma SignShape(srv: TokenRuns.Server, db: Db, log: Log, tid: nat, rq: Request, envs: nat -> Env, now: Time,
                  entropy: Option<string>)
    requires Issue(rq).Some? && Issue(rq).value.Sign?
    ensures var pc := Issue(rq).value;
      var (db', rq') := Step(srv, db, rq, envs, now, entropy);
      && db' == db
      && rq' == Onward(rq, if entropy.None? then Issued(Err(NoEntropy))
                           else Store(pc.userId, pc.role, now, entropy.value))
      && Note(log, db, tid, rq, rq') ==
           if entropy.None? then log.(steps := log.steps + 1, ended := log.ended[tid := log.steps])
           else log.(steps := log.steps + 1,
                     draws := log.draws[entropy.value := Draw(tid, pc.userId, pc.role, now, RoleOf(db, pc.userId))])
  {
    hide Constraints, RoleOf;
  }

  function Kept(secret: string, pc: IssuePc, reply: Reply): Result<TokenResponse>
    requires pc.Store?
  {
    if AsToken(reply).Err? then Err(AsToken(reply).error) else Ok(Response(secret, pc.userId, pc.role, pc.now, pc.raw))
  }

  lemma StoreStep(srv: TokenRuns.Server, db: Db, rq: Request, envs: nat -> Env, now: Time, entropy: Option<string>)
    requires Issue(rq).Some? && Issue(rq).value.Store?
    ensures var pc := Issue(rq).value;
      var (stored, reply) := InsertTokenCall(db, FreshRow(pc.userId, pc.now, pc.raw), envs(0));
      Step(srv, db, rq, envs, now, entropy) == (stored, Onward(rq, Issued(Kept(srv.secret, pc, reply))))
  {
    hide Constraints, InsertTokenCall, FreshRow, Response;
  }

  lemma StoreNote(log: Log, db: Db, tid: nat, rq: Request, r: Result<TokenResponse>)
    requires Issue(rq).Some? && Issue(rq).value.Store?
    ensures Note(log, db, tid, rq, Onward(rq, Issued(r))) ==
      if r.Err? then log.(steps := log.steps + 1, ended := log.ended[tid := log.steps])
      else log.(steps := log.steps + 1, ended := log.ended[tid := log.steps],
                stored := log.stored[Sha256(Issue(rq).value.raw) := Storing(Issue(rq).value.userId, log.steps)])
  {
    hide Constraints;
  }

  // Drawing a fresh token.
  lemma SignBooked(srv: TokenRuns.Server, db: Db, log: Log, tid: nat, rq: Request, envs: nat -> Env, now: Time,
                   entropy: Option<string>)
    requires Booked(db, log) && InOrder(log) && RequestBooked(log, tid, rq)
    requires Issue(rq).Some? && Issue(rq).value.Sign? && (entropy.Some? ==> entropy.value !in log.draws)
    ensures StepBooked(db, log, tid, rq, Step(srv, db, rq, envs, now, entropy))
  {
    hide Constraints, Booked, InOrder, Written, Past, RoleOf, Step, Note;
    var pc := Issue(rq).value;
    SignShape(srv, db, log, tid, rq, envs, now, entropy);
    match entropy
    case None =>
      EndWrites(db, log, tid);
      EndIssue(log, tid, rq);
    case Some(raw) =>
      var d := Draw(tid, pc.userId, pc.role, now, RoleOf(db, pc.userId));
      DrawWrites(db, log, tid, raw, d);
      if rq.Refreshing? {
        PastStays(log, log.(steps := log.steps + 1, draws := log.draws[raw := d]), tid, rq.refresh.raw, rq.refresh.rt);
      }
  }

  // A refresh that comes to its end now, after its delete.
  lemma EndIssue(log: Log, tid: nat, rq: Request)
    requires InOrder(log) && RequestBooked(log, tid, rq) && Issue(rq).Some?
    requires Written(log, log.(steps := log.steps + 1, ended := log.ended[tid := log.steps]), tid)
    ensures var log' := log.(steps := log.steps + 1, ended := log.ended[tid := log.steps]);
      rq.Refreshing? ==>
        Past(log', tid, rq.refresh.raw, rq.refresh.rt) && log'.killed[Sha256(rq.refresh.raw)] < log'.ended[tid]
  {
    if rq.Refreshing? {
      PastStays(log, log.(steps := log.steps + 1, ended := log.ended[tid := log.steps]), tid, rq.refresh.raw,
                rq.refresh.rt);
    }
  }

  lemma KilledBefore(log: Log, hash: TokenHash)
    requires InOrder(log) && hash in log.killed
    ensures log.killed[hash] < log.steps
  {
  }

  // Storing it, or failing to.
  lemma StoreBooked(srv: TokenRuns.Server, db: Db, log: Log, tid: nat, rq: Request, envs: nat -> Env, now: Time,
                    entropy: Option<string>)
    requires Booked(db, log) && InOrder(log) && RequestBooked(log, tid, rq)
    requires Issue(rq).Some? && Issue(rq).value.Store?
    ensures StepBooked(db, log, tid, rq, Step(srv, db, rq, envs, now, entropy))
  {
    hide Constraints, Booked, InOrder, Written, Past, InsertTokenCall, Step, Note, Response;
    var pc := Issue(rq).value;
    var row := FreshRow(pc.userId, pc.now, pc.raw);
    StoreStep(srv, db, rq, envs, now, entropy);
    StoreNote(log, db, tid, rq, Kept(srv.secret, pc, InsertTokenCall(db, row, envs(0)).1));
    InsertTokenEffect(db, row, envs(0));
    var after := Step(srv, db, rq, envs, now, entropy);
    if InsertTokenCall(db, row, envs(0)).1.TokenRow? {
      StoreWrites(db, after.0, log, tid, row);
      if rq.Refreshing? {
        PastStays(log, Note(log, db, tid, rq, after.1), tid, rq.refresh.raw, rq.refresh.rt);
        KilledBefore(log, Sha256(rq.refresh.raw));
      }
    } else {
      EndWrites(db, log, tid);
      EndIssue(log, tid, rq);
    }
  }

  lemma InsertTokenEffect(db: Db, row: RefreshToken, env: Env)
    requires row.usedAt.None?
    ensures var (db', reply) := InsertTokenCall(db, row, env);
      if reply.TokenRow? then db'.tokens == db.tokens[row.tokenHash := row] else db' == db && reply.Failed?
  {
    hide Constraints;
  }

  lemma FindBooked(srv: TokenRuns.Server, db: Db, log: Log, tid: nat, rq: Request, envs: nat -> Env, now: Time,
                   entropy: Option<string>)
    requires Booked(db, log) && InOrder(log) && RequestBooked(log, tid, rq)
    requires rq.Refreshing? && rq.refresh.Find?
    ensures StepBooked(db, log, tid, rq, Step(srv, db, rq, envs, now, entropy))
  {
    hide UniqueEmails, Written;
    var after := Step(srv, db, rq, envs, now, entropy);
    PlainBooked(db, log, tid, rq, after.0, after.1);
  }

  lemma CheckBooked(srv: TokenRuns.Server, db: Db, log: Log, tid: nat, rq: Request, envs: nat -> Env, now: Time,
                    entropy: Option<string>)
    requires Booked(db, log) && InOrder(log) && RequestBooked(log, tid, rq)
    requires rq.Refreshing? && (rq.refresh.Check? || rq.refresh.LoadUser? || rq.refresh.Refused?)
    ensures StepBooked(db, log, tid, rq, Step(srv, db, rq, envs, now, entropy))
  {
    hide UniqueEmails, Written, Booked, InOrder;
    var after := Step(srv, db, rq, envs, now, entropy);
    PlainBooked(db, log, tid, rq, after.0, after.1);
  }

  lemma RotateBooked(srv: TokenRuns.Server, db: Db, log: Log, tid: nat, rq: Request, envs: nat -> Env, now: Time,
                     entropy: Option<string>)
    requires Booked(db, log) && InOrder(log) && RequestBooked(log, tid, rq)
    requires rq.Refreshing? && rq.refresh.Rotate?
    ensures StepBooked(db, log, tid, rq, Step(srv, db, rq, envs, now, entropy))
  {
    hide Constraints, Booked, InOrder, Written, Past, Kill, DeleteTokensOfCall;
    var raw, rt := rq.refresh.raw, rq.refresh.rt;
    DeleteEffect(db, rt.userId, envs(0));
    var after := Step(srv, db, rq, envs, now, entropy);
    var log' := Note(log, db, tid, rq, after.1);
    if envs(0).down {
      EndWrites(db, log, tid);
    } else {
      DeleteWrites(db, after.0, log, tid, rt.userId);
      PastStays(log, log', tid, raw, rt);
      PastIsKilled(log, tid, raw, rt);
    }
  }

  lemma DeleteEffect(db: Db, u: Uuid, env: Env)
    ensures var (db', reply) := DeleteTokensOfCall(db, u, env);
      if env.down then db' == db && reply.Failed?
      else db'.tokens == db.tokens - TokensOf(db.tokens, u) && AsRows(reply).Ok?
  {
    hide Constraints, TokensOf;
  }

  lemma PastIsKilled(log: Log, tid: nat, raw: string, rt: RefreshToken)
    requires Past(log, tid, raw, rt)
    ensures Sha256(raw) in Kill(log, rt.userId, log.steps)
  {
  }

  lemma RequestSteps(srv: TokenRuns.Server, db: Db, log: Log, tid: nat, rq: Request, envs: nat -> Env, now: Time,
                     entropy: Option<string>)
    requires Booked(db, log) && InOrder(log) && RequestBooked(log, tid, rq)
    requires rq.LoggingIn? ==> LocalOk(srv.cfg, db, rq.login)
    requires entropy.Some? ==> entropy.value !in log.draws
    ensures StepBooked(db, log, tid, rq, Step(srv, db, rq, envs, now, entropy))
  {
    hide Constraints, Booked, InOrder, Written, LoginStep, RequestBooked;
    if rq.LoggingIn? {
      LoginBooked(srv, db, log, tid, rq, envs, now, entropy);
    } else if Issue(rq).Some? && Issue(rq).value.Sign? {
      SignBooked(srv, db, log, tid, rq, envs, now, entropy);
    } else if Issue(rq).Some? && Issue(rq).value.Store? {
      StoreBooked(srv, db, log, tid, rq, envs, now, entropy);
    } else if rq.Refreshing? && rq.refresh.Rotate? {
      RotateBooked(srv, db, log, tid, rq, envs, now, entropy);
    } else if rq.Refreshing? && rq.refresh.Find? {
      FindBooked(srv, db, log, tid, rq, envs, now, entropy);
    } else if rq.Refreshing? && !rq.refresh.Reissue? {
      CheckBooked(srv, db, log, tid, rq, envs, now, entropy);
    } else {
      IdleBooked(srv, db, log, tid, rq, envs, now, entropy);
    }
  }

  // A request that is over does nothing more.
  lemma IdleBooked(srv: TokenRuns.Server, db: Db, log: Log, tid: nat, rq: Request, envs: nat -> Env, now: Time,
                   entropy: Option<string>)
    requires Booked(db, log) && InOrder(log) && RequestBooked(log, tid, rq)
    requires rq.TurnedAway? || (Issue(rq).Some? && Issue(rq).value.Issued?)
    ensures StepBooked(db, log, tid, rq, Step(srv, db, rq, envs, now, entropy))
  {
    hide Constraints, Booked, InOrder, Written, Past;
    if rq.Refreshing? {
      PastStays(log, log.(steps := log.steps + 1), tid, rq.refresh.raw, rq.refresh.rt) by {
        QuietWrites(db, log, tid);
      }
    }
    PlainBooked(db, log, tid, rq, db, rq);
  }

  lemma QuietWrites(db: Db, log: Log, tid: nat)
    requires Booked(db, log) && InOrder(log)
    ensures var log' := log.(steps := log.steps + 1); Booked(db, log') && InOrder(log') && Written(log, log', tid)
  {
  }

  // --- Whole actions, and runs of them ---

  lemma AdvanceLedger(srv: TokenRuns.Server, s: State, tid: nat, envs: nat -> Env, entropy: Option<string>)
    requires Coherent(srv, s) && Ledger(s)
    ensures Ledger(DoAdvance(srv, s, tid, envs, entropy))
  {
    hide Constraints, Booked, InOrder, Written, RequestBooked, Step, Grows, LocalOk, DrawsOk;
    if tid !in s.requests || Repeats(s, entropy) {
      IdleLedger(s, s.log.generated, s.entries);
    } else {
      var rq := s.requests[tid];
      assert RequestOk(srv, s.db, s.log.draws, tid, rq);
      RequestSteps(srv, s.db, s.log, tid, rq, envs, s.now, entropy);
      OthersLedger(s, DoAdvance(srv, s, tid, envs, entropy), tid);
    }
  }

  // The request of tid apart, an action leaves the others as they were.
  lemma OthersLedger(s: State, s': State, tid: nat)
    requires Ledger(s) && Booked(s'.db, s'.log) && InOrder(s'.log) && Written(s.log, s'.log, tid)
    requires tid in s'.requests && RequestBooked(s'.log, tid, s'.requests[tid])
    requires s'.requests.Keys == s.requests.Keys + {tid}
    requires forall t :: t in s.requests && t != tid ==> s'.requests[t] == s.requests[t]
    ensures Ledger(s')
  {
    hide Booked, InOrder, RequestBooked, Constraints;
    forall t | t in s'.requests ensures RequestBooked(s'.log, t, s'.requests[t]) {
      if t != tid {
        assert t in s.requests;
        BookedStays(s.log, s'.log, tid, t, s.requests[t]);
      }
    }
  }

  // An action outside any request that stores nothing.
  lemma QuietLedger(s: State, s': State)
    requires Ledger(s) && s'.requests == s.requests && Booked(s'.db, s'.log)
    requires s'.log.steps == s.log.steps + 1 && s'.log.draws == s.log.draws && s'.log.stored == s.log.stored
    requires s'.log.begun == s.log.begun && s'.log.looked == s.log.looked && s'.log.ended == s.log.ended
    requires forall h :: h in s.log.killed ==> h in s'.log.killed && s'.log.killed[h] == s.log.killed[h]
    requires forall h :: h in s'.log.killed && h !in s.log.killed ==>
      h in s.log.stored && s'.log.killed[h] == s.log.steps
    ensures Ledger(s')
  {
    hide Booked, RequestBooked, Constraints;
    forall t | t in s'.requests ensures RequestBooked(s'.log, t, s'.requests[t]) {
      BookedStays(s.log, s'.log, t + 1, t, s.requests[t]);
    }
  }

  lemma IdleLedger(s: State, generated: map<string, Time>, entries: StateStores.Entries)
    requires Ledger(s)
    ensures Ledger(s.(entries := entries, log := s.log.(steps := s.log.steps + 1, generated := generated)))
  {
    hide Constraints;
    var s' := s.(entries := entries, log := s.log.(steps := s.log.steps + 1, generated := generated));
    forall h | h in s'.db.tokens
      ensures h in s'.log.stored && s'.log.stored[h].userId == s'.db.tokens[h].userId && h !in s'.log.killed
    {
      assert s.db.tokens[h] == s'.db.tokens[h];
    }
    QuietLedger(s, s');
  }

  lemma ArrivalWrites(db: Db, log: Log, log': Log, tid: nat)
    requires Booked(db, log) && InOrder(log)
    requires log' == log.(steps := log.steps + 1, begun := log.begun[tid := log.steps], ended := log'.ended,
                          generated := log'.generated, spent := log'.spent)
    requires log'.ended == log.ended || log'.ended == log.ended[tid := log.steps]
    ensures Booked(db, log') && InOrder(log') && Written(log, log', tid)
  {
    hide Constraints;
  }

  lemma ArrivalLedger(s: State, s': State, tid: nat, rq: Request)
    requires Ledger(s) && tid !in s.requests && s'.requests == s.requests[tid := rq] && s'.db == s.db
    requires Issue(rq).None? && (rq.Refreshing? ==> rq.refresh.Find?)
    requires var n := s.log.steps;
      s'.log == s.log.(steps := n + 1, begun := s.log.begun[tid := n], ended := s'.log.ended,
                       generated := s'.log.generated, spent := s'.log.spent)
    requires s'.log.ended == s.log.ended || s'.log.ended == s.log.ended[tid := s.log.steps]
    ensures Ledger(s')
  {
    hide Constraints, Past, Booked, InOrder, Written;
    ArrivalWrites(s.db, s.log, s'.log, tid);
    assert s'.requests.Keys == s.requests.Keys + {tid};
    OthersLedger(s, s', tid);
  }

  lemma CallbackLedger(srv: TokenRuns.Server, s: State, tid: nat, state: string, provider: Provider)
    requires Ledger(s)
    ensures Ledger(DoCallback(s, tid, state, provider))
  {
    hide Constraints, Ledger, StateStores.Take;
    if tid in s.requests {
      IdleLedger(s, s.log.generated, s.entries);
    } else {
      var s' := DoCallback(s, tid, state, provider);
      ArrivalLedger(s, s', tid, s'.requests[tid]);
    }
  }

  lemma AskRefreshLedger(s: State, tid: nat, raw: string)
    requires Ledger(s)
    ensures Ledger(DoAskRefresh(s, tid, raw))
  {
    hide Constraints, Ledger;
    if tid in s.requests {
      IdleLedger(s, s.log.generated, s.entries);
    } else {
      ArrivalLedger(s, DoAskRefresh(s, tid, raw), tid, Refreshing(Find(raw)));
    }
  }

  lemma RevokeLedger(s: State, u: Uuid, env: Env)
    requires Ledger(s)
    ensures Ledger(DoRevoke(s, u, env))
  {
    hide Constraints, Kill, DeleteTokensOfCall;
    DeleteEffect(s.db, u, env);
    KillWrites(s.log, u);
    var s' := DoRevoke(s, u, env);
    if !env.down {
      DeleteWrites(s.db, s'.db, s.log, 0, u);
    }
    QuietLedger(s, s');
  }

  // Marking, purging and soft deletes leave no row that was not there.
  lemma FewerRowsLedger(s: State, s': State)
    requires Ledger(s) && s' == Idle(s).(db := s'.db, now := s'.now)
    requires forall h :: h in s'.db.tokens ==> h in s.db.tokens && s'.db.tokens[h].userId == s.db.tokens[h].userId
    ensures Ledger(s')
  {
    hide Constraints;
    QuietLedger(s, s');
  }

  lemma OtherCallLedger(srv: TokenRuns.Server, s: State, a: Action)
    requires Ledger(s) && (a.MarkUsed? || a.Purge? || a.SoftDelete?)
    ensures Ledger(Next(srv, s, a))
  {
    hide Constraints, Ledger, DeleteTokensBeforeCall, MarkTokenUsedCall, SoftDeleteUserCall;
    match a
    case MarkUsed(hash, env) =>
      TokenRuns.MarkEffect(s.db, hash, s.now, env);
      FewerRowsLedger(s, Next(srv, s, a));
    case Purge(age, env) =>
      TokenRuns.PurgeEffect(s.db, s.now - age, env);
      FewerRowsLedger(s, Next(srv, s, a));
    case SoftDelete(id, env) =>
      SequentialLogins.SoftDeleteKeeps(s.db, id, s.now, env);
      FewerRowsLedger(s, Next(srv, s, a));
  }

  lemma NextLedger(srv: TokenRuns.Server, s: State, a: Action)
    requires Coherent(srv, s) && Ledger(s)
    ensures Ledger(Next(srv, s, a))
  {
    hide Constraints, Ledger, Coherent, DoAdvance, DoCallback, DoAskRefresh, DoRevoke;
    match a
    case Advance(tid, envs, entropy) => AdvanceLedger(srv, s, tid, envs, entropy);
    case Callback(tid, state, provider) => CallbackLedger(srv, s, tid, state, provider);
    case AskRefresh(tid, raw) => AskRefreshLedger(s, tid, raw);
    case Revoke(u, env) => RevokeLedger(s, u, env);
    case Tick(_) => FewerRowsLedger(s, Next(srv, s, a));
    case Begin(state) => BeginLedger(s, state);
    case _ => OtherCallLedger(srv, s, a);
  }

  lemma BeginLedger(s: State, state: string)
    requires Ledger(s)
    ensures Ledger(DoBegin(s, state))
  {
    hide Constraints, Ledger;
    IdleLedger(s, DoBegin(s, state).log.generated, DoBegin(s, state).entries);
  }

  lemma {:induction false} RunLedger(srv: TokenRuns.Server, t0: Time, actions: seq<Action>)
    ensures Ledger(Run(srv, t0, actions))
  {
    hide Next, Coherent;
    if actions != [] {
      var before := actions[..|actions| - 1];
      RunLedger(srv, t0, before);
      RunCoherent(srv, t0, before);
      NextLedger(srv, Run(srv, t0, before), actions[|actions| - 1]);
    }
  }

  // --- How often a token is honoured ---

  // Refresh tid presented raw and was given a new session token.
  predicate Succeeded(s: State, tid: nat, raw: string) {
    tid in s.requests &&
    match s.requests[tid]
    case Refreshing(Reissue(r, _, Issued(Ok(_)))) => r == raw
    case _ => false
  }

  // A refresh that succeeded with a raw token found its row after it was stored and
  // before the first delete for its user that came after that: every success of a
  // token is by a call that was already past its lookup at that delete.
  lemma SuccessLookedUpBeforeFirstDelete(srv: TokenRuns.Server, t0: Time, actions: seq<Action>, tid: nat, raw: string)
    requires Succeeded(Run(srv, t0, actions), tid, raw)
    ensures var log := Run(srv, t0, actions).log;
      var h := Sha256(raw);
      && h in log.stored && h in log.killed && tid in log.begun && tid in log.looked && tid in log.ended
      && log.stored[h].step < log.looked[tid] < log.killed[h] < log.ended[tid]
      && log.begun[tid] < log.looked[tid]
  {
    hide Run, Constraints, InOrder, Booked;
    RunLedger(srv, t0, actions);
    var s := Run(srv, t0, actions);
    assert RequestBooked(s.log, tid, s.requests[tid]);
  }

  // So two refreshes that both succeed with one token overlap in time; calls that
  // do not overlap can use a token once.
  lemma SuccessesOverlap(srv: TokenRuns.Server, t0: Time, actions: seq<Action>, raw: string, a: nat, b: nat)
    requires Succeeded(Run(srv, t0, actions), a, raw) && Succeeded(Run(srv, t0, actions), b, raw)
    ensures var log := Run(srv, t0, actions).log;
      && a in log.begun && b in log.begun && a in log.ended && b in log.ended
      && log.begun[a] < log.ended[b] && log.begun[b] < log.ended[a]
  {
    hide Run, Succeeded;
    SuccessLookedUpBeforeFirstDelete(srv, t0, actions, a, raw);
    SuccessLookedUpBeforeFirstDelete(srv, t0, actions, b, raw);
  }
}

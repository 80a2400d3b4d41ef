// What the calls outside any request do, told row by row: in the machine of steps
// and in the runs of whole calls alike.
module Upkeep {
  import opened Domain
  import opened Tables
  import opened Statements
  import Service
  import TokenRuns

  // The tokens of everyone but u are left.
  ghost predicate AllRevoked(db: Tables, db': Tables, u: Uuid) {
    && db'.users == db.users && db'.links == db.links
    && (forall h :: h in db'.tokens <==> h in db.tokens && db.tokens[h].userId != u)
    && forall h :: h in db'.tokens ==> db'.tokens[h] == db.tokens[h]
  }

  // The tokens that expired no more than age ago are left.
  ghost predicate Purged(db: Tables, db': Tables, now: Time, age: int) {
    && db'.users == db.users && db'.links == db.links
    && (forall h :: h in db'.tokens <==> h in db.tokens && now <= db.tokens[h].expiresAt + age)
    && forall h :: h in db'.tokens ==> db'.tokens[h] == db.tokens[h]
  }

  // Of the tokens this one changes, if there is one.
  ghost predicate UsedNow(db: Tables, db': Tables, hash: TokenHash, now: Time) {
    && db'.users == db.users && db'.links == db.links && db'.tokens.Keys == db.tokens.Keys
    && forall h :: h in db.tokens ==>
         db'.tokens[h] == if h == hash then db.tokens[h].(usedAt := Some(now)) else db.tokens[h]
  }

  // Of the users this one changes, if there is one.
  ghost predicate DeletedNow(db: Tables, db': Tables, id: Uuid, now: Time) {
    && db'.links == db.links && db'.tokens == db.tokens && db'.users.Keys == db.users.Keys
    && forall u :: u in db.users ==>
         db'.users[u] == if u == id then db.users[u].(deletedAt := Some(now)) else db.users[u]
  }

  lemma RevokeCallTells(db: Db, u: Uuid, env: Env)
    requires !env.down
    ensures AllRevoked(db, DeleteTokensOfCall(db, u, env).0, u)
  {
    hide Constraints, DeleteTokensOfCall;
    DeleteOfTells(db, u, env);
  }

  lemma PurgeCallTells(db: Db, now: Time, age: int, env: Env)
    requires !env.down
    ensures Purged(db, DeleteTokensBeforeCall(db, now - age, env).0, now, age)
  {
    hide Constraints, DeleteTokensBeforeCall;
    DeleteBeforeTells(db, now - age, env);
  }

  lemma MarkCallTells(db: Db, hash: TokenHash, now: Time, env: Env)
    requires !env.down
    ensures UsedNow(db, MarkTokenUsedCall(db, hash, now, env).0, hash, now)
  {
    hide Constraints, MarkTokenUsedCall;
    MarkTokenTells(db, hash, now, env);
  }

  lemma SoftDeleteCallTells(db: Db, id: Uuid, now: Time, env: Env)
    requires !env.down
    ensures DeletedNow(db, SoftDeleteUserCall(db, id, now, env).0, id, now)
  {
    hide Constraints, SoftDeleteUserCall;
    SoftDeleteTells(db, id, now, env);
  }

  // In the middle of any interleaving; a call that does not reach the database
  // changes nothing, and no call moves the clock or a request.
  lemma {:induction false} ActionTells(srv: TokenRuns.Server, s: Service.State, a: Service.Action)
    ensures var s' := Service.Next(srv, s, a);
      match a
      case Tick(delay) => s'.now == s.now + delay && s'.db == s.db && s'.requests == s.requests
      case Revoke(u, env) =>
        s'.now == s.now && s'.requests == s.requests &&
        if env.down then s'.db == s.db else AllRevoked(s.db, s'.db, u)
      case Purge(age, env) =>
        s'.now == s.now && s'.requests == s.requests &&
        if env.down then s'.db == s.db else Purged(s.db, s'.db, s.now, age)
      case MarkUsed(hash, env) =>
        s'.now == s.now && s'.requests == s.requests &&
        if env.down then s'.db == s.db else UsedNow(s.db, s'.db, hash, s.now)
      case SoftDelete(id, env) =>
        s'.now == s.now && s'.requests == s.requests &&
        if env.down then s'.db == s.db else DeletedNow(s.db, s'.db, id, s.now)
      case Begin(_) => s'.now == s.now && s'.db == s.db && s'.requests == s.requests
      case Callback(_, _, _) => s'.now == s.now && s'.db == s.db
      case AskRefresh(_, _) => s'.now == s.now && s'.db == s.db
      case Advance(_, _, _) => s'.now == s.now && s'.entries == s.entries
  {
    hide Constraints, AllRevoked, Purged, UsedNow, DeletedNow, Service.Step, Service.Kill, Service.Note, Service.Sight;
    match a
    case Revoke(u, env) => if !env.down { RevokeCallTells(s.db, u, env); }
    case Purge(age, env) => if !env.down { PurgeCallTells(s.db, s.now, age, env); }
    case MarkUsed(hash, env) => if !env.down { MarkCallTells(s.db, hash, s.now, env); }
    case SoftDelete(id, env) => if !env.down { SoftDeleteCallTells(s.db, id, s.now, env); }
    case _ =>
  }

  // Between whole requests.
  lemma {:induction false} CallTells(srv: TokenRuns.Server, s: TokenRuns.State, c: TokenRuns.Call)
    ensures var s' := TokenRuns.Do(srv, s, c);
      match c
      case Wait(delay) => s'.now == s.now + delay && s'.db == s.db
      case Revoke(u, env) =>
        s'.now == s.now && if env.down then s'.db == s.db else AllRevoked(s.db, s'.db, u)
      case Purge(age, env) =>
        s'.now == s.now && if env.down then s'.db == s.db else Purged(s.db, s'.db, s.now, age)
      case MarkUsed(hash, env) =>
        s'.now == s.now && if env.down then s'.db == s.db else UsedNow(s.db, s'.db, hash, s.now)
      case SoftDelete(id, env) =>
        s'.now == s.now && if env.down then s'.db == s.db else DeletedNow(s.db, s'.db, id, s.now)
      case SignIn(_, _, lag, _, _) => s'.now == s.now + lag
      case Refresh(_, _, lag, _) => s'.now == s.now + lag
  {
    hide Constraints, AllRevoked, Purged, UsedNow, DeletedNow, TokenRuns.SignInOutcome, TokenRuns.RefreshCall;
    match c
    case Revoke(u, env) => if !env.down { RevokeCallTells(s.db, u, env); }
    case Purge(age, env) => if !env.down { PurgeCallTells(s.db, s.now, age, env); }
    case MarkUsed(hash, env) => if !env.down { MarkCallTells(s.db, hash, s.now, env); }
    case SoftDelete(id, env) => if !env.down { SoftDeleteCallTells(s.db, id, s.now, env); }
    case _ =>
  }
}

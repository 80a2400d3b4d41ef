// The Postgres repositories and the transactor, over a pool that holds the
// committed tables and transactions that hold uncommitted writes.
module Postgres {
  import opened Domain
  import opened Tables
  import opened Statements
  import opened Transactions

  class Pool {
    var db: Db

    constructor (db: Db)
      ensures this.db == db
    {
      this.db := db;
    }
  }

  class Tx {
    const pool: Pool
    var overlay: Overlay

    constructor (pool: Pool)
      ensures this.pool == pool && overlay == CLEAN
    {
      this.pool := pool;
      overlay := CLEAN;
    }
  }

  // A context carries the open transaction, if there is one.
  datatype Context = Background | WithTx(tx: Tx)

  ghost predicate ValidContext(ctx: Context, pool: Pool)
    reads pool, if ctx.WithTx? then {ctx.tx} else {}
  {
    ctx.WithTx? ==> ctx.tx.pool == pool && Sound(pool.db, ctx.tx.overlay)
  }

  // The tables as a caller with this context sees them.
  ghost function Visible(ctx: Context, pool: Pool): Db
    requires ValidContext(ctx, pool)
    reads pool, if ctx.WithTx? then {ctx.tx} else {}
  {
    if ctx.WithTx? then Seen(pool.db, ctx.tx.overlay) else pool.db
  }

  // What querier picks: the transaction in the context, else the pool.
  function Target(ctx: Context, pool: Pool): object {
    match ctx
    case WithTx(tx) => tx
    case Background => pool
  }

  // One statement sent to whatever querier picks. With a transaction open, the
  // committed tables stay as they are.
  method Run(ctx: Context, pool: Pool, s: Statement, env: Env) returns (reply: Reply)
    requires ValidContext(ctx, pool)
    modifies Target(ctx, pool)
    ensures ValidContext(ctx, pool)
    ensures (Visible(ctx, pool), reply) == Exec(old(Visible(ctx, pool)), s, env)
  {
    match ctx
    case WithTx(tx) =>
      OverlayRefinesTables(pool.db, tx.overlay, s, env);
      var after := ExecInTx(pool.db, tx.overlay, s, env);
      tx.overlay := after.0;
      reply := after.1;
    case Background =>
      var after := Exec(pool.db, s, env);
      pool.db := after.0;
      reply := after.1;
  }

  class UserRepo {
    const pool: Pool
    const miss: MissConvention

    constructor (pool: Pool, miss: MissConvention)
      ensures this.pool == pool && this.miss == miss
    {
      this.pool := pool;
      this.miss := miss;
    }

    method Create(ctx: Context, u: User, env: Env) returns (r: Result<User>)
      requires ValidContext(ctx, pool)
      modifies Target(ctx, pool)
      ensures ValidContext(ctx, pool)
      ensures Visible(ctx, pool) == InsertUserCall(old(Visible(ctx, pool)), u, env).0
      ensures r == AsUser(InsertUserCall(old(Visible(ctx, pool)), u, env).1)
    {
      hide Constraints;
      var reply := Run(ctx, pool, InsertUser(u), env);
      r := AsUser(reply);
    }

    method FindByID(ctx: Context, id: Uuid, env: Env) returns (r: Result<User>)
      requires ValidContext(ctx, pool)
      modifies Target(ctx, pool)
      ensures ValidContext(ctx, pool) && Visible(ctx, pool) == old(Visible(ctx, pool))
      ensures r == AsUser(SelectUserCall(old(Visible(ctx, pool)), id, env))
    {
      hide Constraints;
      var reply := Run(ctx, pool, SelectUser(id), env);
      r := AsUser(reply);
    }

    method FindByEmail(ctx: Context, email: string, env: Env) returns (found: Lookup<User>)
      requires ValidContext(ctx, pool)
      modifies Target(ctx, pool)
      ensures ValidContext(ctx, pool) && Visible(ctx, pool) == old(Visible(ctx, pool))
      ensures found == AsLookup(miss, AsUser(SelectUserByEmailCall(old(Visible(ctx, pool)), email, env)), ZERO_USER)
    {
      hide Constraints;
      var reply := Run(ctx, pool, SelectUserByEmail(email), env);
      found := AsLookup(miss, AsUser(reply), ZERO_USER);
    }

    method Update(ctx: Context, u: User, env: Env) returns (r: Result<nat>)
      requires ValidContext(ctx, pool)
      modifies Target(ctx, pool)
      ensures ValidContext(ctx, pool)
      ensures Visible(ctx, pool) == UpdateUserCall(old(Visible(ctx, pool)), u, env).0
      ensures r == AsRows(UpdateUserCall(old(Visible(ctx, pool)), u, env).1)
    {
      hide Constraints;
      var reply := Run(ctx, pool, UpdateUser(u), env);
      r := AsRows(reply);
    }

    method SoftDelete(ctx: Context, id: Uuid, at: Time, env: Env) returns (r: Result<nat>)
      requires ValidContext(ctx, pool)
      modifies Target(ctx, pool)
      ensures ValidContext(ctx, pool)
      ensures Visible(ctx, pool) == SoftDeleteUserCall(old(Visible(ctx, pool)), id, at, env).0
      ensures r == AsRows(SoftDeleteUserCall(old(Visible(ctx, pool)), id, at, env).1)
    {
      hide Constraints;
      var reply := Run(ctx, pool, SoftDeleteUser(id, at), env);
      r := AsRows(reply);
    }

    method CountAll(ctx: Context, env: Env) returns (r: Result<nat>)
      requires ValidContext(ctx, pool)
      modifies Target(ctx, pool)
      ensures ValidContext(ctx, pool) && Visible(ctx, pool) == old(Visible(ctx, pool))
      ensures r == if env.down then Err(Unavailable) else Ok(|Visible(ctx, pool).users|)
    {
      hide Constraints;
      var reply := Run(ctx, pool, CountUsers, env);
      r := AsRows(reply);
    }
  }

  class OAuthAccountRepo {
    const pool: Pool
    const miss: MissConvention

    constructor (pool: Pool, miss: MissConvention)
      ensures this.pool == pool && this.miss == miss
    {
      this.pool := pool;
      this.miss := miss;
    }

    method Upsert(ctx: Context, a: OAuthAccount, env: Env) returns (r: Result<OAuthAccount>)
      requires ValidContext(ctx, pool)
      modifies Target(ctx, pool)
      ensures ValidContext(ctx, pool)
      ensures Visible(ctx, pool) == UpsertLinkCall(old(Visible(ctx, pool)), a, env).0
      ensures r == AsLink(UpsertLinkCall(old(Visible(ctx, pool)), a, env).1)
    {
      hide Constraints;
      var reply := Run(ctx, pool, UpsertLink(a), env);
      r := AsLink(reply);
    }

    method FindByProvider(ctx: Context, key: LinkKey, env: Env) returns (found: Lookup<OAuthAccount>)
      requires ValidContext(ctx, pool)
      modifies Target(ctx, pool)
      ensures ValidContext(ctx, pool) && Visible(ctx, pool) == old(Visible(ctx, pool))
      ensures found == AsLookup(miss, AsLink(SelectLinkCall(old(Visible(ctx, pool)), key, env)), ZERO_LINK)
    {
      hide Constraints;
      var reply := Run(ctx, pool, SelectLink(key), env);
      found := AsLookup(miss, AsLink(reply), ZERO_LINK);
    }
  }

  class RefreshTokenRepo {
    const pool: Pool

    constructor (pool: Pool)
      ensures this.pool == pool
    {
      this.pool := pool;
    }

    method Create(ctx: Context, t: RefreshToken, env: Env) returns (r: Result<RefreshToken>)
      requires ValidContext(ctx, pool)
      modifies Target(ctx, pool)
      ensures ValidContext(ctx, pool)
      ensures Visible(ctx, pool) == InsertTokenCall(old(Visible(ctx, pool)), t, env).0
      ensures r == AsToken(InsertTokenCall(old(Visible(ctx, pool)), t, env).1)
    {
      hide Constraints;
      var reply := Run(ctx, pool, InsertToken(t), env);
      r := AsToken(reply);
    }

    method FindByTokenHash(ctx: Context, hash: TokenHash, env: Env) returns (r: Result<RefreshToken>)
      requires ValidContext(ctx, pool)
      modifies Target(ctx, pool)
      ensures ValidContext(ctx, pool) && Visible(ctx, pool) == old(Visible(ctx, pool))
      ensures r == AsToken(SelectTokenCall(old(Visible(ctx, pool)), hash, env))
    {
      hide Constraints;
      var reply := Run(ctx, pool, SelectToken(hash), env);
      r := AsToken(reply);
    }

    method MarkUsed(ctx: Context, hash: TokenHash, at: Time, env: Env) returns (r: Result<nat>)
      requires ValidContext(ctx, pool)
      modifies Target(ctx, pool)
      ensures ValidContext(ctx, pool)
      ensures Visible(ctx, pool) == MarkTokenUsedCall(old(Visible(ctx, pool)), hash, at, env).0
      ensures r == AsRows(MarkTokenUsedCall(old(Visible(ctx, pool)), hash, at, env).1)
    {
      hide Constraints;
      var reply := Run(ctx, pool, MarkTokenUsed(hash, at), env);
      r := AsRows(reply);
    }

    method DeleteByUserID(ctx: Context, userId: Uuid, env: Env) returns (r: Result<nat>)
      requires ValidContext(ctx, pool)
      modifies Target(ctx, pool)
      ensures ValidContext(ctx, pool)
      ensures Visible(ctx, pool) == DeleteTokensOfCall(old(Visible(ctx, pool)), userId, env).0
      ensures r == AsRows(DeleteTokensOfCall(old(Visible(ctx, pool)), userId, env).1)
    {
      hide Constraints;
      var reply := Run(ctx, pool, DeleteTokensOf(userId), env);
      r := AsRows(reply);
    }

    method DeleteExpired(ctx: Context, before: Time, env: Env) returns (r: Result<nat>)
      requires ValidContext(ctx, pool)
      modifies Target(ctx, pool)
      ensures ValidContext(ctx, pool)
      ensures Visible(ctx, pool) == DeleteTokensBeforeCall(old(Visible(ctx, pool)), before, env).0
      ensures r == AsRows(DeleteTokensBeforeCall(old(Visible(ctx, pool)), before, env).1)
      ensures !env.down ==>
        var rows := old(Visible(ctx, pool).tokens);
        && (forall h :: h in Visible(ctx, pool).tokens <==> h in rows && before <= rows[h].expiresAt)
        && r == Ok(|set h | h in rows && rows[h].expiresAt < before|)
    {
      hide Constraints;
      if !env.down {
        DeleteBeforeTells(Visible(ctx, pool), before, env);
      }
      var reply := Run(ctx, pool, DeleteTokensBefore(before), env);
      r := AsRows(reply);
    }
  }

  class PostgresTransactor {
    const pool: Pool

    constructor (pool: Pool)
      ensures this.pool == pool
    {
      this.pool := pool;
    }

    // All or nothing: see TransactionIsAllOrNothing. The loop below publishes no
    // statement before the commit.
    method WithTransaction<T>(fn: Body<T>, limit: nat, envs: nat -> Env, i: nat) returns (r: Result<T>)
      modifies pool
      ensures (pool.db, r) == Transact(fn, limit, old(pool.db), envs, i)
      ensures r.Err? ==> pool.db == old(pool.db)
    {
      hide Exec, ExecInTx;
      if envs(i).down {
        return Err(Unavailable);
      }
      var tx := new Tx(pool);
      ViewOfClean(pool.db);
      var ctx := WithTx(tx);
      var body, left: nat, j: nat := fn, limit, i + 1;
      while body.Query? && left > 0
        modifies tx
        invariant ValidContext(ctx, pool)
        invariant RunDirect(body, left, Visible(ctx, pool), envs, j) == RunDirect(fn, limit, pool.db, envs, i + 1)
        decreases left
      {
        var reply := Run(ctx, pool, body.statement, envs(j));
        body, left, j := body.next(reply), left - 1, j + 1;
      }
      if body.Query? {
        return Err(Unavailable);
      }
      r := body.result;
      if r.Err? {
        return;
      }
      if envs(j).down {
        return Err(Unavailable);
      }
      pool.db := View(pool.db, tx.overlay);
    }
  }
}

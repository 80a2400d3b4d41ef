// Transactions: a body of statements run against an overlay of uncommitted
// writes, next to the same body run directly against the committed tables.
module Transactions {
  import opened Domain
  import opened Tables

  // What an open transaction has written and deleted so far.
  datatype Overlay = Overlay(
    users: map<Uuid, User>,
    links: map<LinkKey, OAuthAccount>,
    tokens: map<TokenHash, RefreshToken>,
    deleted: set<TokenHash>)

  const CLEAN := Overlay(map[], map[], map[], {})

  // The tables as the open transaction sees them.
  function View(base: Db, o: Overlay): Tables {
    Tables(base.users + o.users, base.links + o.links, (base.tokens - o.deleted) + o.tokens)
  }

  ghost predicate Sound(base: Db, o: Overlay) {
    Constraints(View(base, o))
  }

  // Lookups read the overlay first and the committed rows second.

  function FindUser(base: Db, o: Overlay, id: Uuid): Option<User> {
    if id in o.users then Some(o.users[id])
    else if id in base.users then Some(base.users[id])
    else None
  }

  function FindOwner(base: Db, o: Overlay, email: string): Option<Uuid>
    requires Sound(base, o)
  {
    LayersUnique(base.users, o.users);
    var written := EmailOwner(o.users, email);
    if written.Some? then written else EmailOwner(base.users - o.users.Keys, email)
  }

  function FindLink(base: Db, o: Overlay, key: LinkKey): Option<OAuthAccount> {
    if key in o.links then Some(o.links[key])
    else if key in base.links then Some(base.links[key])
    else None
  }

  function FindToken(base: Db, o: Overlay, hash: TokenHash): Option<RefreshToken> {
    if hash in o.tokens then Some(o.tokens[hash])
    else if hash in base.tokens && hash !in o.deleted then Some(base.tokens[hash])
    else None
  }

  // Deletes rows of both layers: written ones are forgotten, and all are masked.
  function Erase(o: Overlay, written: set<TokenHash>, committed: set<TokenHash>): Overlay {
    o.(tokens := o.tokens - written, deleted := o.deleted + written + committed)
  }

  function Erased(o: Overlay, written: set<TokenHash>, committed: set<TokenHash>): set<TokenHash> {
    written + (committed - o.deleted - o.tokens.Keys)
  }

  function DropInTx(o: Overlay, written: set<TokenHash>, committed: set<TokenHash>): (Overlay, Reply) {
    (Erase(o, written, committed), Dropped(Erased(o, written, committed)))
  }

  function CountInTx(base: Db, o: Overlay): Reply {
    Affected(|base.users + o.users|)
  }

  function UserAnswerInTx(base: Db, o: Overlay, id: Uuid): Reply {
    var row := FindUser(base, o, id);
    if row.Some? then UserRow(row.value) else Failed(NotFound)
  }

  function EmailAnswerInTx(base: Db, o: Overlay, email: string): Reply
    requires Sound(base, o)
  {
    var owner := FindOwner(base, o, email);
    if owner.None? then Failed(NotFound) else UserAnswerInTx(base, o, owner.value)
  }

  function LinkAnswerInTx(base: Db, o: Overlay, key: LinkKey): Reply {
    var row := FindLink(base, o, key);
    if row.Some? then LinkRow(row.value) else Failed(NotFound)
  }

  function TokenAnswerInTx(base: Db, o: Overlay, hash: TokenHash): Reply {
    var row := FindToken(base, o, hash);
    if row.Some? then TokenRow(row.value) else Failed(NotFound)
  }

  function InsertUserInTx(base: Db, o: Overlay, u: User, id: Uuid): (Overlay, Reply)
    requires Sound(base, o) && id.V4?
  {
    if FindUser(base, o, id).Some? || FindOwner(base, o, u.email).Some? then (o, Failed(Conflict))
    else
      var row := u.(id := id, deletedAt := None);
      (o.(users := o.users[id := row]), UserRow(row))
  }

  function UpdateUserInTx(base: Db, o: Overlay, u: User): (Overlay, Reply)
    requires Sound(base, o)
  {
    var row, owner := FindUser(base, o, u.id), FindOwner(base, o, u.email);
    if row.None? then (o, Affected(0))
    else if owner.Some? && owner.value != u.id then (o, Failed(Conflict))
    else (o.(users := o.users[u.id := Overwrite(row.value, u)]), Affected(1))
  }

  function SoftDeleteInTx(base: Db, o: Overlay, id: Uuid, at: Time): (Overlay, Reply) {
    var row := FindUser(base, o, id);
    if row.None? then (o, Affected(0))
    else (o.(users := o.users[id := row.value.(deletedAt := Some(at))]), Affected(1))
  }

  function UpsertLinkInTx(base: Db, o: Overlay, a: OAuthAccount): (Overlay, Reply) {
    var link := FindLink(base, o, a.key);
    if link.Some? then
      var row := Relink(link.value, a);
      (o.(links := o.links[a.key := row]), LinkRow(row))
    else if FindUser(base, o, a.userId).None? then (o, Failed(ForeignKey))
    else (o.(links := o.links[a.key := a]), LinkRow(a))
  }

  function InsertTokenInTx(base: Db, o: Overlay, t: RefreshToken): (Overlay, Reply) {
    if FindToken(base, o, t.tokenHash).Some? then (o, Failed(Conflict))
    else if FindUser(base, o, t.userId).None? then (o, Failed(ForeignKey))
    else
      var row := t.(usedAt := None);
      (o.(tokens := o.tokens[t.tokenHash := row]), TokenRow(row))
  }

  function MarkTokenInTx(base: Db, o: Overlay, hash: TokenHash, at: Time): (Overlay, Reply) {
    var row := FindToken(base, o, hash);
    if row.None? then (o, Affected(0))
    else (o.(tokens := o.tokens[hash := row.value.(usedAt := Some(at))]), Affected(1))
  }

  // One statement inside an open transaction.
  function ExecInTx(base: Db, o: Overlay, s: Statement, env: Env): (Overlay, Reply)
    requires Sound(base, o)
  {
    if env.down then (o, Failed(Unavailable)) else
    match s
    case CountUsers => (o, CountInTx(base, o))
    case SelectUser(id) => (o, UserAnswerInTx(base, o, id))
    case SelectUserByEmail(email) => (o, EmailAnswerInTx(base, o, email))
    case SelectLink(key) => (o, LinkAnswerInTx(base, o, key))
    case SelectToken(hash) => (o, TokenAnswerInTx(base, o, hash))
    case InsertUser(u) => InsertUserInTx(base, o, u, V4(env.uuid))
    case UpdateUser(u) => UpdateUserInTx(base, o, u)
    case SoftDeleteUser(id, at) => SoftDeleteInTx(base, o, id, at)
    case UpsertLink(a) => UpsertLinkInTx(base, o, a)
    case InsertToken(t) => InsertTokenInTx(base, o, t)
    case MarkTokenUsed(hash, at) => MarkTokenInTx(base, o, hash, at)
    case DeleteTokensOf(u) => DropInTx(o, TokensOf(o.tokens, u), TokensOf(base.tokens, u))
    case DeleteTokensBefore(t) => DropInTx(o, TokensBefore(o.tokens, t), TokensBefore(base.tokens, t))
  }

  // If the merged rows have unique emails, so has each layer.
  lemma LayersUnique(base: map<Uuid, User>, written: map<Uuid, User>)
    requires UniqueEmails(base + written)
    ensures UniqueEmails(written) && UniqueEmails(base - written.Keys)
  {
    var all, rest := base + written, base - written.Keys;
    assert forall id :: id in written ==> id in all && all[id] == written[id];
    assert forall id :: id in rest ==> id in all && all[id] == rest[id];
  }

  // Searching the written rows and then the rest finds the owner of an email.
  lemma OwnersAgree(base: map<Uuid, User>, written: map<Uuid, User>, email: string)
    requires UniqueEmails(base + written) && UniqueEmails(written) && UniqueEmails(base - written.Keys)
    ensures var owner := EmailOwner(written, email);
      EmailOwner(base + written, email) ==
      if owner.Some? then owner else EmailOwner(base - written.Keys, email)
  {
    var all, rest := base + written, base - written.Keys;
    var first, second, owner := EmailOwner(written, email), EmailOwner(rest, email), EmailOwner(all, email);
    if first.Some? {
      assert all[first.value] == written[first.value];
    } else if second.Some? {
      assert all[second.value] == rest[second.value];
    } else {
      assert forall id :: id in all ==> id in written || id in rest;
    }
  }

  lemma MergedUpdate<K, V>(a: map<K, V>, b: map<K, V>, k: K, v: V)
    ensures a + b[k := v] == (a + b)[k := v]
  {
  }

  // dead is the set of visible rows among the written and the committed ones.
  ghost predicate Picks(base: map<TokenHash, RefreshToken>, o: Overlay,
                        written: set<TokenHash>, committed: set<TokenHash>, dead: set<TokenHash>) {
    && written <= o.tokens.Keys
    && committed <= base.Keys
    && forall h :: h in dead <==> h in written || (h in committed && h !in o.deleted && h !in o.tokens)
  }

  // Dropping rows of both layers drops exactly the visible ones among them.
  lemma DropIsDrop(base: map<TokenHash, RefreshToken>, o: Overlay,
                   written: set<TokenHash>, committed: set<TokenHash>, dead: set<TokenHash>)
    requires Picks(base, o, written, committed, dead)
    ensures var o' := Erase(o, written, committed);
      (base - o'.deleted) + o'.tokens == ((base - o.deleted) + o.tokens) - dead
  {
    var o' := Erase(o, written, committed);
    var l, r := (base - o'.deleted) + o'.tokens, ((base - o.deleted) + o.tokens) - dead;
    forall h ensures h in l <==> h in r {}
    forall h | h in l ensures l[h] == r[h] {}
  }

  lemma DropCounts(base: map<TokenHash, RefreshToken>, o: Overlay,
                   written: set<TokenHash>, committed: set<TokenHash>, dead: set<TokenHash>)
    requires Picks(base, o, written, committed, dead)
    ensures Erased(o, written, committed) == dead
  {
  }

  lemma PicksOf(base: map<TokenHash, RefreshToken>, o: Overlay, u: Uuid)
    ensures Picks(base, o, TokensOf(o.tokens, u), TokensOf(base, u), TokensOf((base - o.deleted) + o.tokens, u))
  {
  }

  lemma PicksBefore(base: map<TokenHash, RefreshToken>, o: Overlay, t: Time)
    ensures Picks(base, o, TokensBefore(o.tokens, t), TokensBefore(base, t),
                  TokensBefore((base - o.deleted) + o.tokens, t))
  {
  }

  // The merged tables of a sound overlay are a database state.
  ghost function Seen(base: Db, o: Overlay): Db
    requires Sound(base, o)
  {
    View(base, o)
  }
  // The overlay's step and the direct step end in the same tables and the same answer.
  ghost predicate Same(base: Db, inTx: (Overlay, Reply), direct: (Db, Reply)) {
    View(base, inTx.0) == direct.0 && inTx.1 == direct.1
  }

  lemma OwnerSeen(base: Db, o: Overlay, email: string)
    requires Sound(base, o)
    ensures FindOwner(base, o, email) == EmailOwner(Seen(base, o).users, email)
  {
    LayersUnique(base.users, o.users);
    OwnersAgree(base.users, o.users, email);
  }

  lemma CountAgrees(base: Db, o: Overlay)
    requires Sound(base, o)
    ensures CountInTx(base, o) == Affected(|Seen(base, o).users|)
  {
  }

  lemma EmailAgrees(base: Db, o: Overlay, email: string)
    requires Sound(base, o)
    ensures EmailAnswerInTx(base, o, email) == EmailAnswer(Seen(base, o), email)
  {
    OwnerSeen(base, o, email);
  }

  lemma LookupsAgree(base: Db, o: Overlay, id: Uuid, key: LinkKey, hash: TokenHash)
    requires Sound(base, o)
    ensures UserAnswerInTx(base, o, id) == UserAnswer(Seen(base, o), id)
    ensures LinkAnswerInTx(base, o, key) == LinkAnswer(Seen(base, o), key)
    ensures TokenAnswerInTx(base, o, hash) == TokenAnswer(Seen(base, o), hash)
  {
    hide Constraints;
  }

  lemma InsertUserAgrees(base: Db, o: Overlay, u: User, id: Uuid)
    requires Sound(base, o) && id.V4?
    ensures Same(base, InsertUserInTx(base, o, u, id), InsertUserRow(Seen(base, o), u, id))
  {
    OwnerSeen(base, o, u.email);
    MergedUpdate(base.users, o.users, id, u.(id := id, deletedAt := None));
  }

  lemma UpdateUserAgrees(base: Db, o: Overlay, u: User)
    requires Sound(base, o)
    ensures Same(base, UpdateUserInTx(base, o, u), UpdateUserRow(Seen(base, o), u))
  {
    OwnerSeen(base, o, u.email);
    var row := FindUser(base, o, u.id);
    if row.Some? {
      MergedUpdate(base.users, o.users, u.id, Overwrite(row.value, u));
    }
  }

  lemma SoftDeleteAgrees(base: Db, o: Overlay, id: Uuid, at: Time)
    requires Sound(base, o)
    ensures Same(base, SoftDeleteInTx(base, o, id, at), SoftDeleteRow(Seen(base, o), id, at))
  {
    var row := FindUser(base, o, id);
    if row.Some? {
      MergedUpdate(base.users, o.users, id, row.value.(deletedAt := Some(at)));
    }
  }

  lemma UpsertLinkAgrees(base: Db, o: Overlay, a: OAuthAccount)
    requires Sound(base, o)
    ensures Same(base, UpsertLinkInTx(base, o, a), UpsertLinkRow(Seen(base, o), a))
  {
    var link := FindLink(base, o, a.key);
    MergedUpdate(base.links, o.links, a.key, if link.Some? then Relink(link.value, a) else a);
  }

  lemma InsertTokenAgrees(base: Db, o: Overlay, t: RefreshToken)
    requires Sound(base, o)
    ensures Same(base, InsertTokenInTx(base, o, t), InsertTokenRow(Seen(base, o), t))
  {
    var direct := Seen(base, o);
    assert FindToken(base, o, t.tokenHash).Some? <==> t.tokenHash in direct.tokens;
    assert FindUser(base, o, t.userId).Some? <==> t.userId in direct.users;
    if t.tokenHash !in direct.tokens && t.userId in direct.users {
      MergedUpdate(base.tokens - o.deleted, o.tokens, t.tokenHash, t.(usedAt := None));
    }
  }

  lemma MarkTokenAgrees(base: Db, o: Overlay, hash: TokenHash, at: Time)
    requires Sound(base, o)
    ensures Same(base, MarkTokenInTx(base, o, hash, at), MarkTokenRow(Seen(base, o), hash, at))
  {
    var row := FindToken(base, o, hash);
    if row.Some? {
      MergedUpdate(base.tokens - o.deleted, o.tokens, hash, row.value.(usedAt := Some(at)));
    }
  }

  lemma DropAgrees(base: Db, o: Overlay, written: set<TokenHash>, committed: set<TokenHash>, dead: set<TokenHash>)
    requires Sound(base, o)
    requires Picks(base.tokens, o, written, committed, dead)
    ensures Same(base, DropInTx(o, written, committed), DropTokens(Seen(base, o), dead))
  {
    DropIsDrop(base.tokens, o, written, committed, dead);
    DropCounts(base.tokens, o, written, committed, dead);
  }

  lemma ReadAgrees(base: Db, o: Overlay, s: Statement, env: Env)
    requires Sound(base, o)
    requires s.CountUsers? || s.SelectUser? || s.SelectUserByEmail? || s.SelectLink? || s.SelectToken?
    ensures Same(base, ExecInTx(base, o, s, env), Exec(Seen(base, o), s, env))
  {
    match s
    case CountUsers => CountAgrees(base, o);
    case SelectUser(id) => LookupsAgree(base, o, id, LinkKey("", ""), Sha256(""));
    case SelectUserByEmail(email) => EmailAgrees(base, o, email);
    case SelectLink(key) => LookupsAgree(base, o, NilUuid, key, Sha256(""));
    case SelectToken(hash) => LookupsAgree(base, o, NilUuid, LinkKey("", ""), hash);
  }

  lemma WriteAgrees(base: Db, o: Overlay, s: Statement, env: Env)
    requires Sound(base, o)
    requires s.InsertUser? || s.UpdateUser? || s.SoftDeleteUser? || s.UpsertLink? || s.InsertToken? || s.MarkTokenUsed?
    ensures Same(base, ExecInTx(base, o, s, env), Exec(Seen(base, o), s, env))
  {
    match s
    case InsertUser(u) => InsertUserAgrees(base, o, u, V4(env.uuid));
    case UpdateUser(u) => UpdateUserAgrees(base, o, u);
    case SoftDeleteUser(id, at) => SoftDeleteAgrees(base, o, id, at);
    case UpsertLink(a) => UpsertLinkAgrees(base, o, a);
    case InsertToken(t) => InsertTokenAgrees(base, o, t);
    case MarkTokenUsed(hash, at) => MarkTokenAgrees(base, o, hash, at);
  }

  lemma DeleteAgrees(base: Db, o: Overlay, s: Statement, env: Env)
    requires Sound(base, o)
    requires s.DeleteTokensOf? || s.DeleteTokensBefore?
    ensures Same(base, ExecInTx(base, o, s, env), Exec(Seen(base, o), s, env))
  {
    match s
    case DeleteTokensOf(u) =>
      PicksOf(base.tokens, o, u);
      DropAgrees(base, o, TokensOf(o.tokens, u), TokensOf(base.tokens, u), TokensOf(Seen(base, o).tokens, u));
    case DeleteTokensBefore(t) =>
      PicksBefore(base.tokens, o, t);
      DropAgrees(base, o, TokensBefore(o.tokens, t), TokensBefore(base.tokens, t),
                 TokensBefore(Seen(base, o).tokens, t));
  }

  // A statement routed into the transaction answers, and changes the tables the
  // transaction sees, exactly as the same statement would on those tables directly.
  lemma {:induction false} OverlayRefinesTables(base: Db, o: Overlay, s: Statement, env: Env)
    requires Sound(base, o)
    ensures Same(base, ExecInTx(base, o, s, env), Exec(Seen(base, o), s, env))
  {
    if s.DeleteTokensOf? || s.DeleteTokensBefore? {
      DeleteAgrees(base, o, s, env);
    } else if s.CountUsers? || s.SelectUser? || s.SelectUserByEmail? || s.SelectLink? || s.SelectToken? {
      ReadAgrees(base, o, s, env);
    } else {
      WriteAgrees(base, o, s, env);
    }
  }

  // A transaction body: statements whose choice may depend on earlier replies.
  datatype Body<T> =
    | Return(result: Result<T>)
    | Query(statement: Statement, next: Reply -> Body<T>)

  // The body run directly on the tables, call k of the world being envs(i + k);
  // also the index of the first call it did not use. A body that has not
  // returned after limit statements meets its context's deadline.
  function RunDirect<T>(body: Body<T>, limit: nat, db: Db, envs: nat -> Env, i: nat): (Db, Result<T>, nat)
    decreases limit
  {
    match body
    case Return(r) => (db, r, i)
    case Query(s, next) =>
      if limit == 0 then (db, Err(Unavailable), i)
      else
        var (db', reply) := Exec(db, s, envs(i));
        RunDirect(next(reply), limit - 1, db', envs, i + 1)
  }

  // WithTransaction as its callers may see it: begin, run, then commit on nil and
  // roll back on any error.
  function Transact<T>(body: Body<T>, limit: nat, db: Db, envs: nat -> Env, i: nat): (Db, Result<T>) {
    if envs(i).down then (db, Err(Unavailable))
    else
      var (db', r, j) := RunDirect(body, limit, db, envs, i + 1);
      if r.Err? then (db, r)
      else if envs(j).down then (db, Err(Unavailable))
      else (db', r)
  }

  // The same body run inside a transaction, every statement routed to the overlay.
  function RunInTx<T>(body: Body<T>, limit: nat, base: Db, o: Overlay, envs: nat -> Env, i: nat)
    : (r: (Overlay, Result<T>, nat))
    requires Sound(base, o)
    ensures Sound(base, r.0)
    decreases limit
  {
    match body
    case Return(r) => (o, r, i)
    case Query(s, next) =>
      if limit == 0 then (o, Err(Unavailable), i)
      else
        OverlayRefinesTables(base, o, s, envs(i));
        var (o', reply) := ExecInTx(base, o, s, envs(i));
        RunInTx(next(reply), limit - 1, base, o', envs, i + 1)
  }

  // WithTransaction as it works: begin on a clean overlay, run the body in it,
  // then publish the overlay on nil or forget it on any error.
  function WithOverlay<T>(body: Body<T>, limit: nat, db: Db, envs: nat -> Env, i: nat): (Db, Result<T>) {
    if envs(i).down then (db, Err(Unavailable))
    else
      ViewOfClean(db);
      var (o, r, j) := RunInTx(body, limit, db, CLEAN, envs, i + 1);
      if r.Err? then (db, r)
      else if envs(j).down then (db, Err(Unavailable))
      else (View(db, o), r)
  }

  lemma ViewOfClean(db: Db)
    ensures View(db, CLEAN) == db
  {
    assert db.users + map[] == db.users && db.links + map[] == db.links;
    assert (db.tokens - {}) + map[] == db.tokens;
  }

  lemma {:induction false} BodyRefines<T>(body: Body<T>, limit: nat, base: Db, o: Overlay, envs: nat -> Env, i: nat)
    requires Sound(base, o)
    ensures var (o', r, j) := RunInTx(body, limit, base, o, envs, i);
      (View(base, o'), r, j) == RunDirect(body, limit, Seen(base, o), envs, i)
    decreases limit
  {
    hide Exec, ExecInTx;
    if body.Query? && limit > 0 {
      OverlayRefinesTables(base, o, body.statement, envs(i));
      var (o', reply) := ExecInTx(base, o, body.statement, envs(i));
      BodyRefines(body.next(reply), limit - 1, base, o', envs, i + 1);
    }
  }

  // For every body and every behaviour of the database: a transaction succeeds
  // exactly when it could begin, the body run directly succeeds, and the commit went
  // through. Then the tables and the result are those of the direct run; otherwise
  // the tables are the prior ones.
  lemma TransactionIsAllOrNothing<T>(body: Body<T>, limit: nat, db: Db, envs: nat -> Env, i: nat)
    ensures var (db', r) := WithOverlay(body, limit, db, envs, i);
      var (direct, answer, j) := RunDirect(body, limit, db, envs, i + 1);
      && (r.Ok? <==> !envs(i).down && answer.Ok? && !envs(j).down)
      && (r.Ok? ==> db' == direct && r == answer)
      && (r.Err? ==> db' == db && r == if envs(i).down || answer.Ok? then Err(Unavailable) else answer)
      && (db', r) == Transact(body, limit, db, envs, i)
  {
    hide Exec, ExecInTx;
    ViewOfClean(db);
    BodyRefines(body, limit, db, CLEAN, envs, i + 1);
  }
}

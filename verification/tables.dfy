// The three tables the service works on, and the effect of one SQL statement
// of the Postgres repositories on them.
module Tables {
  import opened Domain

  datatype Tables = Tables(
    users: map<Uuid, User>,
    links: map<LinkKey, OAuthAccount>,
    tokens: map<TokenHash, RefreshToken>)

  ghost predicate UniqueEmails(users: map<Uuid, User>) {
    forall a, b {:trigger users[a].email, users[b].email} ::
      a in users && b in users && users[a].email == users[b].email ==> a == b
  }

  // The keys, unique and foreign-key constraints declared by the migrations.
  ghost predicate Constraints(t: Tables) {
    && (forall id {:trigger t.users[id]} :: id in t.users ==> t.users[id].id == id && id.V4?)
    && UniqueEmails(t.users)
    && (forall k {:trigger t.links[k]} :: k in t.links ==> t.links[k].key == k && t.links[k].userId in t.users)
    && (forall h {:trigger t.tokens[h]} :: h in t.tokens ==>
          t.tokens[h].tokenHash == h && t.tokens[h].userId in t.users)
  }

  // A database state: tables that satisfy every declared constraint.
  type Db = t: Tables | Constraints(t) witness Tables(map[], map[], map[])

  const EMPTY: Db := Tables(map[], map[], map[])

  datatype Statement =
    | CountUsers
    | InsertUser(user: User)
    | SelectUser(id: Uuid)
    | SelectUserByEmail(email: string)
    | UpdateUser(user: User)
    | SoftDeleteUser(id: Uuid, at: Time)
    | SelectLink(key: LinkKey)
    | UpsertLink(account: OAuthAccount)
    | InsertToken(token: RefreshToken)
    | SelectToken(hash: TokenHash)
    | MarkTokenUsed(hash: TokenHash, at: Time)
    | DeleteTokensOf(userId: Uuid)
    | DeleteTokensBefore(before: Time)

  datatype Reply =
    | Failed(error: Error)
    | Affected(rows: nat)
    | Dropped(hashes: set<TokenHash>)   // a DELETE, by the rows it removed
    | UserRow(user: User)
    | LinkRow(account: OAuthAccount)
    | TokenRow(token: RefreshToken)

  // What a caller makes of a reply: the row, the number of rows, or just the error.
  function AsUser(reply: Reply): Result<User> {
    match reply
    case UserRow(u) => Ok(u)
    case Failed(e) => Err(e)
    case _ => Err(NotFound)
  }

  function AsLink(reply: Reply): Result<OAuthAccount> {
    match reply
    case LinkRow(a) => Ok(a)
    case Failed(e) => Err(e)
    case _ => Err(NotFound)
  }

  function AsToken(reply: Reply): Result<RefreshToken> {
    match reply
    case TokenRow(t) => Ok(t)
    case Failed(e) => Err(e)
    case _ => Err(NotFound)
  }

  function AsRows(reply: Reply): Result<nat> {
    match reply
    case Affected(n) => Ok(n)
    case Dropped(hashes) => Ok(|hashes|)
    case Failed(e) => Err(e)
    case _ => Err(NotFound)
  }

  // A lookup gives its caller a record, which may be nil, and an error, which may be nil.
  datatype Lookup<+T> = Lookup(record: Option<T>, error: Option<Error>)

  function AsLookup<T>(miss: MissConvention, row: Result<T>, zero: T): Lookup<T> {
    match row
    case Ok(t) => Lookup(Some(t), None)
    case Err(e) => Lookup(if miss.NilOnMiss? then None else Some(zero), Some(e))
  }

  // The zero records; the zero role is neither of the two roles, and stands here
  // as the one that grants nothing.
  const ZERO_USER := User(NilUuid, "", "", PlatformMember, PendingVerification, None)
  const ZERO_LINK := OAuthAccount(NilUuid, LinkKey("", ""), "", None, None, 0)

  // What the world decides about one call: whether the database can be reached,
  // and the UUID the database would draw for a new row.
  datatype Env = Env(down: bool, uuid: nat)

  // The id of the row with this email.
  function EmailOwner(users: map<Uuid, User>, email: string): (owner: Option<Uuid>)
    requires UniqueEmails(users)
    ensures owner.Some? ==> owner.value in users && users[owner.value].email == email
    ensures owner.None? ==> forall id :: id in users ==> users[id].email != email
  {
    if exists id :: id in users && users[id].email == email then
      var id :| id in users && users[id].email == email;
      Some(id)
    else
      None
  }

  // The columns an UPDATE of users writes; deleted_at is not among them.
  function Overwrite(row: User, u: User): User {
    row.(email := u.email, fullName := u.fullName, role := u.role, status := u.status)
  }

  // The columns ON CONFLICT DO UPDATE writes; user_id is not among them.
  function Relink(row: OAuthAccount, a: OAuthAccount): OAuthAccount {
    row.(email := a.email, accessToken := a.accessToken, refreshToken := a.refreshToken, tokenExpiry := a.tokenExpiry)
  }

  function TokensOf(tokens: map<TokenHash, RefreshToken>, userId: Uuid): set<TokenHash> {
    set h | h in tokens && tokens[h].userId == userId
  }

  function TokensBefore(tokens: map<TokenHash, RefreshToken>, before: Time): set<TokenHash> {
    set h | h in tokens && tokens[h].expiresAt < before
  }

  lemma WriteKeepsUnique(users: map<Uuid, User>, row: User)
    requires UniqueEmails(users)
    requires forall id :: id in users && users[id].email == row.email ==> id == row.id
    ensures UniqueEmails(users[row.id := row])
  {
  }

  // Writes one users row; the email may belong to no other row.
  function PutUser(db: Db, row: User): Db
    requires row.id.V4?
    requires forall id :: id in db.users && db.users[id].email == row.email ==> id == row.id
  {
    WriteKeepsUnique(db.users, row);
    db.(users := db.users[row.id := row])
  }

  function PutLink(db: Db, row: OAuthAccount): Db
    requires row.userId in db.users
  {
    db.(links := db.links[row.key := row])
  }

  function PutToken(db: Db, row: RefreshToken): Db
    requires row.userId in db.users
  {
    db.(tokens := db.tokens[row.tokenHash := row])
  }

  function DropTokens(db: Db, dead: set<TokenHash>): (Db, Reply) {
    (db.(tokens := db.tokens - dead), Dropped(dead))
  }

  function InsertUserRow(db: Db, u: User, id: Uuid): (Db, Reply)
    requires id.V4?
  {
    if id in db.users || EmailOwner(db.users, u.email).Some? then (db, Failed(Conflict))
    else
      var row := u.(id := id, deletedAt := None);
      (PutUser(db, row), UserRow(row))
  }

  function UpdateUserRow(db: Db, u: User): (Db, Reply) {
    var owner := EmailOwner(db.users, u.email);
    if u.id !in db.users then (db, Affected(0))
    else if owner.Some? && owner.value != u.id then (db, Failed(Conflict))
    else (PutUser(db, Overwrite(db.users[u.id], u)), Affected(1))
  }

  function UpsertLinkRow(db: Db, a: OAuthAccount): (Db, Reply) {
    if a.key in db.links then
      var row := Relink(db.links[a.key], a);
      (PutLink(db, row), LinkRow(row))
    else if a.userId !in db.users then (db, Failed(ForeignKey))
    else (PutLink(db, a), LinkRow(a))
  }

  function InsertTokenRow(db: Db, t: RefreshToken): (Db, Reply) {
    if t.tokenHash in db.tokens then (db, Failed(Conflict))
    else if t.userId !in db.users then (db, Failed(ForeignKey))
    else
      var row := t.(usedAt := None);
      (PutToken(db, row), TokenRow(row))
  }

  function SoftDeleteRow(db: Db, id: Uuid, at: Time): (Db, Reply) {
    if id !in db.users then (db, Affected(0))
    else (PutUser(db, db.users[id].(deletedAt := Some(at))), Affected(1))
  }

  function MarkTokenRow(db: Db, hash: TokenHash, at: Time): (Db, Reply) {
    if hash !in db.tokens then (db, Affected(0))
    else (PutToken(db, db.tokens[hash].(usedAt := Some(at))), Affected(1))
  }

  function UserAnswer(db: Db, id: Uuid): Reply {
    if id in db.users then UserRow(db.users[id]) else Failed(NotFound)
  }

  function EmailAnswer(db: Db, email: string): Reply {
    var owner := EmailOwner(db.users, email);
    if owner.Some? then UserRow(db.users[owner.value]) else Failed(NotFound)
  }

  function LinkAnswer(db: Db, key: LinkKey): Reply {
    if key in db.links then LinkRow(db.links[key]) else Failed(NotFound)
  }

  function TokenAnswer(db: Db, hash: TokenHash): Reply {
    if hash in db.tokens then TokenRow(db.tokens[hash]) else Failed(NotFound)
  }

  // Each statement as one call to the database, which may not be reached.

  function Asked(env: Env, answer: Reply): Reply {
    if env.down then Failed(Unavailable) else answer
  }

  function Sent(db: Db, env: Env, after: (Db, Reply)): (Db, Reply) {
    if env.down then (db, Failed(Unavailable)) else after
  }

  function CountUsersCall(db: Db, env: Env): Reply { Asked(env, Affected(|db.users|)) }
  function SelectUserCall(db: Db, id: Uuid, env: Env): Reply { Asked(env, UserAnswer(db, id)) }
  function SelectUserByEmailCall(db: Db, email: string, env: Env): Reply { Asked(env, EmailAnswer(db, email)) }
  function SelectLinkCall(db: Db, key: LinkKey, env: Env): Reply { Asked(env, LinkAnswer(db, key)) }
  function SelectTokenCall(db: Db, hash: TokenHash, env: Env): Reply { Asked(env, TokenAnswer(db, hash)) }

  function InsertUserCall(db: Db, u: User, env: Env): (Db, Reply) { Sent(db, env, InsertUserRow(db, u, V4(env.uuid))) }
  function UpdateUserCall(db: Db, u: User, env: Env): (Db, Reply) { Sent(db, env, UpdateUserRow(db, u)) }
  function SoftDeleteUserCall(db: Db, id: Uuid, at: Time, env: Env): (Db, Reply) {
    Sent(db, env, SoftDeleteRow(db, id, at))
  }

  function UpsertLinkCall(db: Db, a: OAuthAccount, env: Env): (Db, Reply) { Sent(db, env, UpsertLinkRow(db, a)) }
  function InsertTokenCall(db: Db, t: RefreshToken, env: Env): (Db, Reply) { Sent(db, env, InsertTokenRow(db, t)) }
  function MarkTokenUsedCall(db: Db, hash: TokenHash, at: Time, env: Env): (Db, Reply) {
    Sent(db, env, MarkTokenRow(db, hash, at))
  }

  function DeleteTokensOfCall(db: Db, userId: Uuid, env: Env): (Db, Reply) {
    Sent(db, env, DropTokens(db, TokensOf(db.tokens, userId)))
  }

  function DeleteTokensBeforeCall(db: Db, before: Time, env: Env): (Db, Reply) {
    Sent(db, env, DropTokens(db, TokensBefore(db.tokens, before)))
  }

  // One statement against the committed tables.
  function Exec(db: Db, s: Statement, env: Env): (Db, Reply) {
    match s
    case CountUsers => (db, CountUsersCall(db, env))
    case SelectUser(id) => (db, SelectUserCall(db, id, env))
    case SelectUserByEmail(email) => (db, SelectUserByEmailCall(db, email, env))
    case SelectLink(key) => (db, SelectLinkCall(db, key, env))
    case SelectToken(hash) => (db, SelectTokenCall(db, hash, env))
    case InsertUser(u) => InsertUserCall(db, u, env)
    case UpdateUser(u) => UpdateUserCall(db, u, env)
    case SoftDeleteUser(id, at) => SoftDeleteUserCall(db, id, at, env)
    case UpsertLink(a) => UpsertLinkCall(db, a, env)
    case InsertToken(t) => InsertTokenCall(db, t, env)
    case MarkTokenUsed(hash, at) => MarkTokenUsedCall(db, hash, at, env)
    case DeleteTokensOf(userId) => DeleteTokensOfCall(db, userId, env)
    case DeleteTokensBefore(before) => DeleteTokensBeforeCall(db, before, env)
  }
}

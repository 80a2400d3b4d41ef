// What every statement answers and does to each row, told without the functions
// the tables are computed with.
module Statements {
  import opened Domain
  import opened Tables

  // A call that does not reach the database fails and changes nothing.
  lemma DownChangesNothing(db: Db, s: Statement, env: Env)
    requires env.down
    ensures Exec(db, s, env) == (db, Failed(Unavailable))
  {
  }

  // The four lookups: the row if there is one, NotFound if there is none. A row that
  // is marked deleted is found like any other.
  lemma LookupsTell(db: Db, id: Uuid, email: string, key: LinkKey, hash: TokenHash, env: Env)
    requires !env.down
    ensures AsUser(SelectUserCall(db, id, env)) == if id in db.users then Ok(db.users[id]) else Err(NotFound)
    ensures AsLink(SelectLinkCall(db, key, env)) == if key in db.links then Ok(db.links[key]) else Err(NotFound)
    ensures AsToken(SelectTokenCall(db, hash, env)) == if hash in db.tokens then Ok(db.tokens[hash]) else Err(NotFound)
    ensures AsRows(CountUsersCall(db, env)) == Ok(|db.users|)
    ensures forall u :: u in db.users && db.users[u].email == email ==>
      AsUser(SelectUserByEmailCall(db, email, env)) == Ok(db.users[u])
    ensures (forall u :: u in db.users ==> db.users[u].email != email) ==>
      AsUser(SelectUserByEmailCall(db, email, env)) == Err(NotFound)
  {
  }

  // INSERT INTO users: the new row and no other, or a conflict.
  lemma InsertUserTells(db: Db, u: User, env: Env)
    requires !env.down
    ensures var (db', reply) := InsertUserCall(db, u, env);
      var id := V4(env.uuid);
      var taken := id in db.users || exists other :: other in db.users && db.users[other].email == u.email;
      && db'.links == db.links && db'.tokens == db.tokens
      && (taken ==> AsUser(reply) == Err(Conflict) && db' == db)
      && (!taken ==>
            var row := User(id, u.email, u.fullName, u.role, u.status, None);
            && AsUser(reply) == Ok(row)
            && (forall i :: i in db'.users <==> i in db.users || i == id)
            && db'.users[id] == row && forall i :: i in db.users ==> db'.users[i] == db.users[i])
  {
  }

  ghost predicate TakenByAnother(users: map<Uuid, User>, u: User) {
    exists other :: other in users && users[other].email == u.email && other != u.id
  }

  lemma OwnerIsAnother(users: map<Uuid, User>, u: User)
    requires UniqueEmails(users)
    ensures TakenByAnother(users, u) <==> EmailOwner(users, u.email).Some? && EmailOwner(users, u.email).value != u.id
  {
    var owner := EmailOwner(users, u.email);
    assert owner.Some? && owner.value != u.id ==> users[owner.value].email == u.email;
  }

  // UPDATE users: five columns of the one row; when it was deleted stays.
  lemma UpdateUserTells(db: Db, u: User, env: Env)
    requires !env.down
    ensures var (db', reply) := UpdateUserCall(db, u, env);
      && db'.links == db.links && db'.tokens == db.tokens && db'.users.Keys == db.users.Keys
      && (forall i :: i in db.users && i != u.id ==> db'.users[i] == db.users[i])
      && (u.id !in db.users ==> AsRows(reply) == Ok(0))
      && (u.id in db.users && TakenByAnother(db.users, u) ==>
            AsRows(reply) == Err(Conflict) && db'.users[u.id] == db.users[u.id])
      && (u.id in db.users && !TakenByAnother(db.users, u) ==>
            && AsRows(reply) == Ok(1)
            && db'.users[u.id] == User(u.id, u.email, u.fullName, u.role, u.status, db.users[u.id].deletedAt))
  {
    OwnerIsAnother(db.users, u);
    hide UniqueEmails, TakenByAnother;
  }

  // The soft delete: the mark on the one row, nothing else.
  lemma SoftDeleteTells(db: Db, id: Uuid, at: Time, env: Env)
    requires !env.down
    ensures var (db', reply) := SoftDeleteUserCall(db, id, at, env);
      && db'.links == db.links && db'.tokens == db.tokens && db'.users.Keys == db.users.Keys
      && (forall i :: i in db.users && i != id ==> db'.users[i] == db.users[i])
      && (id in db.users ==>
            var row := db.users[id];
            db'.users[id] == User(row.id, row.email, row.fullName, row.role, row.status, Some(at)))
      && AsRows(reply) == Ok(if id in db.users then 1 else 0)
  {
  }

  // INSERT INTO oauth_accounts ON CONFLICT DO UPDATE: a new link as given, or every
  // column of the old one but its owner.
  lemma UpsertLinkTells(db: Db, a: OAuthAccount, env: Env)
    requires !env.down
    ensures var (db', reply) := UpsertLinkCall(db, a, env);
      && db'.users == db.users && db'.tokens == db.tokens
      && (forall k :: k in db.links && k != a.key ==> k in db'.links && db'.links[k] == db.links[k])
      && (forall k :: k in db'.links ==> k in db.links || k == a.key)
      && (a.key in db.links ==>
            var owner := db.links[a.key].userId;
            var row := OAuthAccount(owner, a.key, a.email, a.accessToken, a.refreshToken, a.tokenExpiry);
            a.key in db'.links && db'.links[a.key] == row && AsLink(reply) == Ok(row))
      && (a.key !in db.links && a.userId in db.users ==>
            a.key in db'.links && db'.links[a.key] == a && AsLink(reply) == Ok(a))
      && (a.key !in db.links && a.userId !in db.users ==> AsLink(reply) == Err(ForeignKey) && db' == db)
  {
  }

  // INSERT INTO refresh_tokens: an unused row, a duplicate hash, or a missing user.
  lemma InsertTokenTells(db: Db, t: RefreshToken, env: Env)
    requires !env.down
    ensures var (db', reply) := InsertTokenCall(db, t, env);
      && db'.users == db.users && db'.links == db.links
      && (forall h :: h in db.tokens ==> h in db'.tokens && db'.tokens[h] == db.tokens[h])
      && (forall h :: h in db'.tokens ==> h in db.tokens || h == t.tokenHash)
      && (t.tokenHash in db.tokens ==> AsToken(reply) == Err(Conflict))
      && (t.tokenHash !in db.tokens && t.userId !in db.users ==> AsToken(reply) == Err(ForeignKey) && db' == db)
      && (t.tokenHash !in db.tokens && t.userId in db.users ==>
            var row := RefreshToken(t.userId, t.tokenHash, t.expiresAt, None);
            AsToken(reply) == Ok(row) && t.tokenHash in db'.tokens && db'.tokens[t.tokenHash] == row)
  {
  }

  // Marking a token: when it was used, on the one row.
  lemma MarkTokenTells(db: Db, hash: TokenHash, at: Time, env: Env)
    requires !env.down
    ensures var (db', reply) := MarkTokenUsedCall(db, hash, at, env);
      && db'.users == db.users && db'.links == db.links && db'.tokens.Keys == db.tokens.Keys
      && (forall h :: h in db.tokens && h != hash ==> db'.tokens[h] == db.tokens[h])
      && (hash in db.tokens ==>
            var row := db.tokens[hash];
            db'.tokens[hash] == RefreshToken(row.userId, row.tokenHash, row.expiresAt, Some(at)))
      && AsRows(reply) == Ok(if hash in db.tokens then 1 else 0)
  {
  }

  // DELETE by user: exactly that user's rows go, and they are counted.
  lemma DeleteOfTells(db: Db, userId: Uuid, env: Env)
    requires !env.down
    ensures var (db', reply) := DeleteTokensOfCall(db, userId, env);
      && db'.users == db.users && db'.links == db.links
      && (forall h :: h in db'.tokens <==> h in db.tokens && db.tokens[h].userId != userId)
      && (forall h :: h in db'.tokens ==> db'.tokens[h] == db.tokens[h])
      && AsRows(reply) == Ok(|set h | h in db.tokens && db.tokens[h].userId == userId|)
  {
    assert TokensOf(db.tokens, userId) == set h | h in db.tokens && db.tokens[h].userId == userId;
  }

  // DELETE by expiry: exactly the rows that expired before the given time go, and
  // they are counted.
  lemma DeleteBeforeTells(db: Db, before: Time, env: Env)
    requires !env.down
    ensures var (db', reply) := DeleteTokensBeforeCall(db, before, env);
      && db'.users == db.users && db'.links == db.links
      && (forall h :: h in db'.tokens <==> h in db.tokens && before <= db.tokens[h].expiresAt)
      && (forall h :: h in db'.tokens ==> db'.tokens[h] == db.tokens[h])
      && AsRows(reply) == Ok(|set h | h in db.tokens && db.tokens[h].expiresAt < before|)
  {
    assert TokensBefore(db.tokens, before) == set h | h in db.tokens && db.tokens[h].expiresAt < before;
  }

  // How a miss reaches the caller: the error always, the record by the convention.
  lemma MissesTell<T>(miss: MissConvention, row: Result<T>, zero: T)
    ensures var found := AsLookup(miss, row, zero);
      && (row.Ok? ==> found.record == Some(row.value) && found.error == None)
      && (row.Err? ==> found.error == Some(row.error))
      && (row.Err? && miss.NilOnMiss? ==> found.record == None)
      && (row.Err? && miss.RecordOnMiss? ==> found.record == Some(zero))
  {
  }
}

# Authentication service: a verified model

This project models the authentication service of the API (provider logins,
session tokens, roles) together with the pieces of the CLI and the telemetry
that depend on it, and proves what they promise. `dafny verify dfyconfig.toml`
checks everything.

## What is modelled

- **The database** (`domain.dfy`, `tables.dfy`, `statements.dfy`): users, OAuth
  links and refresh tokens, with every key, unique and foreign-key constraint the
  migrations declare as part of the type `Db`; the effect and the reply of each SQL
  statement of the repositories, and what each means row by row; a database that
  may fail to answer any call.
- **Transactions** (`transactions.dfy`, `postgres.dfy`): the context that carries
  an open transaction, the querier that routes statements into it, an overlay of
  uncommitted writes, and `WithTransaction` as a loop over an arbitrary body of
  statements. The repositories are classes over a pool.
- **Resolution and bootstrap** (`resolver.dfy`, `logins.dfy`, `sequential.dfy`,
  `cases.dfy`, `designated.dfy`, `bootstrap.dfy`): `ResolveOrCreateUser` twice, as
  the method the server calls and as a machine of single repository calls; the
  method is proved to do what the machine does when left alone, and `cases.dfy`
  says what that is, for every call that may fail.
- **Session tokens** (`sessions.dfy`, `middleware.dfy`): issue, rotate, revoke, in
  the same two forms; the decision of `AuthRequired` and `RequireRole`; the
  client's `NeedsRefresh`.
- **States** (`state_store.dfy`) and the **handlers** that use them
  (`handler.dfy`).
- **Runs.** `token_runs.dfy`, `revocation.dfy` and `purging.dfy` speak of runs of
  whole calls, each of whose repository calls may fail, over a clock that never
  goes back. `service.dfy` lets any number of requests interleave, one repository
  call or one look at the clock at a time; `authority.dfy`, `racing.dfy`,
  `linkage.dfy`, `rotation.dfy`, `honouring.dfy`, `grants.dfy`, `misses.dfy`,
  `designated.dfy` and `interleaved_purging.dfy` prove what every such run keeps;
  `upkeep.dfy` says what the calls outside any request do in both. `isolation.dfy`
  takes the transaction of a new user apart, too.
  `handler.dfy` shows that a request of that machine, left alone, ends as the
  handler's own method does.
- **Concurrency outside the API core**: the CLI's one-result callback server
  (`callback.dfy`) and the active-request counter (`metrics.dfy`).

Times are whole nanoseconds and unbounded. What the world decides (whether a call
reaches the database, the UUID it draws, the random bytes, the clock) is a
parameter of every step, so every theorem is about every behaviour of the world.

## Assumptions

- SHA-256 is injective; a JWT under the server's key was signed by the server; a
  random value is never drawn twice.
- A transaction body takes effect at one moment. The code asks for the default
  isolation level only (`api/internal/repository/postgres/transactor.go:21`),
  although the comment at `api/internal/auth/resolve_user.go:113` says
  "serializable". `isolation.dfy` drops this assumption for the row count, and
  gives the exact condition under which the fallback makes two admins without it.
- The database draws a new UUID for every row. Only the claim that a failed login
  leaves its row behind needs this, and says so (`Racing.FreshIds`).
- `http.Server.Shutdown` with a background context returns after the handlers
  under way have returned, and lets no new one in.

## What was found

- **A miss in Postgres is not nil.** The resolver asks `account != nil`
  (`api/internal/auth/resolve_user.go:73`), but the Postgres lookups return a
  non-nil empty record next to the error
  (`api/internal/repository/postgres/oauth_account_repository.go:32-41`). With
  that convention nobody new ever gets in, in any interleaving
  (`Misses.PostgresMissKeepsEveryoneOut`); `Misses.LoginSucceedsExactly` gives the
  exact condition under which a login succeeds. The in-memory repository returns
  nil, and the theorems about new users are stated for that convention
  (`NilOnMiss`).
- **The fallback stays on next to a designated admin** (`api/cmd/api/main.go:119`).
  Whoever signs in first becomes an admin, in production too, so there can be two
  (`Bootstrap.FirstUserIsAdmin`, `Bootstrap.StrangerAndDesignated`).
- **The row count is not locked.** Under the isolation the code asks for, the
  fallback makes an admin of every user whose login read the count before the
  first commit; two overlapping first logins are enough
  (`Isolation.FallbackAdminsExactly`, `Isolation.TwoFallbackAdmins`).
- **Rotation is not atomic.** A refresh is honoured exactly if its lookup found a
  usable row and none of its calls failed, whatever others did since
  (`Honouring.HonouredExactly`). So one token serves every call that was past its
  lookup at the first delete, and no other; from every state in which a token is
  good, any number of callers can share it
  (`Honouring.SuccessesAreBounded`, `Honouring.AnyNumberIsHonoured`).
- **Overlapping logins of one person can leave a user without a link.** It takes
  two logins of one identity that report different emails, the second of which
  looks up before the first commits (`Linkage.TwoEmailsLeaveAnUnlinkedUser`); with
  the same email the second transaction fails on the unique email. As long as every
  identity reports one email, every user owns a link in every interleaving
  (`Linkage.SteadyIdentitiesStayLinked`); `Linkage.LinkedThroughoutExactly` gives
  the exact condition, step by step.
- **A panicking handler leaves its request counted as active for good**: nothing is
  deferred in `api/internal/middleware/accesslog.go:49-60`
  (`Metrics.CounterTellsInFlight`). The counter has no single series that tells
  the requests in flight, because the decrement carries the status; only sums do.
- A soft-deleted user can still sign in: no lookup reads `deleted_at`, and none of
  the conditions in `Misses.LoginSucceedsExactly` mentions it.

## Model

| member | source | states |
|---|---|---|
| Transactions.OverlayRefinesTables | api/internal/repository/postgres/common.go:29-41 | every statement routed into an open transaction answers, and changes the tables the transaction sees, exactly as on those tables directly |
| Transactions.BodyRefines | api/internal/repository/postgres/transactor.go:26-27 | so does a whole body of statements, each chosen from the replies before it |
| Transactions.TransactionIsAllOrNothing | api/internal/repository/postgres/transactor.go:18-33 | success if and only if begin, body and commit succeed, and then the tables and the result are those of running the body directly; on any error the tables are the prior ones, and which error it is |
| Postgres.Run | api/internal/repository/postgres/common.go:35-41 | a statement goes to the transaction of the context, else to the pool; the other is not touched |
| Postgres.PostgresTransactor.WithTransaction | api/internal/repository/postgres/transactor.go:20-33 | the loop over the overlay publishes nothing before the commit and is all or nothing |
| Postgres.UserRepo.Create | api/internal/repository/postgres/user_repository.go:21-29 | the new tables and the returned row or conflict, as seen through the context |
| Postgres.UserRepo.FindByID | api/internal/repository/postgres/user_repository.go:31-40 | the row or ErrNotFound, nothing changed |
| Postgres.UserRepo.FindByEmail | api/internal/repository/postgres/user_repository.go:42-51 | the row with this email, or a miss reported by the given convention |
| Postgres.UserRepo.Update | api/internal/repository/postgres/user_repository.go:53-61 | the named columns of one row, or a conflict; deleted_at untouched |
| Postgres.UserRepo.SoftDelete | api/internal/repository/postgres/user_repository.go:63-68 | deleted_at of one row |
| Postgres.UserRepo.CountAll | api/internal/repository/postgres/user_repository.go:70-77 | the number of rows the context sees, uncommitted ones included |
| Postgres.OAuthAccountRepo.Upsert | api/internal/repository/postgres/oauth_account_repository.go:19-30 | a new link, or the named columns of the old one, never its owner |
| Postgres.OAuthAccountRepo.FindByProvider | api/internal/repository/postgres/oauth_account_repository.go:32-41 | the link, or a miss reported by the given convention |
| Postgres.RefreshTokenRepo.Create | api/internal/repository/postgres/refresh_token_repository.go:20-27 | a new unused row, a conflict on the hash, or a missing user |
| Postgres.RefreshTokenRepo.FindByTokenHash | api/internal/repository/postgres/refresh_token_repository.go:29-36 | the row or ErrNotFound, nothing changed |
| Postgres.RefreshTokenRepo.MarkUsed | api/internal/repository/postgres/refresh_token_repository.go:38-42 | used_at of one row |
| Postgres.RefreshTokenRepo.DeleteByUserID | api/internal/repository/postgres/refresh_token_repository.go:50-54 | removes exactly the rows of the user |
| Postgres.RefreshTokenRepo.DeleteExpired | api/internal/repository/postgres/refresh_token_repository.go:56-60 | removes exactly the rows that expired before the given time, and counts them |
| Statements.LookupsTell | api/internal/repository/postgres/user_repository.go:31-51 | each lookup answers with the row if and only if there is one, deleted or not |
| Statements.InsertUserTells | api/internal/repository/postgres/user_repository.go:21-29 | the new row, column by column, and no other; or a conflict and no change |
| Statements.UpdateUserTells | api/internal/repository/postgres/user_repository.go:53-61 | the five columns of the one row, unless another row has the email; no other row, and not when it was deleted |
| Statements.SoftDeleteTells | api/internal/repository/postgres/user_repository.go:63-68 | the mark on the one row and nothing else |
| Statements.UpsertLinkTells | api/internal/repository/postgres/oauth_account_repository.go:19-30 | the link as given, or every column of the old one but its owner; no other link |
| Statements.InsertTokenTells | api/internal/repository/postgres/refresh_token_repository.go:20-27 | the row, unused, or which error; no other row |
| Statements.MarkTokenTells | api/internal/repository/postgres/refresh_token_repository.go:38-42 | when it was used, on the one row |
| Statements.DeleteOfTells | api/internal/repository/postgres/refresh_token_repository.go:50-54 | a row is left if and only if it is another user's; the rest is counted |
| Statements.DeleteBeforeTells | api/internal/repository/postgres/refresh_token_repository.go:56-60 | a row is left if and only if it does not expire before the given time; the rest is counted |
| Statements.MissesTell | api/internal/repository/postgres/oauth_account_repository.go:32-41 | a miss is always an error, next to no record or a zero one by the convention |
| Resolver.UserResolver.ApplyBootstrapUpgrade | api/internal/auth/resolve_user.go:145-157 | no call for anyone but a member with the configured email; then exactly one update, to admin, whose failure is the answer |
| Resolver.UserResolver.ResolveLinked | api/internal/auth/resolve_user.go:73-91 | case 1 does what the step machine does from the found link |
| Resolver.UserResolver.LinkKnownUser | api/internal/auth/resolve_user.go:99-109 | case 2 does what the step machine does from the known user |
| Resolver.UserResolver.ResolveOrCreateUser | api/internal/auth/resolve_user.go:62-141 | tables and result, error by error and call by call, are those of the step machine left alone |
| Logins.InsertUserEffect | api/internal/repository/postgres/user_repository.go:21-29 | success adds one row under the drawn id; a conflict if and only if the id or the email is taken |
| Logins.UpsertEffect | api/internal/repository/postgres/oauth_account_repository.go:19-30 | the links after an upsert, and the only ways it can fail |
| Logins.CreateOutcome | api/internal/auth/resolve_user.go:118-136 | one new user, with the bootstrap role for the count it saw, and its link; or nothing at all |
| Logins.StepKeeps | api/internal/auth/resolve_user.go:62-141 | one repository call of a login, after anything others did: no email, link owner, admin role or deletion is undone, tokens stay, and what the login relies on next holds |
| SequentialLogins.WholeLogin | api/internal/auth/resolve_user.go:62-141 | a login that is not interrupted keeps every user linked, and a success answers with the user's row as it is then and leaves the identity's link, with the new tokens, on that user |
| SequentialLogins.UsersStayLinked | api/internal/auth/resolve_user.go:62-141 | any sequence of logins and soft deletes, any call failing, keeps every user linked and the tables growing |
| SequentialLogins.EveryUserOwnsALink | api/internal/auth/resolve_user.go:111-140 | from empty tables, every user row owns a link |
| SequentialLogins.FailedNewLoginChangesNothing | api/internal/auth/resolve_user.go:111-140 | a failed login of someone new, at whichever call, leaves all tables as they were |
| SequentialLogins.ResolutionIsStable | api/internal/auth/resolve_user.go:67-141 | after a success and any other visits, a later success of the same identity, with any email, returns the same user and adds no row |
| SequentialLogins.LaterLogin | api/internal/auth/resolve_user.go:73-91 | a known identity is answered with the owner of its link |
| Cases.LinkedCase | api/internal/auth/resolve_user.go:67-91 | a linked identity, call by call: load, store the provider's tokens, upgrade if the row awaits it; the answer is the row, promoted if it was, and which failing call leaves what |
| Cases.KnownEmailCase | api/internal/auth/resolve_user.go:93-109 | a known email, call by call: upgrade if the row awaits it, then the link; a failure in between keeps the upgrade |
| Cases.CreateCase | api/internal/auth/resolve_user.go:111-140 | neither known, call by call: count if it matters, insert, link and commit; the row and the link column by column, or an error and no change |
| Designated.StepPromotes | api/internal/auth/resolve_user.go:143-157 | one call of a login, after anything others did: whoever it is about to answer with is an admin if designated, and no role changes but the designated one's |
| Designated.DesignatedSignsInAsAdmin | api/internal/auth/resolve_user.go:143-157 | from any tables, a login that succeeds for the configured email answers with an admin and leaves an admin's row; no other role changes |
| Designated.DesignatedIsAdminThroughout | api/internal/auth/resolve_user.go:143-157 | in every interleaving, every user signed in with the configured email is an admin, in the answer and in the table from then on |
| Linkage.LinkedThroughoutExactly | api/internal/auth/resolve_user.go:118-136 | in every interleaving, every user owns a link at every moment if and only if no transaction commits a new user for an identity linked by then |
| Linkage.SteadyIdentitiesStayLinked | api/internal/auth/resolve_user.go:67-141 | in every interleaving with any failing calls, if each identity always reports one email then every user owns a link |
| Linkage.TwoEmailsLeaveAnUnlinkedUser | api/internal/auth/resolve_user.go:67-141 | two overlapping logins of one identity with two emails, from empty tables, end with two users, one of them without a link |
| Bootstrap.NewLogin | api/internal/auth/resolve_user.go:118-140 | with nothing failing, someone new adds exactly one user and one link |
| Bootstrap.FirstUserIsAdmin | api/cmd/api/main.go:116-120 | the first user is an admin if and only if not in production or an admin email is set |
| Bootstrap.StrangerAndDesignated | api/cmd/api/main.go:116-120 | with an admin email set, a stranger who comes first and the designated admin are both admins |
| Misses.LoginSucceedsExactly | api/internal/auth/resolve_user.go:62-141 | with the database up, success if and only if there is an email and the identity is linked or a miss is nil; else which error, and no change |
| Misses.PostgresMissKeepsEveryoneOut | api/internal/repository/postgres/oauth_account_repository.go:32-41 | with a non-nil record on a miss, no interleaving ever creates a user, a link or a session |
| Sessions.TokenIssuer.IssueSessionToken | api/internal/auth/token.go:45-80 | tables and result are those of the issuing machine |
| Sessions.TokenIssuer.RefreshSession | api/internal/auth/token.go:86-112 | tables and result are those of the refreshing machine left alone |
| Sessions.TokenIssuer.RevokeAllSessions | api/internal/auth/token.go:117-122 | deletes the user's rows |
| Sessions.IssueOutcome | api/internal/auth/token.go:60-79 | a token is released only with its refresh row stored, and which failure gives which error |
| Sessions.ResponseGrants | api/internal/auth/token.go:45-80 | the claims, the expiry told and the refresh row, field by field: eight hours and thirty days |
| Sessions.IssuedTokenLasts | api/internal/auth/token.go:65-73 | an issued refresh token passes the checks up to 30 days later, to the nanosecond, and not after |
| Sessions.ChecksDecide | api/internal/auth/token.go:90-99 | the token checks decide whether a refresh goes on or fails with the one generic error and no change |
| Sessions.RefreshOutcome | api/internal/auth/token.go:86-112 | success leaves one row for the user, the fresh one; failure leaves the table or removes exactly the user's rows; others keep theirs |
| Sessions.RefreshCase | api/internal/auth/token.go:86-112 | a refresh call by call: which failing call or check gives which error and leaves what; success leaves one fresh row for the user and grants the role of the user's row |
| Middleware.OnlyBearerHeadersCarryTokens | api/internal/middleware/auth.go:87-93 | a request carries a token if and only if something follows "Bearer ", and then exactly that |
| Middleware.AcceptedExactly | api/internal/middleware/auth.go:30-83 | accepted if and only if HMAC under the server's key with subject and role and no more than 60 seconds past the expiry; the identity is what is claimed |
| Middleware.MintedTokenLifetime | api/internal/middleware/auth.go:30-68 | a minted token is accepted until 60 seconds past the eighth hour of its whole second, and not after |
| Middleware.ExpirySentIsExpiryClaimed | api/internal/handler/oauth_handler.go:209 | expires_at, in whole seconds, is the exp claim and iat + 28800, for every sub-second mint time |
| Middleware.RefreshIsDue | cli/internal/credentials/credentials.go:89-96 | due if and only if the expiry cannot be read or is less than half an hour ahead |
| Middleware.NoRefreshNeededMeansAccepted | cli/internal/credentials/credentials.go:89-96 | NeedsRefresh is false if and only if the server accepts the token for the next 30 minutes and 60 seconds, for every clock offset |
| StateStores.StateStore.Generate | api/internal/auth/state_store.go:28-38 | stores the state, to expire five minutes later, or nothing if the random source failed |
| StateStores.StateStore.Validate | api/internal/auth/state_store.go:42-51 | removes the state whatever the outcome; true if it was there and in time |
| StateStores.ValidateTellsHistory | api/internal/auth/state_store.go:28-51 | true if and only if generated less than five minutes before, with no validation of any outcome since |
| StateStores.SingleUse | api/internal/auth/state_store.go:40-51 | after a validation the state is refused for good |
| StateStores.EntriesAreConserved | api/internal/auth/state_store.go:28-51 | stored entries plus entries removed equal states generated |
| TokenRuns.RevokeEffect | api/internal/repository/postgres/refresh_token_repository.go:50-54 | the token table after a revocation that may fail |
| TokenRuns.MarkEffect | api/internal/repository/postgres/refresh_token_repository.go:38-42 | the token table after a marking that may fail |
| TokenRuns.PurgeEffect | api/internal/repository/postgres/refresh_token_repository.go:56-60 | the token table after a purge that may fail |
| TokenRuns.AnswersAreKept | api/internal/auth/token.go:45-112 | the claims minted so far are exactly those of the tokens answered |
| Upkeep.CallTells | api/internal/repository/postgres/refresh_token_repository.go:38-60 | between whole requests: what a revocation, a marking, a purge and a soft delete leave, row by row |
| Upkeep.ActionTells | api/internal/repository/postgres/refresh_token_repository.go:38-60 | the same in the middle of any interleaving, where they move neither the clock nor a request |
| TokenRuns.RunTracks | api/internal/auth/token.go:45-122 | in every run of calls, rows stand for stored tokens with no later delete, and every one of those that has not expired has its row |
| TokenRuns.RefreshTellsHistory | api/internal/auth/token.go:86-112 | the checks pass if and only if the token was stored at most 2,592,000 seconds before, not marked used since, and no delete for its user came since |
| Revocation.RevocationHasABound | api/internal/auth/token.go:114-122 | after a revocation at T with no later login of the user, no refresh of theirs succeeds and from T + 8h + 60s on none of their tokens is accepted |
| Purging.StepSame | api/internal/auth/resolve_user.go:62-141 | a login step does not depend on the refresh tokens |
| Purging.RefreshSim | api/internal/auth/token.go:86-112 | a refresh cannot tell apart two tables that agree on unexpired rows |
| Purging.PurgesAreUnobservable | api/internal/repository/postgres/refresh_token_repository.go:56-60 | runs that differ in DeleteExpired calls only give the same answers, and the same answer to every later refresh |
| InterleavedPurging.InterleavedPurgesAreUnobservable | api/internal/repository/postgres/refresh_token_repository.go:56-60 | interleavings that differ in their purges only, wherever these fall between the steps of a refresh, agree on users, links and every request but for a refusal that comes one step earlier; the same refreshes succeed |
| InterleavedPurging.DoomedIsRefused | api/internal/auth/token.go:94-96 | a refresh that still holds an expired row is refused at its next step |
| InterleavedPurging.PurgeLeavesNothingExpired | api/internal/repository/postgres/refresh_token_repository.go:56-60 | right after a purge that reached the database, in any interleaving, no row is left that expired more than the given age ago, and all others are |
| Authority.NextFair | api/internal/auth/resolve_user.go:62-141 | every action of every interleaving keeps tables growing, tokens honest and rows explained |
| Authority.OnlyAdminsAreAdmitted | api/internal/middleware/auth.go:39-83 | whoever passes both checks is an admin in the table now, and was at the earlier moment, less than 8h + 60s ago, at which the token was signed |
| Authority.AcceptedTokensAreOurs | api/internal/middleware/auth.go:39-68 | for every role: what is accepted was handed out, signed for that user and role at an earlier moment less than 8h + 60s ago |
| Authority.DrawsTellHistory | api/internal/auth/token.go:45-60 | every refresh token drawn was drawn at a moment of the run, with the clock and the user's row as they were then |
| Authority.AdminsAreExplained | api/internal/auth/resolve_user.go:118-186 | an admin is the first row (fallback only) or the designated one; none, exactly one, never more than two |
| Isolation.TwoStepsAreTheTransaction | api/internal/auth/resolve_user.go:118-136 | settling the role and committing the rows, with nothing in between, is the transaction of case 3 |
| Isolation.FallbackAdminsExactly | api/internal/repository/postgres/transactor.go:20-33 | with the count read apart from the commit, the fallback makes admins of exactly the users whose logins read it before the first commit; two or more if and only if two such logins overlap |
| Isolation.TwoFallbackAdmins | api/internal/auth/resolve_user.go:174-183 | two overlapping first logins do become admins both |
| Authority.LinkOwnersAreFinal | api/internal/repository/postgres/oauth_account_repository.go:19-30 | whatever happens later, links stay with their owners, who exist, and emails are unique |
| Racing.RacingLoginsShareOneUser | api/internal/auth/resolve_user.go:67-141 | in every interleaving with any other logins: at most one row has the email, every login that reported it and succeeded was given that row, and once one is over for any reason but an unreachable database the row is there; identities that report this email report no other |
| Rotation.SuccessLookedUpBeforeFirstDelete | api/internal/auth/token.go:90-111 | a successful refresh looked its row up after it was stored and before the first later delete for its user |
| Rotation.SuccessesOverlap | api/internal/auth/token.go:90-111 | two successes with one token overlap in time |
| Honouring.HonouredExactly | api/internal/auth/token.go:86-112 | in every interleaving, a refresh that is over succeeded if and only if its lookup found a row, unused and not expired at its check, and none of its calls failed |
| Honouring.SuccessesAreBounded | api/internal/auth/token.go:90-111 | the successes of a token are exactly those of the calls with this token past their lookup at the first delete that are over, found it good and met no failure; never more than those calls |
| Honouring.AnyNumberIsHonoured | api/internal/auth/token.go:90-111 | from every state of every run in which a token is good, any number of new callers that look it up before the first of them deletes are all honoured, and the bound is met exactly |
| Grants.SessionsAreConserved | api/internal/handler/oauth_handler.go:50-103 | sessions map one to one to states generated less than five minutes before they were validated; never more sessions than states |
| Handlers.OAuthHandler.Begin | api/internal/handler/oauth_handler.go:34-46 | a fresh state is stored, or nothing |
| Handlers.OAuthHandler.Callback | api/internal/handler/oauth_handler.go:145-200 | the state is spent in any case; a bad state, a refusal and a missing email give their errors and change nothing, in this order; else resolution and issuing |
| Handlers.CallbackAlone | api/internal/handler/oauth_handler.go:50-103 | the interleaved machine's login, left alone, is the handler's |
| Handlers.RefreshAlone | api/internal/auth/token.go:86-112 | the interleaved machine's refresh, left alone, is RefreshSession |
| CallbackServer.FirstFreeIsLeast | cli/internal/callback/callback.go:37-54 | the port taken is the least free one up to 18099, none if all are busy |
| CallbackServer.Server.New | cli/internal/callback/callback.go:39-54 | the scan finds the least free port of 18000 to 18099 |
| CallbackServer.Channel.TrySend | cli/internal/callback/callback.go:107-110 | a send to a full channel is dropped and changes nothing |
| CallbackServer.Server.HandleCallback | cli/internal/callback/callback.go:95-121 | the result says what the query says, field by field, with an error if and only if the token is missing; it is offered to the channel, and the shutdown is asked for |
| CallbackServer.FirstSentIsFirstReceived | cli/internal/callback/callback.go:67-121 | the first value received is the first sent; if a handler sent first it says what the query of that callback said; once the timeout goroutine ends a result was delivered, the timeout error if and only if no callback came |
| CallbackServer.AskedWasAccepted | cli/internal/callback/callback.go:95-102 | every query a handler answers came with an accepted callback |
| CallbackServer.TimeoutEnds | cli/internal/callback/callback.go:78-86 | with no handler under way, the timeout goroutine ends once its context is done, receiver or not |
| CallbackServer.NoneAfterClosing | cli/internal/callback/callback.go:119-120 | after the shutdown a handler asked for, no callback is accepted any more |
| CallbackServer.KeptResultsStay | cli/internal/callback/callback.go:79-110 | no sender waits; at every later moment the n-th kept result is the n-th received or still waits in the slot |
| Metrics.Instruments.IncActive | api/internal/telemetry/metrics.go:55-63 | the series without status reads one more, every other series the same |
| Metrics.Instruments.RecordRequest | api/internal/telemetry/metrics.go:44-53 | the series with status reads one less, every other series the same, and the duration is recorded |
| Metrics.IsExcluded | api/internal/middleware/accesslog.go:25-32 | true if and only if some excluded path equals it up to the given case folding |
| Metrics.ExcludedExactly | api/internal/middleware/accesslog.go:13-32 | with no paths named, exactly the three health paths are excluded, up to folding; else exactly the named ones |
| Metrics.LastStatusStands | api/internal/middleware/responsewriter.go:13-20 | of any number of statuses the last is recorded |
| Metrics.NoStatusIsOk | api/internal/middleware/responsewriter.go:13-20 | 200 if none is written |
| Metrics.BytesAddUp | api/internal/middleware/responsewriter.go:22-26 | the bytes of two stretches of writes add up |
| Metrics.AccessLog | api/internal/middleware/accesslog.go:34-71 | one request alone, metrics or not: two series change by one, the total does not, and the log entry has the last status written and all bytes; nothing for an excluded path |
| Metrics.AloneIsAccessLog | api/internal/middleware/accesslog.go:35-60 | the interleaved machine's request, left alone, measures what the method does |
| Metrics.EndsAreCounted | api/internal/middleware/accesslog.go:48-60 | a panic takes a request out of flight and leaves the total, a finish takes one off both |
| Metrics.CounterTellsInFlight | api/internal/middleware/accesslog.go:35-60 | in every interleaving, started series = in flight + finished + panicked, and the total is the requests in flight if and only if none panicked |
| Metrics.ExcludedPathsAddNothing | api/internal/middleware/accesslog.go:36-39 | the counter is what it would be had requests for excluded paths never come |

## Left out

- HTTP responses, redirects, problem bodies, routing, the provider libraries and the parsing and signing of JWTs: only the order of the calls and the decision on claims are kept; signing is taken not to fail.
- Postgres itself: isolation below "a transaction body is one step", the state of a transaction after a failed statement, a commit whose outcome is unknown, and writes done by other programs.
- Surrogate ids of links and tokens, `session_id` with its foreign key, `email_verified`, `password_hash`, `created_at` and `updated_at`: no modelled decision reads them.
- The `sessions` table, `FindByUserID` and `DeleteBySessionID`: no modelled service calls them.
- Postgres.RefreshTokenRepo.MarkUsed: names the row by its unique hash, where the code uses the surrogate id.
- Postgres.PostgresTransactor.WithTransaction: a body stops with an error after `limit` statements, which stands for the deadline of its context, because a Dafny body cannot be shown to end otherwise; the theorems hold for every limit.
- Handlers.OAuthHandler.Callback: one method for both providers, whose handlers differ in nothing but logging and routes; the redirect and the JSON body are left out.
- Middleware.AcceptedExactly: the claims are the four the service writes; `nbf`, and an `exp` that is no number, which the JWT library refuses, occur in no token the service signs.
- Middleware.NoRefreshNeededMeansAccepted: the saturation of `time.Until` near 292 years is not modelled, and an expiry that does not parse is a parameter.
- Metrics.IsExcluded: which characters are case variants of each other is a parameter, as Unicode's tables are not modelled.
- Metrics.AccessLog: the route pattern the router matched is a parameter.
- Isolation.FallbackAdminsExactly: the insertion and the commit stay one step, as others see uncommitted rows at the commit only and the unique constraints settle who goes first.
- CallbackServer.Server.New: binding a port succeeds exactly if the port is not in a given set.
- `Start`'s ready channel and the accepting goroutine of the callback server: accepting is an action of the interleaving.
- Expired states are removed by a later validation only, so the store can grow; the count is stated, a bound is not, as the code has none.
- Migrations as programs, configuration, logging, health checks, providers of telemetry, credential files and the rest of the CLI: they hold no protocol.

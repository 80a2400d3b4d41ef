// Business types of the authentication service: api/internal/domain and the
// value types of api/internal/auth.
module Domain {

  // A moment, in nanoseconds since the Unix epoch.
  type Time = int

  const SECOND: int := 1_000_000_000
  const MINUTE: int := 60 * SECOND
  const HOUR: int := 60 * MINUTE
  const DAY: int := 24 * HOUR

  // Whole seconds since the epoch; sub-second digits are dropped.
  function Unix(t: Time): int {
    t / SECOND
  }

  datatype Option<+T> = None | Some(value: T) {
    function GetOr(default: T): T {
      if None? then default else value
    }
  }

  datatype Error =
    | Unavailable           // the database call itself failed
    | NotFound
    | Conflict              // unique or primary key violated
    | ForeignKey            // referenced user row is missing
    | NoEmail
    | NoEntropy             // the random source failed
    | InvalidRefreshToken
    | UserNotFound
    | BadState
    | ProviderRefused
    | Unauthorized

  datatype Result<+T> = Ok(value: T) | Err(error: Error) {
    predicate IsFailure() {
      Err?
    }

    function PropagateFailure<U>(): Result<U>
      requires Err?
    {
      Err(error)
    }

    function Extract(): T
      requires Ok?
    {
      value
    }
  }

  // gen_random_uuid() yields version 4 values, never the nil UUID.
  datatype Uuid = NilUuid | V4(n: nat)

  datatype UserRole = PlatformMember | PlatformAdmin

  datatype UserStatus = Active | Suspended | PendingVerification

  datatype User = User(
    id: Uuid,
    email: string,
    fullName: string,
    role: UserRole,
    status: UserStatus,
    deletedAt: Option<Time>)

  datatype LinkKey = LinkKey(provider: string, providerUid: string)

  datatype OAuthAccount = OAuthAccount(
    userId: Uuid,
    key: LinkKey,
    email: string,
    accessToken: Option<string>,
    refreshToken: Option<string>,
    tokenExpiry: Time)

  // SHA-256 is taken to be injective, so a hash is its preimage under a tag.
  datatype TokenHash = Sha256(raw: string)

  datatype RefreshToken = RefreshToken(
    userId: Uuid,
    tokenHash: TokenHash,
    expiresAt: Time,
    usedAt: Option<Time>)

  // What a provider reports about the person who has just signed in.
  datatype ProviderUser = ProviderUser(
    key: LinkKey,
    email: string,
    name: string,
    accessToken: string,
    refreshToken: string,
    tokenExpiry: Time)

  // How a repository lookup reports a missing row next to ErrNotFound.
  datatype MissConvention =
    | NilOnMiss         // nil record, as the resolver's nil tests expect
    | RecordOnMiss      // non-nil zero record, as the Postgres repositories return

  datatype BootstrapConfig = BootstrapConfig(adminEmail: string, devFallback: bool)

  lemma {:induction false} SmallerSet<T>(a: set<T>, b: set<T>)
    requires a <= b
    ensures |a| <= |b|
  {
    if a != {} {
      var x :| x in a;
      SmallerSet(a - {x}, b - {x});
    }
  }
}

// The acceptance decision for bearer tokens, and the client's own view of expiry.
module Middleware {
  import opened Domain
  import opened Sessions

  const CLOCK_SKEW: int := 60 * SECOND

  datatype Authorization = NoBearer | Bearer(token: Jwt)

  datatype Identity = Identity(userId: Uuid, role: UserRole)

  const BEARER := "Bearer "

  // What follows the Bearer scheme in an Authorization header, "" if nothing does.
  function BearerToken(header: string): string {
    if BEARER <= header then header[|BEARER|..] else ""
  }

  // A request's authorization, for any parser of compact tokens.
  function Authorize(header: string, parse: string -> Jwt): Authorization {
    var raw := BearerToken(header);
    if raw == "" then NoBearer else Bearer(parse(raw))
  }

  // A request carries a token exactly if something follows the scheme, and then
  // that is the token.
  lemma OnlyBearerHeadersCarryTokens(header: string, raw: string, parse: string -> Jwt)
    ensures Authorize(header, parse).Bearer? <==> "Bearer " < header
    ensures raw != "" ==> Authorize("Bearer " + raw, parse) == Bearer(parse(raw))
  {
    assert (BEARER + raw)[|BEARER|..] == raw;
  }

  // The exp claim as section 4.1.4 of RFC 7519 reads it, with leeway; a token
  // without exp does not expire.
  predicate Unexpired(claims: Claims, now: Time) {
    claims.exp.Some? ==> now < claims.exp.value * SECOND + CLOCK_SKEW
  }

  function AuthRequired(secret: string, header: Authorization, now: Time): Result<Identity> {
    if header.NoBearer? || header.token.Malformed? then Err(Unauthorized)
    else
      var token := header.token;
      if !token.hmac || token.key != secret || !Unexpired(token.claims, now) then Err(Unauthorized)
      else if token.claims.sub.None? || token.claims.role.None? then Err(Unauthorized)
      else Ok(Identity(token.claims.sub.value, token.claims.role.value))
  }

  predicate RequireRole(role: UserRole, id: Result<Identity>) {
    id.Ok? && id.value.role == role
  }

  // What is let in, exactly: an HMAC token under the server's own key, whatever it
  // claims, with a subject and a role, no more than 60 seconds past its expiry if it
  // has one. The identity is what it claims.
  lemma {:induction false} AcceptedExactly(secret: string, header: Authorization, t: Time)
    ensures var id := AuthRequired(secret, header, t);
      && (id.Ok? <==>
            && header.Bearer? && header.token.Jwt? && header.token.hmac && header.token.key == secret
            && header.token.claims.sub.Some? && header.token.claims.role.Some?
            && (header.token.claims.exp.Some? ==>
                  t < header.token.claims.exp.value * 1_000_000_000 + 60_000_000_000))
      && (id.Ok? ==>
            header.token.claims.sub == Some(id.value.userId) && header.token.claims.role == Some(id.value.role))
      && (id.Err? ==> id.error == Unauthorized)
      && (forall role :: RequireRole(role, id) <==> id.Ok? && id.value.role == role)
  {
  }

  // A token minted at m is accepted until one skew past the eighth hour, counted
  // from the whole second of m; this never exceeds m + 8h + 60s.
  lemma MintedTokenLifetime(secret: string, userId: Uuid, role: UserRole, m: Time, t: Time)
    ensures var id := AuthRequired(secret, Bearer(Jwt(true, secret, MintClaims(userId, role, m))), t);
      && (id.Ok? <==> t < (Unix(m) + 28_860) * 1_000_000_000)
      && (id.Ok? ==> id.value == Identity(userId, role) && t < m + 28_860_000_000_000)
      && (t <= m + 28_859_000_000_000 ==> id.Ok?)
  {
    WholeSeconds(m);
  }

  // Adding whole hours does not move the sub-second digits.
  lemma WholeSeconds(m: Time)
    ensures Unix(m + JWT_TTL) == Unix(m) + 28_800
    ensures m - 1_000_000_000 < Unix(m) * 1_000_000_000 <= m
  {
    assert JWT_TTL == 28800 * SECOND;
  }

  // expires_at as the handlers send it, in whole seconds, Z for UTC.
  function FormatExpiry(expiresAt: Time): int {
    Unix(expiresAt)
  }

  // NeedsRefresh in the CLI; None is an expiry that does not parse.
  predicate NeedsRefresh(expiresAt: Option<int>, now: Time) {
    expiresAt.None? || expiresAt.value * SECOND - now < 30 * MINUTE
  }

  // The client asks for a new token from half an hour before the expiry on, and
  // always if it cannot read the expiry.
  lemma RefreshIsDue(expiresAt: Option<int>, now: Time)
    ensures NeedsRefresh(expiresAt, now) <==>
      expiresAt.None? || expiresAt.value * 1_000_000_000 < now + 1_800_000_000_000
  {
  }

  // What the client is told is what the token says.
  lemma ExpirySentIsExpiryClaimed(secret: string, userId: Uuid, role: UserRole, m: Time, raw: string)
    ensures var resp := Response(secret, userId, role, m, raw);
      && resp.token.claims.exp == Some(FormatExpiry(resp.expiresAt))
      && resp.token.claims.iat == Some(Unix(m))
      && FormatExpiry(resp.expiresAt) == Unix(m) + 28800
      && resp.token.claims.sub == Some(userId) && resp.token.claims.role == Some(resp.role)
      && resp.role == role && resp.refreshToken == raw
  {
    WholeSeconds(m);
  }

  // For a client whose clock runs offset ahead of the server's: it sees no need to
  // refresh at server time s exactly when the server accepts the token for the
  // next 30 minutes and 60 seconds of the client's clock.
  lemma NoRefreshNeededMeansAccepted(secret: string, userId: Uuid, role: UserRole, m: Time, raw: string, s: Time,
                                     offset: int)
    ensures var resp := Response(secret, userId, role, m, raw);
      !NeedsRefresh(Some(FormatExpiry(resp.expiresAt)), s + offset) <==>
      forall t {:trigger AuthRequired(secret, Bearer(resp.token), t)} ::
        t < s + offset + 1_860_000_000_000 ==>
          AuthRequired(secret, Bearer(resp.token), t) == Ok(Identity(userId, role))
  {
    WholeSeconds(m);
    var resp := Response(secret, userId, role, m, raw);
    var rejected := FormatExpiry(resp.expiresAt) * SECOND + CLOCK_SKEW;
    assert AuthRequired(secret, Bearer(resp.token), rejected).Err?;
  }
}

/** Session tokens of jwt/token.go: the claim set, issuance and the ordered validation checks.
    The HS256 signature is an uninterpreted keyed MAC: a token is `Signed(claims, tag)` and it
    is authentic exactly when `tag == key.mac(claims)`. */
module Jwt {
  import opened Wrappers
  import opened ApiErrors
  import opened Types

  /** `time.Hour`, in the seconds of the Unix clock the claims carry. */
  const TokenLifetime: int := 3600

  /** `expiration` is the Unix time in seconds after which the token is refused. */
  datatype AuthClaims = AuthClaims(ipAddress: string, oomphKey: string, admin: bool, expiration: int)

  type Tag = string

  /** The process-wide signing secret, seen only through what it does: the keyed MAC it
      computes over a claim set, and whether the signing library accepts it at all. */
  datatype SecretKey = SecretKey(mac: AuthClaims -> Tag, usable: bool)

  /** What a client can present: a well-formed signed token, or a string that does not decode
      into one (`reason` is the library's error text). */
  datatype Token = Signed(claims: AuthClaims, tag: Tag) | Garbled(reason: string)

  /** What the parsing library hands back to `ValidateAuthToken`. */
  datatype ParseOutcome =
    | SigInvalid
    | IsOldJWTError
    | OtherParseError(detail: string)
    | Parsed(claims: AuthClaims)

  /** The text of the library's signature error, and of its error for an unusable key. */
  const SignatureInvalidText: string := "signature is invalid"
  const KeyInvalidTypeText: string := "key is of invalid type"

  /** The text of the fresh error `AuthClaims.Valid` returns. */
  const OldVersionText: string := "old version "

  const OldJWTError: APIError := New(UserFault, "old JWT version", None)
  const ExpiredError: APIError := New(UserFault, "authentication token expired", None)
  const ReplayError: APIError := New(UserFaultNeedsLog, "detected token replay", None)

  function ForgedError(): (e: APIError)
    ensures e.kind == UserFaultNeedsLog && e.message == "invalid JWT token"
  {
    New(UserFaultNeedsLog, "invalid JWT token", Some(SignatureInvalidText))
  }

  function UnverifiableError(detail: string): (e: APIError)
    ensures e.kind == ServerFault && e.message == "server unable to validate token" && e.cause == Some(detail)
  {
    New(ServerFault, "server unable to validate token", Some(detail))
  }

  /** `AuthClaims.Valid`: a claim set is complete unless its address or key is empty or its
      expiration is zero. */
  function Valid(c: AuthClaims): (err: Option<string>)
    ensures err.Some? <==> (c.ipAddress == "" || c.oomphKey == "" || c.expiration == 0)
    ensures err.Some? ==> err.value == OldVersionText
  {
    if c.ipAddress == "" || c.oomphKey == "" || c.expiration == 0 then Some(OldVersionText) else None
  }

  /** The claim set `NewAuthToken` builds for a looked-up record and a caller address at `now`. */
  function IssuedClaims(dat: DBAuthData, addr: string, now: int): (c: AuthClaims)
    ensures c.ipAddress == addr && c.oomphKey == dat.key && c.admin == dat.admin
    ensures c.expiration - now == TokenLifetime
    // the claims pass `AuthClaims.Valid` exactly when the address and key are present and the
    // expiry does not land on zero
    ensures Valid(c).None? <==> addr != "" && dat.key != "" && now != -TokenLifetime
  {
    AuthClaims(addr, dat.key, dat.admin, now + TokenLifetime)
  }

  /** `NewAuthToken`: sign the caller's address, the record's key and admin flag and an expiry
      one hour ahead; signing fails only when the library refuses the key. */
  function NewAuthToken(key: SecretKey, dat: DBAuthData, addr: string, now: int): (r: Result<Token, string>)
    ensures r.Ok? <==> key.usable
    ensures r.Ok? ==> r.value.Signed? && r.value.tag == key.mac(r.value.claims)
    ensures r.Ok? ==> r.value.claims.ipAddress == addr && r.value.claims.oomphKey == dat.key
                      && r.value.claims.admin == dat.admin && r.value.claims.expiration == now + 3600
    ensures r.Err? ==> r.error == KeyInvalidTypeText
  {
    if !key.usable then Err(KeyInvalidTypeText)
    else
      var claims := IssuedClaims(dat, addr, now);
      Ok(Signed(claims, key.mac(claims)))
  }

  /** The library's `ParseWithClaims` as `ValidateAuthToken` sees it. An unusable key or an
      undecodable string is an ordinary failure; a wrong tag is the signature error, which takes
      precedence over incomplete claims; incomplete claims surface as the library's wrapper
      around `Valid`'s fresh error, which is never the value `OldJWTError`. */
  function Parse(key: SecretKey, token: Token): (out: ParseOutcome)
    ensures !out.IsOldJWTError?
    ensures out.SigInvalid? <==> key.usable && token.Signed? && token.tag != key.mac(token.claims)
    ensures out.Parsed? <==> key.usable && token.Signed? && token.tag == key.mac(token.claims) && Valid(token.claims).None?
    ensures out.Parsed? ==> out.claims == token.claims
  {
    match token
    case Garbled(reason) => OtherParseError(reason)
    case Signed(claims, tag) =>
      if !key.usable then OtherParseError(KeyInvalidTypeText)
      else if tag != key.mac(claims) then SigInvalid
      else if Valid(claims).Some? then OtherParseError(Valid(claims).value)
      else Parsed(claims)
  }

  /** The checks of `ValidateAuthToken` after parsing, in their order: parse failure, then
      expiry, then the address binding. */
  function ClassifyParse(out: ParseOutcome, ipAddr: string, now: int): (r: Result<AuthClaims, APIError>)
    ensures r.Ok? <==> out.Parsed? && out.claims.expiration > now && out.claims.ipAddress == ipAddr
    ensures r.Ok? ==> r.value == out.claims
    ensures out.SigInvalid? ==> r == Err(ForgedError())
    ensures out.IsOldJWTError? ==> r == Err(OldJWTError)
    ensures out.OtherParseError? ==> r == Err(UnverifiableError(out.detail))
    ensures out.Parsed? && out.claims.expiration <= now ==> r == Err(ExpiredError)
    ensures out.Parsed? && out.claims.expiration > now && out.claims.ipAddress != ipAddr ==> r == Err(ReplayError)
  {
    match out
    case SigInvalid => Err(ForgedError())
    case IsOldJWTError => Err(OldJWTError)
    case OtherParseError(detail) => Err(UnverifiableError(detail))
    case Parsed(claims) =>
      if claims.expiration <= now then Err(ExpiredError)
      else if claims.ipAddress != ipAddr then Err(ReplayError)
      else Ok(claims)
  }

  /** `ValidateAuthToken`: claims come back only for an authentic, complete, unexpired token
      presented from the address it is bound to, and then they are exactly the signed ones. */
  function ValidateAuthToken(key: SecretKey, token: Token, ipAddr: string, now: int): (r: Result<AuthClaims, APIError>)
    ensures r.Ok? <==> key.usable && token.Signed? && token.tag == key.mac(token.claims)
                       && Valid(token.claims).None? && token.claims.expiration > now
                       && token.claims.ipAddress == ipAddr
    ensures r.Ok? ==> token == Signed(r.value, key.mac(r.value))
  {
    ClassifyParse(Parse(key, token), ipAddr, now)
  }

  // ---- properties of issue and validate together ----

  /** Token round trip: a token issued for (record, address) at `issuedAt` and presented from
      the same address before the hour is up yields the claims it was issued with. */
  lemma IssuedTokenValidates(key: SecretKey, dat: DBAuthData, addr: string, issuedAt: int, now: int)
    requires key.usable && dat.key != "" && addr != ""
    requires issuedAt + TokenLifetime != 0
    requires now < issuedAt + TokenLifetime
    ensures var r := ValidateAuthToken(key, NewAuthToken(key, dat, addr, issuedAt).value, addr, now);
      r.Ok? && r.value.oomphKey == dat.key && r.value.admin == dat.admin && r.value.ipAddress == addr
  {
  }

  /** A token is accepted only while its expiration lies ahead: from `issuedAt + 3600` on it is
      refused as expired, from whatever address it is presented. Expiry is checked first, so an
      expired token never draws the replay error. */
  lemma ExpiredBeforeReplay(key: SecretKey, dat: DBAuthData, addr: string, issuedAt: int, presentedFrom: string, now: int)
    requires key.usable && dat.key != "" && addr != ""
    requires issuedAt + TokenLifetime != 0
    requires now >= issuedAt + TokenLifetime
    ensures ValidateAuthToken(key, NewAuthToken(key, dat, addr, issuedAt).value, presentedFrom, now) == Err(ExpiredError)
  {
  }

  /** Replay rejection: an unexpired token presented from another address is refused as a
      replay, and that error is one that is logged. */
  lemma ReplayRejected(key: SecretKey, dat: DBAuthData, addr: string, issuedAt: int, otherAddr: string, now: int)
    requires key.usable && dat.key != "" && addr != ""
    requires issuedAt + TokenLifetime != 0
    requires now < issuedAt + TokenLifetime && otherAddr != addr
    ensures ValidateAuthToken(key, NewAuthToken(key, dat, addr, issuedAt).value, otherAddr, now) == Err(ReplayError)
    ensures ReplayError.kind == UserFaultNeedsLog
  {
  }

  /** Claims with a tag the key did not produce are refused as forged whatever they say, so a
      client cannot raise its own admin flag or move its expiry. */
  lemma ForgedRejected(key: SecretKey, claims: AuthClaims, tag: Tag, ipAddr: string, now: int)
    requires key.usable && tag != key.mac(claims)
    ensures ValidateAuthToken(key, Signed(claims, tag), ipAddr, now) == Err(ForgedError())
  {
  }

  /** A correctly signed but incomplete claim set reaches the catch-all branch and is refused
      as a server fault: the library returns its wrapper around `Valid`'s fresh error, so the
      comparison with `OldJWTError` never holds and the user-fault branch is not taken. */
  lemma IncompleteClaimsAreServerFault(key: SecretKey, claims: AuthClaims, ipAddr: string, now: int)
    requires key.usable && Valid(claims).Some?
    ensures ValidateAuthToken(key, Signed(claims, key.mac(claims)), ipAddr, now) == Err(UnverifiableError(OldVersionText))
  {
  }

  /** Consequently a token issued for a record with an empty key, or to a caller with no
      address, can never be used. */
  lemma EmptyKeyTokenUnusable(key: SecretKey, dat: DBAuthData, addr: string, issuedAt: int, ipAddr: string, now: int)
    requires key.usable && (dat.key == "" || addr == "")
    ensures ValidateAuthToken(key, NewAuthToken(key, dat, addr, issuedAt).value, ipAddr, now).Err?
  {
  }
}

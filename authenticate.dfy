/** The handlers of endpoint/authenticate.go: `Authenticate` hands out session tokens for
    authentication keys, `VerifySession` checks one. */
module AuthEndpoints {
  import opened Wrappers
  import opened ApiErrors
  import opened Types
  import opened Jwt
  import opened Logging
  import opened Store
  import opened Http

  const PathAuthenticate: string := "/auth/login"
  const PathVerifySession: string := "/auth/verify"

  const UnreadableBodyError: string := "failed to read content of HTTP request body"
  const NonJsonWarning: string := "sent non-json request"
  const IPNotAllowedMessage: string :=
    "IP address not allowed to use this authentication key - this incident has been reported"
  const TokenCreationMessage: string := "cannot create JWT token"

  /** The caller of `Authenticate` passes every check up to the token: a POST with a JSON body
      that decodes, whose key the lookup finds, presented from an address on the key's list. */
  predicate Admissible(req: Request<AuthRequest>, db: Backend, now: int)
    requires Consistent(db)
  {
    && req.verb == MethodPost && req.contentType == ContentTypeJson && req.body.Decoded?
    && Lookup(db, req.body.payload.key, now).1.None?
    && req.clientIP in Lookup(db, req.body.payload.key, now).0.ipList
  }

  /** The clock reading at jwt/token.go:42: the time the lookup submitted at `now` returned,
      plus the `pause` before the token is made. */
  function IssueTime(db: Backend, now: int, pause: nat): (t: int)
    ensures t >= LookupReturnedAt(db, now) && t >= now
  {
    LookupReturnedAt(db, now) + pause
  }

  /** `Authenticate`: the lookup is submitted at `now` and the token is made `pause` seconds
      after the lookup returned; signing with `key`. */
  method Authenticate(req: Request<AuthRequest>, db: Backend, key: SecretKey, now: int, pause: nat) returns (out: Outcome)
    requires Consistent(db)
    // a request that is not a POST gets 405 and nothing else happens
    ensures req.verb != MethodPost ==> out == Outcome(Response(Some(StatusMethodNotAllowed), None), [], [], false)
    // a POST without a JSON content type gets 400 and its body is not read
    ensures req.verb == MethodPost && req.contentType != ContentTypeJson ==>
      out == Outcome(Response(Some(StatusBadRequest), None), [], [], false)
    // an unreadable body is a server fault: 500, logged and reported
    ensures req.verb == MethodPost && req.contentType == ContentTypeJson && req.body.Unreadable? ==>
      out == Outcome(Response(Some(StatusInternalServerError), None),
                     EndpointError(req.clientIP, New(ServerFault, UnreadableBodyError, Some(req.body.cause)), PathAuthenticate),
                     [], true)
    // a body that is not the expected JSON gets 400 and a warning
    ensures req.verb == MethodPost && req.contentType == ContentTypeJson && req.body.Malformed? ==>
      out == Outcome(Response(Some(StatusBadRequest), None),
                     EndpointWarning(req.clientIP, PathAuthenticate, NonJsonWarning), [], true)
    // a failed lookup answers with that error's status and message, and goes to the log policy
    ensures req.verb == MethodPost && req.contentType == ContentTypeJson && req.body.Decoded? ==>
      var lookup := Lookup(db, req.body.payload.key, now);
      lookup.1.Some? ==>
        out == Outcome(ErrorReply(lookup.1.value), EndpointError(req.clientIP, lookup.1.value, PathAuthenticate), [], true)
    // an address not on the key's list is refused with 401, logged but not reported
    ensures req.verb == MethodPost && req.contentType == ContentTypeJson && req.body.Decoded? ==>
      var lookup := Lookup(db, req.body.payload.key, now);
      lookup.1.None? && req.clientIP !in lookup.0.ipList ==>
        && out.response == Response(Some(StatusUnauthorized), Some(ErrorBody(ErrorResponse(IPNotAllowedMessage))))
        && out.effects == EndpointError(req.clientIP, New(UserFaultNeedsLog, IPNotAllowedMessage, None), PathAuthenticate)
    // a key the signer refuses is a server fault
    ensures Admissible(req, db, now) && !key.usable ==>
      out == Outcome(ErrorReply(New(ServerFault, TokenCreationMessage, Some(KeyInvalidTypeText))),
                     EndpointError(req.clientIP, New(ServerFault, TokenCreationMessage, Some(KeyInvalidTypeText)), PathAuthenticate),
                     [], true)
    // a token is issued exactly when every check passes, and it carries the record's claims
    ensures out.response.status == Some(StatusOK) <==> Admissible(req, db, now) && key.usable
    ensures out.response.status == Some(StatusOK) ==>
      var claims := IssuedClaims(Lookup(db, req.body.payload.key, now).0, req.clientIP, IssueTime(db, now, pause));
      && out.effects == []
      && out.response.body == Some(TokenBody(Signed(claims, key.mac(claims))))
    // the token is made after the lookup's result arrived, so it expires an hour after that
    ensures out.response.status == Some(StatusOK) ==>
      && LookupInTime(db)
      && out.response.body.value.token.claims.expiration >= now + db.authJob.readyDelay.value + TokenLifetime
    // the handler never sends a statement to the store itself
    ensures out.queries == []
  {
    var ip := req.clientIP;
    if req.verb != MethodPost {
      return Outcome(Response(Some(StatusMethodNotAllowed), None), [], [], false);
    }
    if req.contentType != ContentTypeJson {
      return Outcome(Response(Some(StatusBadRequest), None), [], [], false);
    }
    if req.body.Unreadable? {
      var err := New(ServerFault, UnreadableBodyError, Some(req.body.cause));
      return Outcome(Response(Some(StatusInternalServerError), None), EndpointError(ip, err, PathAuthenticate), [], true);
    }
    if req.body.Malformed? {
      return Outcome(Response(Some(StatusBadRequest), None), EndpointWarning(ip, PathAuthenticate, NonJsonWarning), [], true);
    }
    var request := req.body.payload;
    var lookup := Lookup(db, request.key, now);
    var res := lookup.0;
    if lookup.1.Some? {
      var err := lookup.1.value;
      return Outcome(ErrorReply(err), EndpointError(ip, err, PathAuthenticate), [], true);
    }
    if ip !in res.ipList {
      var err := New(UserFaultNeedsLog, IPNotAllowedMessage, None);
      return Outcome(ErrorReply(err), EndpointError(ip, err, PathAuthenticate), [], true);
    }
    var token := NewAuthToken(key, res, ip, IssueTime(db, now, pause));
    if token.Err? {
      var err := New(ServerFault, TokenCreationMessage, Some(token.error));
      return Outcome(ErrorReply(err), EndpointError(ip, err, PathAuthenticate), [], true);
    }
    out := Outcome(Response(Some(StatusOK), Some(TokenBody(token.value))), [], [], true);
  }

  /** `VerifySession` at time `now`: it only ever writes a status. */
  method VerifySession(req: Request<AuthRequest>, key: SecretKey, now: int) returns (out: Outcome)
    ensures out.response.body.None? && out.queries == [] && !out.bodyRead
    ensures req.verb != MethodPost ==> out.response.status == Some(StatusMethodNotAllowed) && out.effects == []
    ensures req.verb == MethodPost && req.authToken.None? ==>
      out.response.status == Some(StatusUnauthorized) && out.effects == []
    ensures req.verb == MethodPost && req.authToken.Some? ==>
      var r := ValidateAuthToken(key, req.authToken.value, req.clientIP, now);
      && (r.Err? ==> out.response.status == Some(StatusCode(r.error))
                     && out.effects == EndpointError(req.clientIP, r.error, PathVerifySession))
      && (r.Ok? ==> out.response.status == Some(StatusOK) && out.effects == [])
    ensures out.response.status == Some(StatusOK) <==>
      req.verb == MethodPost && req.authToken.Some? && ValidateAuthToken(key, req.authToken.value, req.clientIP, now).Ok?
  {
    if req.verb != MethodPost {
      return Outcome(Response(Some(StatusMethodNotAllowed), None), [], [], false);
    }
    if req.authToken.None? {
      return Outcome(Response(Some(StatusUnauthorized), None), [], [], false);
    }
    var r := ValidateAuthToken(key, req.authToken.value, req.clientIP, now);
    if r.Err? {
      return Outcome(Response(Some(StatusCode(r.error)), None), EndpointError(req.clientIP, r.error, PathVerifySession), [], false);
    }
    out := Outcome(Response(Some(StatusOK), None), [], [], false);
  }

  /** Login then verify: the token `Authenticate` hands out is accepted by `VerifySession` from
      the same address at any time before the hour since its issue is up, provided the record
      has a key, the address is not empty and the expiry is not the zero time (otherwise the
      claims are incomplete and the token is refused). */
  method LoginThenVerify(req: Request<AuthRequest>, db: Backend, key: SecretKey, submittedAt: int, pause: nat, later: int)
    returns (login: Outcome, verify: Outcome)
    requires Consistent(db) && Admissible(req, db, submittedAt) && key.usable
    requires Lookup(db, req.body.payload.key, submittedAt).0.key != "" && req.clientIP != ""
    requires IssueTime(db, submittedAt, pause) + TokenLifetime != 0
    requires IssueTime(db, submittedAt, pause) <= later < IssueTime(db, submittedAt, pause) + TokenLifetime
    ensures login.response.status == Some(StatusOK) && login.response.body.Some? && login.response.body.value.TokenBody?
    ensures verify.response.status == Some(StatusOK) && verify.effects == []
  {
    login := Authenticate(req, db, key, submittedAt, pause);
    var token := login.response.body.value.token;
    IssuedTokenValidates(key, Lookup(db, req.body.payload.key, submittedAt).0, req.clientIP, IssueTime(db, submittedAt, pause), later);
    verify := VerifySession(Request(MethodPost, req.contentType, Some(token), req.clientIP, req.body), key, later);
  }

  /** An empty address list refuses every caller with 401, whatever else holds. */
  lemma EmptyAllowListRejects(req: Request<AuthRequest>, db: Backend, now: int)
    requires Consistent(db) && req.body.Decoded? && Lookup(db, req.body.payload.key, now).0.ipList == []
    ensures !Admissible(req, db, now)
  {
  }
}

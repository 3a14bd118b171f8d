/** The handlers of endpoint/binaries.go: `DownloadProxy` serves the proxy binary to holders of a
    session token, `UploadProxy` lets an admin replace it and revokes the key of anyone else who
    tries. */
module BinaryEndpoints {
  import opened Wrappers
  import opened ApiErrors
  import opened Types
  import opened Jwt
  import opened Logging
  import opened Store
  import opened Http
  import opened AuthEndpoints

  const PathDownloadProxy: string := "/binary/download"
  const PathUploadProxy: string := "/binary/upload"

  const StatementRevokeKey: string := "DELETE oomphAuth WHERE key=$key;"

  /** The message of the revocation answer. Its definition is not part of this model; the value
      here is a stand-in and nothing proved depends on it. */
  const KeyInvalidatedMessage: string := "authentication key invalidated"

  /** The revocation of a key: the map cleared and then given only the key. */
  function RevokeQuery(key: string): (q: Query)
    ensures q.statement == StatementRevokeKey && q.params.Keys == {"key"} && q.params["key"] == key
  {
    Query(StatementRevokeKey, map[]["key" := key])
  }

  /** A download request that passes the method, token and body checks. */
  predicate DownloadAdmissible(req: Request<ProxyDownloadRequest>, key: SecretKey, now: int) {
    && req.verb == MethodPost && req.authToken.Some?
    && ValidateAuthToken(key, req.authToken.value, req.clientIP, now).Ok?
    && req.body.Decoded?
  }

  /** `DownloadProxy` at time `now`. */
  method DownloadProxy(req: Request<ProxyDownloadRequest>, db: Backend, key: SecretKey, now: int) returns (out: Outcome)
    requires Consistent(db)
    ensures req.verb != MethodPost ==> out == Outcome(Response(Some(StatusMethodNotAllowed), None), [], [], false)
    // a missing token is 401 with a message, not logged
    ensures req.verb == MethodPost && req.authToken.None? ==>
      out == Outcome(Response(Some(StatusUnauthorized), Some(ErrorBody(ErrorResponse(HeaderAuthToken + " missing from header")))),
                     [], [], false)
    // a token that does not validate answers with the validation error, which goes to the log policy
    ensures req.verb == MethodPost && req.authToken.Some? ==>
      var r := ValidateAuthToken(key, req.authToken.value, req.clientIP, now);
      r.Err? ==> out == Outcome(ErrorReply(r.error), EndpointError(req.clientIP, r.error, PathDownloadProxy), [], false)
    ensures req.verb == MethodPost && req.authToken.Some?
            && ValidateAuthToken(key, req.authToken.value, req.clientIP, now).Ok? && req.body.Unreadable? ==>
      out == Outcome(Response(Some(StatusInternalServerError), Some(ErrorBody(ErrorResponse("unable to read request body")))),
                     EndpointError(req.clientIP, New(ServerFault, "failed to decode JSON response", Some(req.body.cause)), PathDownloadProxy),
                     [], true)
    // bad JSON is logged, and nothing is written: the client sees an empty 200
    ensures req.verb == MethodPost && req.authToken.Some?
            && ValidateAuthToken(key, req.authToken.value, req.clientIP, now).Ok? && req.body.Malformed? ==>
      && out.response == Response(None, None) && WireStatus(out.response) == StatusOK
      && out.effects == EndpointError(req.clientIP, New(UserFaultNeedsLog, "sent invalid JSON request", Some(req.body.cause)), PathDownloadProxy)
      && out.queries == []
    // past the checks the handler sends exactly the binary query for the requested selectors
    ensures DownloadAdmissible(req, key, now) ==>
      var p := req.body.payload;
      var found := SearchForBinary(p.os, p.arch, p.branch, db.binaries(BinaryQuery(p.os, p.arch, p.branch)));
      && out.queries == [BinaryQuery(p.os, p.arch, p.branch)] && out.bodyRead
      // a failed search is logged, and nothing is written
      && (found.1.Some? ==> out.response == Response(None, None) && out.effects == EndpointError(req.clientIP, found.1.value, PathDownloadProxy))
      // otherwise 200 with the binary data
      && (found.1.None? ==> out.response == Response(Some(StatusOK), Some(BinaryBody(ProxyDownloadResponse(found.0)))) && out.effects == [])
    // the binary data is sent only to a valid token's holder whose request decoded
    ensures out.response.body.Some? && out.response.body.value.BinaryBody? ==> DownloadAdmissible(req, key, now)
  {
    var ip := req.clientIP;
    if req.verb != MethodPost {
      return Outcome(Response(Some(StatusMethodNotAllowed), None), [], [], false);
    }
    if req.authToken.None? {
      var body := NewErrorResponse(HeaderAuthToken + " missing from header");
      return Outcome(Response(Some(StatusUnauthorized), Some(ErrorBody(body))), [], [], false);
    }
    var r := ValidateAuthToken(key, req.authToken.value, ip, now);
    if r.Err? {
      return Outcome(ErrorReply(r.error), EndpointError(ip, r.error, PathDownloadProxy), [], false);
    }
    if req.body.Unreadable? {
      var err := New(ServerFault, "failed to decode JSON response", Some(req.body.cause));
      var body := ErrorResponse("unable to read request body");
      return Outcome(Response(Some(StatusInternalServerError), Some(ErrorBody(body))), EndpointError(ip, err, PathDownloadProxy), [], true);
    }
    if req.body.Malformed? {
      var err := New(UserFaultNeedsLog, "sent invalid JSON request", Some(req.body.cause));
      return Outcome(Response(None, None), EndpointError(ip, err, PathDownloadProxy), [], true);
    }
    var p := req.body.payload;
    var query := BinaryQuery(p.os, p.arch, p.branch);
    var found := SearchForBinary(p.os, p.arch, p.branch, db.binaries(query));
    if found.1.Some? {
      return Outcome(Response(None, None), EndpointError(ip, found.1.value, PathDownloadProxy), [query], true);
    }
    out := Outcome(Response(Some(StatusOK), Some(BinaryBody(ProxyDownloadResponse(found.0)))), [], [query], true);
  }

  /** `UploadProxy` at time `now`. */
  method UploadProxy(req: Request<ProxyUploadRequest>, key: SecretKey, now: int) returns (out: Outcome)
    ensures req.verb != MethodPost ==> out == Outcome(Response(Some(StatusMethodNotAllowed), None), [], [], false)
    // a missing token is 403 here, where the download answers 401
    ensures req.verb == MethodPost && req.authToken.None? ==>
      out == Outcome(Response(Some(StatusForbidden), Some(ErrorBody(ErrorResponse("missing " + HeaderAuthToken + " from header")))),
                     [], [], false)
    // a token that does not validate answers with the validation error and is not logged
    ensures req.verb == MethodPost && req.authToken.Some? ==>
      var r := ValidateAuthToken(key, req.authToken.value, req.clientIP, now);
      r.Err? ==> out == Outcome(ErrorReply(r.error), [], [], false)
    // a valid token without the admin flag: exactly one DELETE of the claims' key, 418, and the
    // body is never read
    ensures req.verb == MethodPost && req.authToken.Some? ==>
      var r := ValidateAuthToken(key, req.authToken.value, req.clientIP, now);
      r.Ok? && !r.value.admin ==>
        out == Outcome(Response(Some(StatusTeapot), Some(ErrorBody(ErrorResponse(KeyInvalidatedMessage)))),
                       [], [RevokeQuery(r.value.oomphKey)], false)
    // the admin path: unreadable body 500, bad JSON 400, otherwise the (never failing) update and 200
    ensures req.verb == MethodPost && req.authToken.Some? ==>
      var r := ValidateAuthToken(key, req.authToken.value, req.clientIP, now);
      r.Ok? && r.value.admin ==>
        && out.queries == [] && out.bodyRead
        && (req.body.Unreadable? ==>
              out.response == Response(Some(StatusInternalServerError), Some(ErrorBody(ErrorResponse("failed to read request data"))))
              && out.effects == EndpointError(req.clientIP, New(ServerFault, "failed to read body of HTTP request", Some(req.body.cause)), PathUploadProxy))
        && (req.body.Malformed? ==>
              out.response == Response(Some(StatusBadRequest), Some(ErrorBody(ErrorResponse("invalid request")))) && out.effects == [])
        && (req.body.Decoded? ==> out.response == Response(Some(StatusOK), None) && out.effects == [])
    // a key is revoked only for a valid non-admin token, and then it is the token's own key
    ensures out.queries != [] ==>
      && req.verb == MethodPost && req.authToken.Some?
      && var r := ValidateAuthToken(key, req.authToken.value, req.clientIP, now);
         r.Ok? && !r.value.admin && out.queries == [RevokeQuery(req.authToken.value.claims.oomphKey)]
  {
    var ip := req.clientIP;
    if req.verb != MethodPost {
      return Outcome(Response(Some(StatusMethodNotAllowed), None), [], [], false);
    }
    if req.authToken.None? {
      var body := NewErrorResponse("missing " + HeaderAuthToken + " from header");
      return Outcome(Response(Some(StatusForbidden), Some(ErrorBody(body))), [], [], false);
    }
    var r := ValidateAuthToken(key, req.authToken.value, ip, now);
    if r.Err? {
      return Outcome(ErrorReply(r.error), [], [], false);
    }
    var claims := r.value;
    if !claims.admin {
      var revoke := RevokeQuery(claims.oomphKey);
      var body := NewErrorResponse(KeyInvalidatedMessage);
      return Outcome(Response(Some(StatusTeapot), Some(ErrorBody(body))), [], [revoke], false);
    }
    if req.body.Unreadable? {
      var err := New(ServerFault, "failed to read body of HTTP request", Some(req.body.cause));
      var body := NewErrorResponse("failed to read request data");
      return Outcome(Response(Some(StatusInternalServerError), Some(ErrorBody(body))), EndpointError(ip, err, PathUploadProxy), [], true);
    }
    if req.body.Malformed? {
      return Outcome(Response(Some(StatusBadRequest), Some(ErrorBody(NewErrorResponse("invalid request")))), [], [], true);
    }
    var upload := req.body.payload;
    var err := UpdateBinary(upload.os, upload.arch, upload.branch, upload.data);
    if err.Some? {
      // the logged error answer that follows a failed update is dead: the update never fails
      assert false;
    }
    out := Outcome(Response(Some(StatusOK), None), [], [], true);
  }

  /** Login then upload without the admin flag: the token `Authenticate` hands out for a
      non-admin record gets past the token check of `UploadProxy` within the hour, and the
      upload is refused with 418, its body unread, and the record's own key revoked. */
  method LoginThenUpload(login: Request<AuthRequest>, upload: Request<ProxyUploadRequest>, db: Backend, key: SecretKey,
                         submittedAt: int, pause: nat, later: int)
    returns (issued: Outcome, refused: Outcome)
    requires Consistent(db) && Admissible(login, db, submittedAt) && key.usable
    requires !Lookup(db, login.body.payload.key, submittedAt).0.admin
    requires Lookup(db, login.body.payload.key, submittedAt).0.key != "" && login.clientIP != ""
    requires upload.verb == MethodPost && upload.clientIP == login.clientIP
    requires IssueTime(db, submittedAt, pause) + TokenLifetime != 0
    requires IssueTime(db, submittedAt, pause) <= later < IssueTime(db, submittedAt, pause) + TokenLifetime
    ensures issued.response.status == Some(StatusOK)
    ensures refused.response.status == Some(StatusTeapot) && !refused.bodyRead && refused.effects == []
    ensures refused.queries == [RevokeQuery(Lookup(db, login.body.payload.key, submittedAt).0.key)]
  {
    issued := Authenticate(login, db, key, submittedAt, pause);
    var token := issued.response.body.value.token;
    IssuedTokenValidates(key, Lookup(db, login.body.payload.key, submittedAt).0, login.clientIP, IssueTime(db, submittedAt, pause), later);
    refused := UploadProxy(upload.(authToken := Some(token)), key, later);
  }
}
